# Planning poker in Dafny

A model of the planning-poker application: a Node.js server that keeps a
table of voting rooms in memory and talks to browsers over socket.io, and a
React client. The model covers:

- the server's room store (`roomManager.js`): creating and joining rooms,
  leaving them, votes, reveal and reset, scale changes, spectator mode,
  scale resolution and the vote statistics;
- the server's socket handlers (`server.js`): the socket-to-room table,
  the room each handler acts on, the failure replies, and who receives each
  broadcast;
- the client's custom-scale editor (`VotingScaleSelector.js`);
- the client's top-level state (`App.js`): the reducers for server events,
  entering and leaving a room, the decision taken on (re)connection, and the
  toast list;
- the room screen (`Room.js`): its participant list, the guards in front of
  a vote and of a scale change, and the values derived for display.

Modules, one per file:

| file | module | models |
|---|---|---|
| wrappers.dfy | Wrappers | `Option` and `Result` |
| voting_scale.dfy | VotingScale | the presets, the 20-option cap, `resolveVotingScale` |
| participants.dfy | Participants | the participant record, lookup by id, withdrawing votes |
| statistics.dfy | Statistics | `calculateStatistics`: total, distribution and mode |
| room_manager.dfy | RoomManager | every store operation, as a function on one room (its specification) and as a method of the `RoomStore` class that changes the room table in place |
| server.dfy | Server | the `Server` class: `socketRoomMap`, each socket's joined rooms, an outbox of emits, and one method per handler |
| js_text.dfy | JsText | JavaScript's `trim` (ECMAScript white space) and `split` on one character |
| scale_selector.dfy | ScaleSelector | `validateAndParseCustomValues` and `triggerScaleChange`, with the `Selector` class holding the error shown and the configurations handed on |
| app.dfy | App | the App.js reducers as functions, the `AppClient` class for App's state and session storage |
| room_view.dfy | RoomView | the Room.js reducers and derived values, the `RoomScreen` class for the screen's own state |

Some JavaScript behaviour is modelled explicitly:

- Values that may be absent are `Option`s.
- Truthiness tests are written out. The empty string is false; an empty
  array or object is true.
- The round flag `votesRevealed` is `Option<bool>`. `createRoom` writes a
  field called `revealed`, so the flag is absent until the first reveal,
  reset or scale change.
- A random room id is a parameter of `CreateRoom`. `Date.now()` is the
  `now` parameter of every method that adds a toast.
- Whether the socket is connected is a parameter.
- socket.io rooms and emits are state of the `Server` class: each socket's
  joined rooms are a sequence in join order, and each emit is appended to
  an outbox.

## Model

| member | source | states |
|---|---|---|
| VotingScale.PresetValues | poker-planning-app/server/src/roomManager.js:3-7 | exactly the three preset names have a token list; each list is non-empty and within the 20-option cap |
| VotingScale.Truncate | poker-planning-app/server/src/roomManager.js:28-32 | the result is the longest prefix of the scale that fits the cap; a scale within the cap is unchanged |
| VotingScale.ResolveVotingScale | poker-planning-app/server/src/roomManager.js:16-34 | a missing config, an unknown preset or a custom config without a values array falls back to Fibonacci with the default config; otherwise the config is kept and the values are the requested list cut to 20 |
| VotingScale.ResolvedNonEmptyUnlessCustom | poker-planning-app/server/src/roomManager.js:16-34 | a resolved scale is empty only when it is a custom config with an empty values array |
| VotingScale.ResolveIdempotent | poker-planning-app/server/src/roomManager.js:16-34 | resolving the config that resolution kept gives the same scale again |
| Participants.FindIndex | poker-planning-app/server/src/roomManager.js:84 | `findIndex`: none exactly when no entry has the id; otherwise the first entry with the id |
| Participants.FoundIsOnly | poker-planning-app/server/src/roomManager.js:57 | with unique ids, the entry that has the id is the one lookup finds |
| Participants.WithoutVote | poker-planning-app/server/src/roomManager.js:126-129 | withdrawing a vote clears `currentVote` and `hasVoted` and keeps id, name and spectator flag |
| Participants.ClearAllVotes | poker-planning-app/server/src/roomManager.js:208-211 | the loop keeps length, ids, names and spectator flags, and leaves every entry without a vote |
| Statistics.CastVotes | poker-planning-app/server/src/roomManager.js:139 | the votes are exactly the non-null `currentVote`s, at most one per participant |
| Statistics.CalculateStatistics | poker-planning-app/server/src/roomManager.js:137-179 | the counting loop and the maximum search compute the total, the distribution and the mode of the specification |
| Statistics.TallyKeys | poker-planning-app/server/src/roomManager.js:151-152 | the distribution's keys are exactly the tokens voted, each counted at least once |
| Statistics.TallyCounts | poker-planning-app/server/src/roomManager.js:151-152 | each token's count is its number of occurrences among the votes |
| Statistics.TallySum | poker-planning-app/server/src/roomManager.js:151-152 | the counts add up to the number of votes |
| Statistics.StatisticsCorrect | poker-planning-app/server/src/roomManager.js:139-177 | the total is the number of votes held; the counts sum to it; the mode is exactly the tokens of maximal count; no votes means empty mode and distribution |
| RoomManager.NewRoomProperties | poker-planning-app/server/src/roomManager.js:36-52 | a new room has the creator as its only participant, a non-spectator without a vote; the round is not revealed; the cards are the resolved scale; the room invariant holds |
| RoomManager.JoinProperties | poker-planning-app/server/src/roomManager.js:54-75 | a known id only has its name refreshed; an unknown id is appended as a non-spectator without a vote; nothing else changes and the invariant is kept |
| RoomManager.JoinIdempotent | poker-planning-app/server/src/roomManager.js:54-75 | joining twice with the same id and name equals joining once |
| RoomManager.FindAfterSameIdUpdate | poker-planning-app/server/src/roomManager.js:57-66 | after an entry is updated in place under the same id, lookup still finds it at the same index |
| RoomManager.RemoveProperties | poker-planning-app/server/src/roomManager.js:81-105 | the entry is spliced out and its name returned; a departing creator hands the room to the first remaining participant; a room left empty is to be deleted; an absent id is reported; the invariant is kept |
| RoomManager.VoteProperties | poker-planning-app/server/src/roomManager.js:221-245 | guard order: participant, spectator, revealed, card; success changes only the voter's `currentVote` and `hasVoted` and keeps the invariant |
| RoomManager.ResetProperties | poker-planning-app/server/src/roomManager.js:120-135 | a non-creator gets exactly the creator error; otherwise every vote is withdrawn, the round is closed, the statistics cleared and nothing else changes |
| RoomManager.ClearedVotesKeepsInvariant | poker-planning-app/server/src/roomManager.js:126-129 | withdrawing every vote keeps the room invariant |
| RoomManager.RevealProperties | poker-planning-app/server/src/roomManager.js:181-195 | only the creator reveals; a reveal sets the flag and stores the statistics of the current votes, participants unchanged |
| RoomManager.UpdateScaleProperties | poker-planning-app/server/src/roomManager.js:197-219 | creator only; an empty resolved scale is refused; success installs the scale and cards, withdraws every vote, closes the round and keeps the statistics |
| RoomManager.ToggleProperties | poker-planning-app/server/src/roomManager.js:247-266 | an absent id gets the not-found error; otherwise only that entry's spectator flag flips, and becoming a spectator withdraws the vote |
| RoomManager.ToggleTwice | poker-planning-app/server/src/roomManager.js:254-260 | toggling twice restores every spectator flag; the toggler comes back without a vote; other entries are unchanged |
| RoomManager.ScaleChangeKeepsStatistics | poker-planning-app/server/src/roomManager.js:205-214 | after a reveal, a scale change closes the round but the revealed round's statistics stay stored |
| RoomManager.RoomStore.constructor | poker-planning-app/server/src/roomManager.js:1 | the table starts empty |
| RoomManager.RoomStore.GetRoom | poker-planning-app/server/src/roomManager.js:77-79 | the stored room, or none when the id is unknown |
| RoomManager.RoomStore.CreateRoom | poker-planning-app/server/src/roomManager.js:36-52 | stores the new room under the given id, overwriting any room there, and keeps the table valid |
| RoomManager.RoomStore.JoinRoom | poker-planning-app/server/src/roomManager.js:54-75 | an unknown room gives "Room not found" and no change; otherwise the joined room is stored and returned |
| RoomManager.RoomStore.RemoveParticipant | poker-planning-app/server/src/roomManager.js:81-105 | a missing room or participant gives the error and no change; an emptied room is deleted; otherwise the remaining room is stored with the removed name |
| RoomManager.RoomStore.ResetVoting | poker-planning-app/server/src/roomManager.js:120-135 | "Room not found." for an unknown room; otherwise the reset result, stored only on success |
| RoomManager.RoomStore.RevealVotes | poker-planning-app/server/src/roomManager.js:181-195 | "Room not found." for an unknown room; otherwise the reveal result, stored only on success |
| RoomManager.RoomStore.UpdateVotingScale | poker-planning-app/server/src/roomManager.js:197-219 | "Room not found" for an unknown room; otherwise the scale change result, stored only on success |
| RoomManager.RoomStore.SubmitVote | poker-planning-app/server/src/roomManager.js:221-245 | "Room not found." for an unknown room; otherwise the vote result, stored only on success |
| RoomManager.RoomStore.ToggleSpectatorMode | poker-planning-app/server/src/roomManager.js:247-266 | "Room not found." for an unknown room; otherwise the toggled room is stored and the toggled entry returned |
| Server.CurrentRoom | poker-planning-app/server/src/server.js:85 | the first room joined other than the socket's own, none when there is none |
| Server.JoinedAfter | poker-planning-app/server/src/server.js:27 | joining adds the room once and keeps every room already joined, and which room was joined first |
| Server.FindParticipant | poker-planning-app/server/src/server.js:55 | the entry with the id, none exactly when there is none |
| Server.JoinAnnouncesJoiner | poker-planning-app/server/src/server.js:54-57 | a successful join announces exactly the joiner, under the name given, to everyone else in the room |
| Server.VoteValueReachesOnlyCreator | poker-planning-app/server/src/server.js:141-154 | the room-wide notice carries only who voted; the value goes to the creator alone, exactly when the voter is not the creator |
| Server.LeftOnlyWhenRoomSurvives | poker-planning-app/server/src/server.js:68-76 | a departure is announced, to the others only, exactly when the room survives and the name is non-empty |
| Server.ResetBroadcastClosesRound | poker-planning-app/server/src/server.js:189-193 | the reset broadcast always says the round is closed and there are no statistics |
| Server.ScaleMessageNamesRoomId | poker-planning-app/server/src/server.js:105 | the scale notice names the socket's mapped room id, or "The room creator" without one |
| Server.Server.constructor | poker-planning-app/server/src/server.js:18 | the socket map, the joined rooms and the outbox start empty |
| Server.Server.HandlerRoom | poker-planning-app/server/src/server.js:85-87 | the room a handler acts on is the first room joined, and none when that is missing or empty |
| Server.Server.SocketJoin | poker-planning-app/server/src/server.js:27 | only the socket's joined rooms change |
| Server.Server.OnCreateRoom | poker-planning-app/server/src/server.js:23-34 | the room is stored; with a non-empty id the socket joins it, is mapped to it and gets the room; otherwise it gets "Failed to create room" |
| Server.Server.OnJoinRoom | poker-planning-app/server/src/server.js:36-58 | an unknown room gives the store's error with nothing joined, mapped or emitted; otherwise the socket joins, is mapped, gets the room, and the others are told |
| Server.Server.OnDisconnect | poker-planning-app/server/src/server.js:60-80 | a socket without a mapped room changes nothing else; otherwise the participant is removed, the mapping deleted, and the departure announced as above |
| Server.Server.OnUpdateVotingScale | poker-planning-app/server/src/server.js:82-110 | no room gives "You are not currently in a room." and no store call; a store error is replied and nothing is emitted; success broadcasts the new scale with the notice and replies with the room |
| Server.Server.OnSubmitVote | poker-planning-app/server/src/server.js:114-155 | no room gives "Not in a room."; a store error is replied and nothing is emitted; success acknowledges and emits the vote notices above |
| Server.Server.OnRevealVotes | poker-planning-app/server/src/server.js:157-175 | no room gives "Not in a room."; a store error is replied and nothing is emitted; success broadcasts participants and statistics and replies with the statistics |
| Server.Server.OnResetVoting | poker-planning-app/server/src/server.js:177-196 | no room gives "Not in a room."; a store error is replied and nothing is emitted; success broadcasts the cleared participants with the round closed |
| JsText.TrimStartFacts | poker-planning-app/client/src/components/VotingScaleSelector.js:41 | trimming the start removes exactly a leading run of white space |
| JsText.TrimEndFacts | poker-planning-app/client/src/components/VotingScaleSelector.js:41 | trimming the end removes exactly a trailing run of white space |
| JsText.TrimCharacterized | poker-planning-app/client/src/components/VotingScaleSelector.js:41-42 | `trim` keeps a middle part of the string cut only at white space, with no white space at either end; it is empty exactly when the string is all white space |
| JsText.TrimIdempotent | poker-planning-app/client/src/components/VotingScaleSelector.js:41 | trimming twice is trimming once |
| JsText.Split | poker-planning-app/client/src/components/VotingScaleSelector.js:41 | `split` gives at least one piece, and no piece holds the separator |
| JsText.JoinSplit | poker-planning-app/client/src/components/VotingScaleSelector.js:41 | joining the pieces with the separator gives back the string |
| JsText.SplitJoin | poker-planning-app/client/src/components/VotingScaleSelector.js:41 | splitting pieces that hold no separator, after joining them, gives back the pieces |
| ScaleSelector.TokensAreTrimmed | poker-planning-app/client/src/components/VotingScaleSelector.js:41 | every token is non-empty and already trimmed |
| ScaleSelector.TokensAvoid | poker-planning-app/client/src/components/VotingScaleSelector.js:41 | a token holds no comma |
| ScaleSelector.SetSizeDetectsDuplicates | poker-planning-app/client/src/components/VotingScaleSelector.js:51 | `new Set(arr).size !== arr.length` exactly when some token repeats |
| ScaleSelector.ParseOutcomes | poker-planning-app/client/src/components/VotingScaleSelector.js:40-57 | each of the three messages is given exactly when its check is the first to fail; an accepted list is the tokens, duplicate-free, at most 20, non-empty trimmed and comma-free |
| ScaleSelector.ParseExample | poker-planning-app/client/src/components/VotingScaleSelector.js:41 | "  A  , B ,, C  " gives A, B and C |
| ScaleSelector.AcceptsDistinctTokens | poker-planning-app/client/src/components/VotingScaleSelector.js:46-56 | at least one and at most 20 distinct tokens are accepted as they are |
| ScaleSelector.BlankInputIsEmptyList | poker-planning-app/client/src/components/VotingScaleSelector.js:42 | an empty or all-white-space input is accepted as the empty list |
| ScaleSelector.AcceptedListResolvesToItself | poker-planning-app/client/src/components/VotingScaleSelector.js:66-68 | an accepted list passes through the server's resolution unchanged |
| ScaleSelector.Selector.ValidateAndParseCustomValues | poker-planning-app/client/src/components/VotingScaleSelector.js:40-57 | the tokens with the error cleared, or null with that check's message shown |
| ScaleSelector.Selector.TriggerScaleChange | poker-planning-app/client/src/components/VotingScaleSelector.js:59-76 | a preset name is handed on unchecked; custom text is handed on only when it parses, the empty list included |
| App.MarkVotedTouchesOnlyVoter | poker-planning-app/client/src/App.js:170 | marking a vote changes only the `hasVoted` flag of entries with that id, and marking again changes nothing |
| App.LeaveThenVoteThrows | poker-planning-app/client/src/App.js:112 | after leaving, the next participantVoted event throws in the reducer as written |
| App.ParticipantVotedCorrected | poker-planning-app/client/src/App.js:166-172 | the guarded reducer never throws; it agrees with the original wherever that does not throw, changes only the participant list as marking does, and is idempotent |
| App.RealTimeOnWellShaped | poker-planning-app/client/src/App.js:173-183 | no change without a state or live votes; otherwise the value is recorded under the voter's id and the voter marked; never throws on a reachable state; idempotent |
| App.ReplacingReducers | poker-planning-app/client/src/App.js:161-191 | the scale, reveal and reset reducers keep a null state null and keep the room id, name and creator; they set the fields each event carries (scale and cards, participants, reveal flag, statistics), keep the rest, empty the live votes, and are idempotent |
| App.MergeProperties | poker-planning-app/client/src/App.js:200 | a merge takes exactly the fields the payload carries (name, vote, voted and spectator flags) and keeps the others; merging again changes nothing |
| App.ParticipantUpdatedProperties | poker-planning-app/client/src/App.js:196-207 | without a state or a list nothing changes; otherwise only entries with the payload's id are merged; idempotent |
| App.ReducersKeepShape | poker-planning-app/client/src/App.js:112 | the voted, updated and leave reducers keep live votes only next to a participant list |
| App.ConnectPrecedence | poker-planning-app/client/src/App.js:232-279 | the connect branches and their precedence, each as an if-and-only-if, with the room id and name each branch uses |
| App.WithoutToastProperties | poker-planning-app/client/src/App.js:73-75 | removing a toast keeps exactly the toasts with another id, as many as the list minus those with that id |
| App.AppClient.constructor | poker-planning-app/client/src/App.js:23-31 | home view, no room, empty name, flags false, no toasts |
| App.AppClient.AddToast | poker-planning-app/client/src/App.js:67-71 | appends the toast and changes nothing else |
| App.AppClient.RemoveToast | poker-planning-app/client/src/App.js:73-75 | keeps exactly the toasts with another id; nothing else changes |
| App.AppClient.HandleRoomEntry | poker-planning-app/client/src/App.js:77-103 | the room state from the server's room; creator exactly when the socket is the creator; spectator from the socket's own entry; room view; session holds room id and name |
| App.AppClient.HandleLeaveRoom | poker-planning-app/client/src/App.js:105-125 | home view; the room state keeps only id and name; the room id and creator flag leave the session; name and flags stay |
| App.AppClient.OnConnect | poker-planning-app/client/src/App.js:232-279 | takes the connect decision, with its view change or toast |
| App.AppClient.OnRejoinResponse | poker-planning-app/client/src/App.js:248-262 | success enters the room under the given name, with the creator and spectator flags set as on entry; failure leaves it, removes the room id from the session and keeps the name and flags; the URL target is untouched |
| App.AppClient.OnUrlJoinResponse | poker-planning-app/client/src/App.js:268-278 | success enters the room under the given name, with the creator and spectator flags set as on entry; failure only returns home and adds its toast; the URL target is untouched |
| App.AppClient.SubmitNameForRoomJoin | poker-planning-app/client/src/App.js:128-139 | while disconnected only the error toast; otherwise the name is taken and remembered before the request; view, room state, flags and URL target stay |
| App.AppClient.OnNameJoinResponse | poker-planning-app/client/src/App.js:140-154 | success enters the room with the creator and spectator flags set as on entry; failure forgets the name in memory and in the session and keeps the flags; the URL target is cleared either way |
| App.AppClient.HandleVotingScaleUpdated | poker-planning-app/client/src/App.js:161-165 | applies the reducer and shows the notice, or the default text when it is empty; nothing else changes |
| App.AppClient.HandleParticipantVoted | poker-planning-app/client/src/App.js:166-172 | applies the guarded participantVoted reducer; nothing else changes |
| App.AppClient.HandleParticipantVotedRealTime | poker-planning-app/client/src/App.js:173-183 | applies the real-time reducer, which cannot throw here; nothing else changes |
| App.AppClient.HandleVotesRevealed | poker-planning-app/client/src/App.js:184-187 | applies the reveal reducer; nothing else changes |
| App.AppClient.HandleVotingReset | poker-planning-app/client/src/App.js:188-191 | applies the reset reducer; nothing else changes |
| App.AppClient.HandleParticipantUpdated | poker-planning-app/client/src/App.js:193-212 | a missing payload is ignored; the spectator flag follows the payload about this socket; others' changes are announced; view, name, session, creator flag and URL target stay |
| RoomView.ParticipantJoinedProperties | poker-planning-app/client/src/components/Room.js:56-60 | ignored for another room; never a second entry for an id; otherwise appended at the end; ids stay unique; idempotent |
| RoomView.WithoutIdMembers | poker-planning-app/client/src/components/Room.js:63 | the filter keeps exactly the entries with another id; without such an entry it changes nothing |
| RoomView.WithoutIdUnique | poker-planning-app/client/src/components/Room.js:63 | the filter keeps ids unique, and removes exactly one entry when the id is present |
| RoomView.ParticipantLeftProperties | poker-planning-app/client/src/components/Room.js:61-70 | ignored for another room; otherwise the leaver's entry and live vote go and nothing else; idempotent |
| RoomView.VotedCountExtremes | poker-planning-app/client/src/components/Room.js:185 | the voted count is zero exactly when nobody has voted, and the full length exactly when everybody has |
| RoomView.VotedCountUpdate | poker-planning-app/client/src/components/Room.js:185 | changing one entry changes the count by the change in its flag |
| RoomView.VotedCountIsTotalVotes | poker-planning-app/client/src/components/Room.js:185 | where flags agree with votes, the voted count equals the statistics' total |
| RoomView.VotedCountFollowsStore | poker-planning-app/client/src/components/Room.js:185 | an accepted vote adds one unless the voter had voted; a reset brings the count to zero |
| RoomView.NamesForCardMembers | poker-planning-app/client/src/components/Room.js:178-181 | no names before the reveal; afterwards exactly the names of the card's voters |
| RoomView.NamesForCardCount | poker-planning-app/client/src/components/Room.js:178-181 | after the reveal a card shows as many names as the count the statistics give it |
| RoomView.NamesMatchCastVotes | poker-planning-app/client/src/components/Room.js:180 | a card's names are as many as its occurrences among the cast votes |
| RoomView.RevealEnabledIff | poker-planning-app/client/src/components/Room.js:262 | the reveal button is enabled exactly when it is not loading and the voted count is positive |
| RoomView.NonBlankProperties | poker-planning-app/client/src/components/Room.js:137 | the filter keeps, unchanged, exactly the values not all white space |
| RoomView.NonBlankKeepsOrder | poker-planning-app/client/src/components/Room.js:137 | the filter keeps order: filtering two joined parts joins their filtered parts |
| RoomView.PrepareScaleRequestProperties | poker-planning-app/client/src/components/Room.js:133-143 | a custom scale is refused exactly when every value is blank; other choices pass unchanged; what is sent never resolves to an empty scale on the server |
| RoomView.RoomScreen.constructor | poker-planning-app/client/src/components/Room.js:23-38 | the screen's state from App's room state, nothing loading, no card selected |
| RoomView.RoomScreen.HandleParticipantJoined | poker-planning-app/client/src/components/Room.js:56-60 | applies the joined reducer and keeps ids unique |
| RoomView.RoomScreen.HandleParticipantLeft | poker-planning-app/client/src/components/Room.js:61-70 | applies the left reducer to the list and the live votes |
| RoomView.RoomScreen.HandleCardClick | poker-planning-app/client/src/components/Room.js:92-94 | a vote is sent exactly when votes are hidden, none is loading and the user is not a spectator; only the loading flag changes |
| RoomView.RoomScreen.OnVoteResponse | poker-planning-app/client/src/components/Room.js:95-103 | the vote's loading ends; the card is selected only when the vote was accepted; the toast says which; nothing else changes |
| RoomView.RoomScreen.HandleScaleChangeByCreator | poker-planning-app/client/src/components/Room.js:133-145 | ignored while loading; an all-blank custom scale is refused with its toast; otherwise the cleaned choice is sent; the list, live votes and vote state stay |
| RoomView.RoomScreen.OnScaleResponse | poker-planning-app/client/src/components/Room.js:145-152 | the scale's loading ends and the toast reports the outcome; nothing else changes |

## Left out

- socket.io itself is not modelled: transport, reconnection, the status emitter of `socketService.js`, CORS and `server.listen`. The socket-to-room table, each socket's joined rooms and the emits are state of the `Server` class instead.
- The statistics' floating-point fields (`average`, `highestVote`, `lowestVote`) are left out; only the total, the distribution and the mode are modelled.
- Statistics.StatisticsOf: the mode is a set, so the source's key order in the `mode` array is not modelled.
- Room ids come from `Math.random` and are a parameter. `RoomStore.CreateRoom` therefore models an id that is already used: the old room is overwritten, as the source's assignment would do.
- The dead `votes` field of a room is not modelled (written at roomManager.js:45 and 214, never read).
- Logging, theme handling, URL parsing and history rewriting, rendering, the QR code, copying the link, and toast timers are left out.
- The server has no `toggleSpectatorMode` handler, although the client emits it. Only the store operation is modelled.
- Room.js's spectator toggle, reveal and reset click handlers are not modelled. They only send the request and show the answer as a toast.
- Room.js re-copies App's room state whenever it changes (lines 40-53). The `RoomScreen` constructor models the first copy only.
- Room and participant objects are values in the model. The source returns the stored objects themselves, so a caller holding one sees later changes; that sharing is not modelled.
- The connect handler's join request and its answer are two steps in the model (`OnConnect`, then `OnRejoinResponse` or `OnUrlJoinResponse`). The stale-closure effects of React state are not modelled.
- RoomManager.RoomStore.JoinRoom: the room table is a plain JavaScript object (roomManager.js:1), so an id that names an inherited `Object.prototype` member such as `toString` or `constructor` finds a function there, and joinRoom then throws at `room.participants.find` instead of answering "Room not found". The model's table is a map without inherited keys, so it answers "Room not found". Prototype lookup is a property of the JavaScript runtime, not of the room logic.
- RoomManager.RoomStore.GetRoom, RemoveParticipant, ResetVoting, RevealVotes, UpdateVotingScale, SubmitVote and ToggleSpectatorMode look rooms up the same way, and the same inherited ids are treated as unknown rooms in the model.
- VotingScale.PresetValues: the preset table is a plain object (roomManager.js:3-7), so in the source a preset name such as `constructor` or `toString` is truthy at line 19 and a function becomes the scale. The model knows only the three presets; every other name has no token list.
- VotingScale.ResolveVotingScale: for the same inherited names the source keeps the configuration with a function as the value list; the model falls back to Fibonacci as for any unknown preset.
- Statistics.CalculateStatistics: the counts are a plain object (roomManager.js:147), so a custom card named `__proto__` is never an own key, and cards named `constructor` or `toString` start from an inherited function and count by string concatenation. The model counts in a map. Statistics.StatisticsCorrect (the counts sum to the total) is proved for that map, not for those card names.
- App.AppClient.SubmitNameForRoomJoin: the reconnection attempt made while disconnected is left out, because it is socket I/O.
- socketService registers App's listeners with `socket.on` on every connect without removing them, so one event may run a reducer several times. The model runs each reducer once; the idempotence lemmas show that repeats change nothing.
- RoomView.RoomScreen.HandleParticipantJoined takes the participant as present. The server always finds the joiner (Server.JoinAnnouncesJoiner), so the client's `participant.id` never reads an undefined value.

## Findings

| source | as written | input that shows it | evidently intended | confidence | as-written member | corrected member |
|---|---|---|---|---|---|---|
| poker-planning-app/client/src/App.js:166-172 | the participantVoted reducer guards only against a null state and then calls `prev.participants.map` | leave a room (line 112 keeps only `{ id, userName }`; the socket stays in the server's room), then another participant votes | ignore the event when there is no participant list, as the participantUpdated reducer does at line 197 | likely; not executed | App.OnParticipantVotedAsWritten, shown by App.LeaveThenVoteThrows | App.OnParticipantVoted, proved by App.ParticipantVotedCorrected |
