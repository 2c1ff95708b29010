/**
 * The client's top-level state (App.js): the room as the client sees it,
 * the reducers that apply server events to it, entering and leaving a room,
 * the decision taken on (re)connection, and the toast list.
 */
module App {
  import opened Wrappers
  import opened VotingScale
  import opened Participants
  import opened Statistics
  import opened RoomManager

  /** `currentView` */
  datatype View = Home | EnterNameForRoomJoin | InRoom

  /**
   * `roomState` when not null. Every field but `id` and `userName` may be
   * missing: leaving a room keeps only those two, and later events add
   * fields back one reducer at a time.
   */
  datatype ClientRoom = ClientRoom(
    id: string,
    userName: string,
    creatorId: Option<string>,
    participants: Option<seq<Participant>>,
    votingCards: Option<seq<string>>,
    votingScaleConfig: Option<ResolvedScale>,
    votesRevealed: Option<bool>,
    statistics: Option<Statistics>,
    creatorLiveVotes: Option<map<string, string>>)

  /**
   * The shape every reachable state has: live votes are only ever set
   * together with the participant list.
   */
  predicate WellShaped(s: Option<ClientRoom>)
  {
    s.Some? && s.value.creatorLiveVotes.Some? ==> s.value.participants.Some?
  }

  /** The room state handleRoomEntry builds from the server's room. */
  function EnteredRoom(room: Room, nameOfUser: string): ClientRoom
  {
    ClientRoom(room.id, nameOfUser, Some(room.creatorId), Some(room.participants), Some(room.votingCards),
               Some(room.votingScaleConfig), Some(IsRevealed(room)), room.statistics, Some(map[]))
  }

  /** What handleLeaveRoom keeps: `prev ? { id, userName } : null`. */
  function LeftRoom(prev: Option<ClientRoom>): (r: Option<ClientRoom>)
  {
    match prev
    case None => None
    case Some(s) => Some(ClientRoom(s.id, s.userName, None, None, None, None, None, None, None))
  }

  // ---------------------------------------------------------------------
  // The server-event reducers.
  // ---------------------------------------------------------------------

  /** votingScaleUpdated: new scale and participants, round closed, statistics and live votes cleared. */
  function OnVotingScaleUpdated(prev: Option<ClientRoom>, cfg: ResolvedScale, cards: seq<string>, ps: seq<Participant>)
    : (r: Option<ClientRoom>)
  {
    match prev
    case None => None
    case Some(s) =>
      Some(s.(votingScaleConfig := Some(cfg), votingCards := Some(cards), participants := Some(ps),
              votesRevealed := Some(false), statistics := None, creatorLiveVotes := Some(map[])))
  }

  /** `participants.map(p => p.id === participantId ? { ...p, hasVoted } : p)` */
  function MarkVoted(ps: seq<Participant>, participantId: string, hasVoted: bool): seq<Participant>
  {
    seq(|ps|, i requires 0 <= i < |ps| => if ps[i].id == participantId then ps[i].(hasVoted := hasVoted) else ps[i])
  }

  /** The outcome of a state updater that may throw. */
  datatype Step = Next(state: Option<ClientRoom>) | TypeError

  /**
   * participantVoted as written: it guards against a null state only, so a
   * state without a participant list throws on `prev.participants.map`.
   */
  function OnParticipantVotedAsWritten(prev: Option<ClientRoom>, participantId: string, hasVoted: bool): Step
  {
    match prev
    case None => Next(None)
    case Some(s) =>
      if s.participants.None? then TypeError
      else Next(Some(s.(participants := Some(MarkVoted(s.participants.value, participantId, hasVoted)))))
  }

  /**
   * participantVoted with the guard participantUpdated already has
   * (`!prev || !prev.participants`): a state without a participant list is
   * left as it is.
   */
  function OnParticipantVoted(prev: Option<ClientRoom>, participantId: string, hasVoted: bool): Option<ClientRoom>
  {
    match prev
    case None => None
    case Some(s) =>
      if s.participants.None? then prev
      else Some(s.(participants := Some(MarkVoted(s.participants.value, participantId, hasVoted))))
  }

  /**
   * participantVotedRealTime: ignored without a state or without live votes;
   * otherwise marks the voter and records the value under the voter's id.
   */
  function OnParticipantVotedRealTime(prev: Option<ClientRoom>, participantId: string, hasVoted: bool, voteValue: string)
    : Step
  {
    match prev
    case None => Next(prev)
    case Some(s) =>
      if s.creatorLiveVotes.None? then Next(prev)
      else if s.participants.None? then TypeError
      else Next(Some(s.(participants := Some(MarkVoted(s.participants.value, participantId, hasVoted)),
                        creatorLiveVotes := Some(s.creatorLiveVotes.value[participantId := voteValue]))))
  }

  /** votesRevealed: the revealed participants and statistics, round open, live votes cleared. */
  function OnVotesRevealed(prev: Option<ClientRoom>, ps: seq<Participant>, stats: Option<Statistics>): Option<ClientRoom>
  {
    match prev
    case None => None
    case Some(s) =>
      Some(s.(participants := Some(ps), statistics := stats, votesRevealed := Some(true), creatorLiveVotes := Some(map[])))
  }

  /** votingReset: the payload's participants, flag and statistics, live votes cleared. */
  function OnVotingReset(prev: Option<ClientRoom>, ps: seq<Participant>, votesRevealed: bool, stats: Option<Statistics>)
    : Option<ClientRoom>
  {
    match prev
    case None => None
    case Some(s) =>
      Some(s.(participants := Some(ps), votesRevealed := Some(votesRevealed), statistics := stats,
              creatorLiveVotes := Some(map[])))
  }

  /** The fields a participantUpdated payload carries; `id` is always present, the others may be missing. */
  datatype ParticipantPatch = ParticipantPatch(
    id: string,
    name: Option<string>,
    currentVote: Option<Option<string>>,
    hasVoted: Option<bool>,
    isSpectator: Option<bool>)

  /** `{ ...p, ...patch }` */
  function Merge(p: Participant, patch: ParticipantPatch): (q: Participant)
  {
    Participant(patch.id,
                if patch.name.Some? then patch.name.value else p.name,
                if patch.currentVote.Some? then patch.currentVote.value else p.currentVote,
                if patch.hasVoted.Some? then patch.hasVoted.value else p.hasVoted,
                if patch.isSpectator.Some? then patch.isSpectator.value else p.isSpectator)
  }

  /** participantUpdated: merges the payload into the entry with its id, when there is a participant list. */
  function OnParticipantUpdated(prev: Option<ClientRoom>, patch: ParticipantPatch): Option<ClientRoom>
  {
    match prev
    case None => None
    case Some(s) =>
      if s.participants.None? then prev
      else
        var ps := s.participants.value;
        Some(s.(participants := Some(seq(|ps|, i requires 0 <= i < |ps| =>
                                           if ps[i].id == patch.id then Merge(ps[i], patch) else ps[i]))))
  }

  // ---------------------------------------------------------------------
  // Properties of the reducers.
  // ---------------------------------------------------------------------

  /** Marking a vote changes the `hasVoted` flag of the entries with that id and nothing else. */
  lemma MarkVotedTouchesOnlyVoter(ps: seq<Participant>, participantId: string, hasVoted: bool)
    ensures var r := MarkVoted(ps, participantId, hasVoted);
            && |r| == |ps|
            && (forall i :: 0 <= i < |ps| && ps[i].id != participantId ==> r[i] == ps[i])
            && (forall i :: 0 <= i < |ps| && ps[i].id == participantId ==>
                  r[i].hasVoted == hasVoted && r[i].(hasVoted := ps[i].hasVoted) == ps[i])
            && MarkVoted(r, participantId, hasVoted) == r
  {
  }

  /**
   * Finding: after leaving a room the state keeps only its id and name,
   * while the socket stays in the server's room; the next participantVoted
   * event then throws in the state updater.
   */
  lemma LeaveThenVoteThrows(s: ClientRoom, participantId: string)
    ensures OnParticipantVotedAsWritten(LeftRoom(Some(s)), participantId, true) == TypeError
  {
  }

  /**
   * The corrected reducer never throws, agrees with the original wherever
   * the original does not throw, and changes only the voter's flag.
   */
  lemma ParticipantVotedCorrected(prev: Option<ClientRoom>, participantId: string, hasVoted: bool)
    ensures var r := OnParticipantVoted(prev, participantId, hasVoted);
            && (OnParticipantVotedAsWritten(prev, participantId, hasVoted).Next? ==>
                  OnParticipantVotedAsWritten(prev, participantId, hasVoted).state == r)
            && (OnParticipantVotedAsWritten(prev, participantId, hasVoted) == TypeError ==> r == prev)
            && (prev.None? <==> r.None?)
            && (r.Some? ==> r.value.(participants := prev.value.participants) == prev.value)
            && (r.Some? && prev.value.participants.Some? ==>
                  r.value.participants == Some(MarkVoted(prev.value.participants.value, participantId, hasVoted)))
            && OnParticipantVoted(r, participantId, hasVoted) == r
  {
    MarkVotedTouchesOnlyVoter(if prev.Some? && prev.value.participants.Some? then prev.value.participants.value else [],
                              participantId, hasVoted);
  }

  /**
   * The real-time reducer never throws on a well-shaped state; it records
   * the value under the voter's id only when live votes are kept, and
   * applying it twice is applying it once.
   */
  lemma RealTimeOnWellShaped(prev: Option<ClientRoom>, participantId: string, hasVoted: bool, voteValue: string)
    requires WellShaped(prev)
    ensures var r := OnParticipantVotedRealTime(prev, participantId, hasVoted, voteValue);
            && r.Next?
            && WellShaped(r.state)
            && ((prev.None? || prev.value.creatorLiveVotes.None?) ==> r.state == prev)
            && (prev.Some? && prev.value.creatorLiveVotes.Some? ==>
                  && r.state.Some?
                  && r.state.value.creatorLiveVotes == Some(prev.value.creatorLiveVotes.value[participantId := voteValue])
                  && r.state.value.participants == Some(MarkVoted(prev.value.participants.value, participantId, hasVoted))
                  && OnParticipantVotedRealTime(r.state, participantId, hasVoted, voteValue) == r)
  {
    if prev.Some? && prev.value.creatorLiveVotes.Some? {
      MarkVotedTouchesOnlyVoter(prev.value.participants.value, participantId, hasVoted);
      var m := prev.value.creatorLiveVotes.value[participantId := voteValue];
      assert m[participantId := voteValue] == m;
    }
  }

  /**
   * The reducers that replace fields keep a null state null, leave the id,
   * the name and the creator as they were, reach a well-shaped state, and
   * give the same state when a listener registered twice applies them again.
   */
  lemma ReplacingReducers(prev: Option<ClientRoom>, cfg: ResolvedScale, cards: seq<string>, ps: seq<Participant>,
                          stats: Option<Statistics>, flag: bool)
    ensures var a := OnVotingScaleUpdated(prev, cfg, cards, ps);
            && (a.None? <==> prev.None?)
            && (a.Some? ==> a.value.id == prev.value.id && a.value.userName == prev.value.userName
                            && a.value.creatorId == prev.value.creatorId
                            && a.value.votingScaleConfig == Some(cfg) && a.value.votingCards == Some(cards)
                            && a.value.votesRevealed == Some(false) && a.value.statistics.None?
                            && a.value.creatorLiveVotes == Some(map[]) && a.value.participants == Some(ps))
            && WellShaped(a) && OnVotingScaleUpdated(a, cfg, cards, ps) == a
    ensures var b := OnVotesRevealed(prev, ps, stats);
            && (b.None? <==> prev.None?)
            && (b.Some? ==> b.value.id == prev.value.id && b.value.userName == prev.value.userName
                            && b.value.creatorId == prev.value.creatorId
                            && b.value.participants == Some(ps) && b.value.votesRevealed == Some(true)
                            && b.value.creatorLiveVotes == Some(map[]) && b.value.statistics == stats
                            && b.value.votingCards == prev.value.votingCards
                            && b.value.votingScaleConfig == prev.value.votingScaleConfig)
            && WellShaped(b) && OnVotesRevealed(b, ps, stats) == b
    ensures var c := OnVotingReset(prev, ps, flag, stats);
            && (c.None? <==> prev.None?)
            && (c.Some? ==> c.value.id == prev.value.id && c.value.userName == prev.value.userName
                            && c.value.creatorId == prev.value.creatorId
                            && c.value.participants == Some(ps) && c.value.votesRevealed == Some(flag)
                            && c.value.creatorLiveVotes == Some(map[]) && c.value.statistics == stats
                            && c.value.votingCards == prev.value.votingCards
                            && c.value.votingScaleConfig == prev.value.votingScaleConfig)
            && WellShaped(c) && OnVotingReset(c, ps, flag, stats) == c
  {
  }

  /** A merge sets exactly the fields the payload carries; merging again changes nothing. */
  lemma MergeProperties(p: Participant, patch: ParticipantPatch)
    ensures var q := Merge(p, patch);
            && q.id == patch.id
            && (patch.name.None? ==> q.name == p.name) && (patch.name.Some? ==> q.name == patch.name.value)
            && (patch.isSpectator.None? ==> q.isSpectator == p.isSpectator)
            && (patch.isSpectator.Some? ==> q.isSpectator == patch.isSpectator.value)
            && (patch.hasVoted.None? ==> q.hasVoted == p.hasVoted)
            && (patch.hasVoted.Some? ==> q.hasVoted == patch.hasVoted.value)
            && (patch.currentVote.None? ==> q.currentVote == p.currentVote)
            && (patch.currentVote.Some? ==> q.currentVote == patch.currentVote.value)
            && Merge(q, patch) == q
  {
  }

  /** participantUpdated changes only the entries with the payload's id, and applying it twice is applying it once. */
  lemma ParticipantUpdatedProperties(prev: Option<ClientRoom>, patch: ParticipantPatch)
    ensures var r := OnParticipantUpdated(prev, patch);
            && (prev.None? || prev.value.participants.None? ==> r == prev)
            && (prev.Some? && prev.value.participants.Some? ==>
                  var ps := prev.value.participants.value;
                  && r.Some? && r.value.(participants := prev.value.participants) == prev.value
                  && r.value.participants.Some? && |r.value.participants.value| == |ps|
                  && forall i :: 0 <= i < |ps| ==>
                       r.value.participants.value[i] == if ps[i].id == patch.id then Merge(ps[i], patch) else ps[i])
            && OnParticipantUpdated(r, patch) == r
  {
    if prev.Some? && prev.value.participants.Some? {
      var ps := prev.value.participants.value;
      var r := OnParticipantUpdated(prev, patch);
      var ps' := r.value.participants.value;
      var again := OnParticipantUpdated(r, patch).value.participants.value;
      forall i | 0 <= i < |ps|
        ensures again[i] == ps'[i]
      {
        if ps[i].id == patch.id {
          MergeProperties(ps[i], patch);
        }
      }
      assert again == ps';
    }
  }

  /** Every reducer keeps a well-shaped state well-shaped. */
  lemma ReducersKeepShape(prev: Option<ClientRoom>, pid: string, flag: bool, patch: ParticipantPatch)
    requires WellShaped(prev)
    ensures WellShaped(OnParticipantVoted(prev, pid, flag))
    ensures WellShaped(OnParticipantUpdated(prev, patch))
    ensures WellShaped(LeftRoom(prev))
  {
  }

  // ---------------------------------------------------------------------
  // What happens on (re)connection.
  // ---------------------------------------------------------------------

  /** The branch taken on connect, with the room id and name it uses. */
  datatype ConnectAction =
    | PromptForName(roomId: string)
    | Rejoin(roomId: string, name: string)
    | JoinFromUrl(roomId: string, name: string)
    | NoAction

  /** JavaScript truthiness of a string that may be null. */
  predicate Present(s: Option<string>)
  {
    s.Some? && s.value != ""
  }

  /** `a || b` on strings that may be null. */
  function Or(a: Option<string>, b: Option<string>): Option<string>
  {
    if Present(a) then a else b
  }

  /**
   * The on-connect decision. `userName || persisted` is the name; the three
   * branches are tried in this order.
   */
  function ConnectDecision(roomFromUrl: Option<string>, userName: string, persistedUserName: Option<string>,
                           view: View, roomState: Option<ClientRoom>, sessionRoomId: Option<string>): ConnectAction
  {
    var currentUserName := Or(Some(userName), persistedUserName);
    var stateRoomId := if roomState.Some? then Some(roomState.value.id) else None;
    if Present(roomFromUrl) && !Present(currentUserName) then PromptForName(roomFromUrl.value)
    else if view == InRoom && Present(Or(stateRoomId, sessionRoomId)) && Present(currentUserName) then
      Rejoin(Or(stateRoomId, sessionRoomId).value, currentUserName.value)
    else if Present(roomFromUrl) && Present(currentUserName) && view != InRoom then
      JoinFromUrl(roomFromUrl.value, currentUserName.value)
    else NoAction
  }

  /**
   * The branches' precedence: a URL room without a name always asks for the
   * name; otherwise a client in the room view rejoins when it knows a room,
   * preferring the room state's id over the session's; otherwise a URL room
   * with a name is joined from outside the room view. Nothing happens without
   * a URL room, or in the room view with a name but no room to return to.
   * Names used are never empty, and the typed name wins over the remembered one.
   */
  lemma ConnectPrecedence(roomFromUrl: Option<string>, userName: string, persistedUserName: Option<string>,
                          view: View, roomState: Option<ClientRoom>, sessionRoomId: Option<string>)
    ensures var d := ConnectDecision(roomFromUrl, userName, persistedUserName, view, roomState, sessionRoomId);
            var named := userName != "" || Present(persistedUserName);
            var known := (roomState.Some? && roomState.value.id != "") || Present(sessionRoomId);
            && (d.PromptForName? <==> Present(roomFromUrl) && !named)
            && (d.PromptForName? ==> d.roomId == roomFromUrl.value)
            && (d.Rejoin? <==> named && view == InRoom && known)
            && (d.Rejoin? ==>
                  && d.name == (if userName != "" then userName else persistedUserName.value)
                  && d.roomId == (if roomState.Some? && roomState.value.id != "" then roomState.value.id else sessionRoomId.value))
            && (d.JoinFromUrl? <==> Present(roomFromUrl) && named && view != InRoom)
            && (d.JoinFromUrl? ==>
                  d.roomId == roomFromUrl.value && d.name == (if userName != "" then userName else persistedUserName.value))
            && (d.NoAction? <==> if named && view == InRoom then !known else !Present(roomFromUrl))
            && (d.Rejoin? || d.JoinFromUrl? ==> d.name != "" && d.roomId != "")
  {
  }

  // ---------------------------------------------------------------------
  // Toasts.
  // ---------------------------------------------------------------------

  datatype ToastKind = Info | Success | Warning | Error

  /** `{ id, message, type }`; the id is the time the toast was added, so two toasts may share it. */
  datatype Toast = Toast(id: int, message: string, kind: ToastKind)

  /** `toasts.filter(toast => toast.id !== id)` */
  function WithoutToast(ts: seq<Toast>, id: int): seq<Toast>
  {
    if ts == [] then []
    else (if ts[0].id == id then [] else [ts[0]]) + WithoutToast(ts[1..], id)
  }

  /** The number of toasts carrying `id`. */
  function CountId(ts: seq<Toast>, id: int): nat
  {
    if ts == [] then 0 else (if ts[0].id == id then 1 else 0) + CountId(ts[1..], id)
  }

  /**
   * removeToast keeps, in order, exactly the toasts with another id: every
   * toast with that id goes, however many share it, and no other.
   */
  lemma {:induction false} WithoutToastProperties(ts: seq<Toast>, id: int)
    ensures var r := WithoutToast(ts, id);
            && (forall t :: t in r <==> t in ts && t.id != id)
            && |r| == |ts| - CountId(ts, id)
            && ((forall t :: t in ts ==> t.id != id) ==> r == ts)
  {
    if ts != [] {
      WithoutToastProperties(ts[1..], id);
      assert ts == [ts[0]] + ts[1..];
    }
  }

  // ---------------------------------------------------------------------
  // The client.
  // ---------------------------------------------------------------------

  /** What the server answered to a join request. */
  datatype JoinResponse = JoinOk(room: Room) | JoinFailed(message: string)

  const RoomIdKey: string := "pokerRoomId"
  const UserNameKey: string := "pokerUserName"
  const IsCreatorKey: string := "pokerIsCreator"
  const DefaultScaleNotice: string := "The voting scale has been updated. Votes have been reset."

  /**
   * This socket's own entry in a joined room, the first with its id, is a
   * spectator's; nothing when the socket has no id.
   */
  predicate SelfIsSpectator(room: Room, socketId: Option<string>)
  {
    socketId.Some? &&
    exists i :: 0 <= i < |room.participants| &&
      room.participants[i].id == socketId.value && room.participants[i].isSpectator &&
      forall j :: 0 <= j < i ==> room.participants[j].id != socketId.value
  }

  /** App's state and the session storage it writes. */
  class AppClient {
    var currentView: View
    var targetRoomIdFromUrl: Option<string>
    var roomState: Option<ClientRoom>
    var userName: string
    var isCreator: bool
    var isSpectator: bool
    var toasts: seq<Toast>
    var session: map<string, string>

    /** The shape invariant of the room state. */
    predicate Valid()
      reads this
    {
      WellShaped(roomState)
    }

    constructor (session: map<string, string>)
      ensures Valid()
      ensures currentView == Home && targetRoomIdFromUrl.None? && roomState.None? && userName == ""
      ensures !isCreator && !isSpectator && toasts == [] && this.session == session
    {
      currentView := Home;
      targetRoomIdFromUrl := None;
      roomState := None;
      userName := "";
      isCreator := false;
      isSpectator := false;
      toasts := [];
      this.session := session;
    }

    /** addToast, with `Date.now()` passed in. */
    method AddToast(now: int, message: string, kind: ToastKind)
      modifies this
      ensures toasts == old(toasts) + [Toast(now, message, kind)]
      ensures currentView == old(currentView) && roomState == old(roomState) && userName == old(userName)
      ensures isCreator == old(isCreator) && isSpectator == old(isSpectator) && session == old(session)
      ensures targetRoomIdFromUrl == old(targetRoomIdFromUrl)
    {
      toasts := toasts + [Toast(now, message, kind)];
    }

    /** removeToast */
    method RemoveToast(id: int)
      modifies this
      ensures toasts == WithoutToast(old(toasts), id)
      ensures currentView == old(currentView) && roomState == old(roomState) && userName == old(userName)
      ensures isCreator == old(isCreator) && isSpectator == old(isSpectator) && session == old(session)
      ensures targetRoomIdFromUrl == old(targetRoomIdFromUrl)
    {
      toasts := WithoutToast(toasts, id);
    }

    /**
     * handleRoomEntry: the room state from the server's room, the creator
     * flag from comparing the creator with this socket, the spectator flag
     * from this socket's own entry, the room view, and the session.
     */
    method HandleRoomEntry(room: Room, nameOfUser: string, socketId: Option<string>)
      modifies this
      ensures roomState == Some(EnteredRoom(room, nameOfUser)) && userName == nameOfUser
      ensures isCreator <==> socketId == Some(room.creatorId)
      ensures isSpectator <==> SelfIsSpectator(room, socketId)
      ensures currentView == InRoom
      ensures session == old(session)[RoomIdKey := room.id][UserNameKey := nameOfUser]
      ensures toasts == old(toasts) && targetRoomIdFromUrl == old(targetRoomIdFromUrl)
      ensures Valid()
    {
      roomState := Some(EnteredRoom(room, nameOfUser));
      userName := nameOfUser;
      var selfInRoom: Option<nat> := None;
      if socketId.Some? {
        selfInRoom := FindIndex(room.participants, socketId.value);
      }
      isCreator := socketId == Some(room.creatorId);
      isSpectator := selfInRoom.Some? && room.participants[selfInRoom.value].isSpectator;
      currentView := InRoom;
      session := session[RoomIdKey := room.id][UserNameKey := nameOfUser];
    }

    /**
     * handleLeaveRoom: back home, keeping only the room id and name in the
     * room state and the remembered name in the session. The creator and
     * spectator flags are left as they were.
     */
    method HandleLeaveRoom()
      requires Valid()
      modifies this
      ensures Valid()
      ensures currentView == Home && roomState == LeftRoom(old(roomState))
      ensures session == old(session) - {RoomIdKey, IsCreatorKey}
      ensures userName == old(userName) && isCreator == old(isCreator) && isSpectator == old(isSpectator)
      ensures toasts == old(toasts) && targetRoomIdFromUrl == old(targetRoomIdFromUrl)
    {
      currentView := Home;
      roomState := LeftRoom(roomState);
      session := session - {RoomIdKey, IsCreatorKey};
    }

    /** The session value under `key`, null when absent. */
    function SessionItem(key: string): Option<string>
      reads this
    {
      if key in session then Some(session[key]) else None
    }

    /**
     * The `connect` branch: decides, asks for a name or announces the
     * attempt. The join request itself goes out through the socket; its
     * answer arrives through OnRejoinResponse or OnUrlJoinResponse.
     */
    method OnConnect(roomFromUrl: Option<string>, now: int) returns (action: ConnectAction)
      requires Valid()
      modifies this
      ensures Valid()
      ensures action == ConnectDecision(roomFromUrl, old(userName), old(SessionItem(UserNameKey)), old(currentView),
                                        old(roomState), old(SessionItem(RoomIdKey)))
      ensures action.PromptForName? ==>
                targetRoomIdFromUrl == Some(action.roomId) && currentView == EnterNameForRoomJoin && toasts == old(toasts)
      ensures action.Rejoin? ==>
                toasts == old(toasts) + [Toast(now, "Reconnecting to room " + action.roomId + "...", Info)]
      ensures action.JoinFromUrl? ==>
                toasts == old(toasts) + [Toast(now, "Attempting to join room " + action.roomId + " from URL...", Info)]
      ensures !action.PromptForName? ==>
                currentView == old(currentView) && targetRoomIdFromUrl == old(targetRoomIdFromUrl)
      ensures action.NoAction? ==> toasts == old(toasts)
      ensures roomState == old(roomState) && userName == old(userName) && session == old(session)
      ensures isCreator == old(isCreator) && isSpectator == old(isSpectator)
    {
      action := ConnectDecision(roomFromUrl, userName, SessionItem(UserNameKey), currentView, roomState,
                                SessionItem(RoomIdKey));
      match action {
        case PromptForName(roomId) =>
          targetRoomIdFromUrl := Some(roomId);
          currentView := EnterNameForRoomJoin;
        case Rejoin(roomId, _) =>
          toasts := toasts + [Toast(now, "Reconnecting to room " + roomId + "...", Info)];
        case JoinFromUrl(roomId, _) =>
          toasts := toasts + [Toast(now, "Attempting to join room " + roomId + " from URL...", Info)];
        case NoAction =>
      }
    }

    /**
     * The answer to a rejoin. Failure leaves the room view and the room id
     * in the session behind but keeps the remembered name.
     */
    method OnRejoinResponse(name: string, response: JoinResponse, socketId: Option<string>, now: int)
      requires Valid()
      modifies this
      ensures Valid()
      ensures response.JoinOk? ==>
                && roomState == Some(EnteredRoom(response.room, name)) && currentView == InRoom
                && session == old(session)[RoomIdKey := response.room.id][UserNameKey := name]
                && toasts == old(toasts) + [Toast(now, "Successfully re-joined room " + response.room.id + "!", Success)]
                && userName == name && (isCreator <==> socketId == Some(response.room.creatorId))
                && (isSpectator <==> SelfIsSpectator(response.room, socketId))
      ensures response.JoinFailed? ==>
                && currentView == Home && roomState == LeftRoom(old(roomState))
                && session == old(session) - {RoomIdKey, IsCreatorKey}
                && userName == old(userName) && isCreator == old(isCreator) && isSpectator == old(isSpectator)
      ensures targetRoomIdFromUrl == old(targetRoomIdFromUrl)
      ensures response.JoinFailed? ==>
                toasts == old(toasts) + [Toast(now, "Could not re-join: " + response.message + ". Please try joining manually.", Error)]
    {
      match response {
        case JoinOk(room) =>
          toasts := toasts + [Toast(now, "Successfully re-joined room " + room.id + "!", Success)];
          HandleRoomEntry(room, name, socketId);
        case JoinFailed(message) =>
          toasts := toasts + [Toast(now, "Could not re-join: " + message + ". Please try joining manually.", Error)];
          HandleLeaveRoom();
          currentView := Home;
          session := session - {RoomIdKey};
      }
    }

    /** The answer to a join from the URL: failure only returns home. */
    method OnUrlJoinResponse(roomFromUrl: string, name: string, response: JoinResponse, socketId: Option<string>, now: int)
      requires Valid()
      modifies this
      ensures Valid()
      ensures response.JoinOk? ==>
                && roomState == Some(EnteredRoom(response.room, name)) && currentView == InRoom
                && session == old(session)[RoomIdKey := response.room.id][UserNameKey := name]
                && toasts == old(toasts) + [Toast(now, "Successfully joined room " + response.room.id + " from URL!", Success)]
                && userName == name && (isCreator <==> socketId == Some(response.room.creatorId))
                && (isSpectator <==> SelfIsSpectator(response.room, socketId))
      ensures response.JoinFailed? ==>
                && currentView == Home && roomState == old(roomState) && session == old(session)
                && userName == old(userName) && isCreator == old(isCreator) && isSpectator == old(isSpectator)
                && toasts == old(toasts) + [Toast(now, "Could not join room " + roomFromUrl + " from URL: " + response.message, Error)]
      ensures targetRoomIdFromUrl == old(targetRoomIdFromUrl)
    {
      match response {
        case JoinOk(room) =>
          toasts := toasts + [Toast(now, "Successfully joined room " + room.id + " from URL!", Success)];
          HandleRoomEntry(room, name, socketId);
        case JoinFailed(message) =>
          toasts := toasts + [Toast(now, "Could not join room " + roomFromUrl + " from URL: " + message, Error)];
          currentView := Home;
      }
    }

    /**
     * handleNameSubmitForRoomJoin up to sending the request: nothing is sent
     * while disconnected; otherwise the name is taken and remembered.
     */
    method SubmitNameForRoomJoin(connected: bool, submittedName: string, roomId: string, now: int) returns (sent: bool)
      requires Valid()
      modifies this
      ensures Valid()
      ensures sent == connected
      ensures !connected ==>
                && toasts == old(toasts) + [Toast(now, "Not connected to the server. Please wait.", Error)]
                && userName == old(userName) && session == old(session)
      ensures connected ==>
                && userName == submittedName && session == old(session)[UserNameKey := submittedName]
                && toasts == old(toasts) + [Toast(now, "Joining room " + roomId + " as " + submittedName + "...", Info)]
      ensures currentView == old(currentView) && roomState == old(roomState)
      ensures isCreator == old(isCreator) && isSpectator == old(isSpectator)
      ensures targetRoomIdFromUrl == old(targetRoomIdFromUrl)
    {
      if !connected {
        toasts := toasts + [Toast(now, "Not connected to the server. Please wait.", Error)];
        return false;
      }
      userName := submittedName;
      session := session[UserNameKey := submittedName];
      toasts := toasts + [Toast(now, "Joining room " + roomId + " as " + submittedName + "...", Info)];
      sent := true;
    }

    /** The answer to a join after entering a name. Failure forgets the name, in memory and in the session. */
    method OnNameJoinResponse(submittedName: string, response: JoinResponse, socketId: Option<string>, now: int)
      requires Valid()
      modifies this
      ensures Valid()
      ensures targetRoomIdFromUrl.None?
      ensures response.JoinOk? ==>
                && roomState == Some(EnteredRoom(response.room, submittedName)) && currentView == InRoom
                && userName == submittedName
                && toasts == old(toasts) + [Toast(now, "Successfully joined room " + response.room.id + "!", Success)]
                && session == old(session)[RoomIdKey := response.room.id][UserNameKey := submittedName]
                && (isCreator <==> socketId == Some(response.room.creatorId))
                && (isSpectator <==> SelfIsSpectator(response.room, socketId))
      ensures response.JoinFailed? ==>
                && currentView == Home && userName == "" && session == old(session) - {UserNameKey}
                && roomState == old(roomState) && isCreator == old(isCreator) && isSpectator == old(isSpectator)
                && toasts == old(toasts) + [Toast(now, "Failed to join room: " + response.message + ". Returning to home.", Error)]
    {
      match response {
        case JoinOk(room) =>
          toasts := toasts + [Toast(now, "Successfully joined room " + room.id + "!", Success)];
          HandleRoomEntry(room, submittedName, socketId);
          targetRoomIdFromUrl := None;
        case JoinFailed(message) =>
          toasts := toasts + [Toast(now, "Failed to join room: " + message + ". Returning to home.", Error)];
          currentView := Home;
          userName := "";
          session := session - {UserNameKey};
          targetRoomIdFromUrl := None;
      }
    }

    /** votingScaleUpdated, with its notice. */
    method HandleVotingScaleUpdated(cfg: ResolvedScale, cards: seq<string>, ps: seq<Participant>, message: string, now: int)
      requires Valid()
      modifies this
      ensures Valid()
      ensures roomState == OnVotingScaleUpdated(old(roomState), cfg, cards, ps)
      ensures toasts == old(toasts) + [Toast(now, if message != "" then message else DefaultScaleNotice, Info)]
      ensures currentView == old(currentView) && userName == old(userName) && session == old(session)
      ensures isCreator == old(isCreator) && isSpectator == old(isSpectator)
      ensures targetRoomIdFromUrl == old(targetRoomIdFromUrl)
    {
      roomState := OnVotingScaleUpdated(roomState, cfg, cards, ps);
      ReplacingReducers(old(roomState), cfg, cards, ps, None, false);
      toasts := toasts + [Toast(now, if message != "" then message else DefaultScaleNotice, Info)];
    }

    /** participantVoted, with the corrected reducer. */
    method HandleParticipantVoted(participantId: string, hasVoted: bool)
      requires Valid()
      modifies this
      ensures Valid()
      ensures roomState == OnParticipantVoted(old(roomState), participantId, hasVoted)
      ensures currentView == old(currentView) && userName == old(userName) && session == old(session)
      ensures isCreator == old(isCreator) && isSpectator == old(isSpectator)
      ensures targetRoomIdFromUrl == old(targetRoomIdFromUrl)
      ensures toasts == old(toasts)
    {
      roomState := OnParticipantVoted(roomState, participantId, hasVoted);
    }

    /** participantVotedRealTime */
    method HandleParticipantVotedRealTime(participantId: string, hasVoted: bool, voteValue: string)
      requires Valid()
      modifies this
      ensures Valid()
      ensures Next(roomState) == OnParticipantVotedRealTime(old(roomState), participantId, hasVoted, voteValue)
      ensures currentView == old(currentView) && userName == old(userName) && session == old(session)
      ensures isCreator == old(isCreator) && isSpectator == old(isSpectator)
      ensures targetRoomIdFromUrl == old(targetRoomIdFromUrl)
      ensures toasts == old(toasts)
    {
      RealTimeOnWellShaped(roomState, participantId, hasVoted, voteValue);
      roomState := OnParticipantVotedRealTime(roomState, participantId, hasVoted, voteValue).state;
    }

    /** votesRevealed */
    method HandleVotesRevealed(ps: seq<Participant>, stats: Option<Statistics>)
      requires Valid()
      modifies this
      ensures Valid()
      ensures roomState == OnVotesRevealed(old(roomState), ps, stats)
      ensures currentView == old(currentView) && userName == old(userName) && session == old(session)
      ensures isCreator == old(isCreator) && isSpectator == old(isSpectator)
      ensures targetRoomIdFromUrl == old(targetRoomIdFromUrl)
      ensures toasts == old(toasts)
    {
      roomState := OnVotesRevealed(roomState, ps, stats);
    }

    /** votingReset */
    method HandleVotingReset(ps: seq<Participant>, votesRevealed: bool, stats: Option<Statistics>)
      requires Valid()
      modifies this
      ensures Valid()
      ensures roomState == OnVotingReset(old(roomState), ps, votesRevealed, stats)
      ensures currentView == old(currentView) && userName == old(userName) && session == old(session)
      ensures isCreator == old(isCreator) && isSpectator == old(isSpectator)
      ensures targetRoomIdFromUrl == old(targetRoomIdFromUrl)
      ensures toasts == old(toasts)
    {
      roomState := OnVotingReset(roomState, ps, votesRevealed, stats);
    }

    /**
     * participantUpdated: a missing payload is ignored. The own spectator
     * flag follows the payload when it is about this socket and there is a
     * participant list; a missing flag reads as false. Others' changes are
     * announced.
     */
    method HandleParticipantUpdated(patch: Option<ParticipantPatch>, socketId: Option<string>, now: int)
      requires Valid()
      modifies this
      ensures Valid()
      ensures patch.None? ==> roomState == old(roomState) && toasts == old(toasts) && isSpectator == old(isSpectator)
      ensures patch.Some? ==> roomState == OnParticipantUpdated(old(roomState), patch.value)
      ensures patch.Some? ==>
                isSpectator == if Some(patch.value.id) == socketId && old(roomState).Some? && old(roomState).value.participants.Some?
                               then patch.value.isSpectator == Some(true) else old(isSpectator)
      ensures patch.Some? ==>
                toasts == old(toasts) + if Some(patch.value.id) == socketId then [] else [Toast(now, SpectatorNotice(patch.value), Info)]
      ensures currentView == old(currentView) && userName == old(userName) && session == old(session)
      ensures isCreator == old(isCreator) && targetRoomIdFromUrl == old(targetRoomIdFromUrl)
    {
      if patch.None? {
        return;
      }
      var updated := patch.value;
      if roomState.Some? && roomState.value.participants.Some? && Some(updated.id) == socketId {
        isSpectator := updated.isSpectator == Some(true);
      }
      roomState := OnParticipantUpdated(roomState, updated);
      if Some(updated.id) != socketId {
        toasts := toasts + [Toast(now, SpectatorNotice(updated), Info)];
      }
    }
  }

  /** The notice of another participant's change; a missing name prints as "undefined". */
  function SpectatorNotice(patch: ParticipantPatch): string
  {
    "User " + (if patch.name.Some? then patch.name.value else "undefined") + " " +
    (if patch.isSpectator == Some(true) then "is now a spectator." else "is no longer a spectator.")
  }
}
