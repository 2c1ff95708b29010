/**
 * The room screen (Room.js): its copy of the participant list kept up to
 * date by participantJoined and participantLeft, the guards in front of a
 * vote and of a scale change, and the values derived for display.
 */
module RoomView {
  import opened Wrappers
  import opened VotingScale
  import opened Participants
  import opened Statistics
  import opened RoomManager
  import opened App
  import JsText

  // ---------------------------------------------------------------------
  // The participant reducers.
  // ---------------------------------------------------------------------

  /**
   * participantJoined: for the current room only, appends the newcomer
   * unless an entry with its id is already there.
   */
  function OnParticipantJoined(ps: seq<Participant>, participant: Participant, eventRoomId: string, currentRoomId: string)
    : (r: seq<Participant>)
  {
    if eventRoomId != currentRoomId || HasId(ps, participant.id) then ps else ps + [participant]
  }

  /** `ps.filter(p => p.id !== userId)` */
  function WithoutId(ps: seq<Participant>, userId: string): seq<Participant>
  {
    if ps == [] then []
    else (if ps[0].id == userId then [] else [ps[0]]) + WithoutId(ps[1..], userId)
  }

  /** participantLeft: for the current room only, drops the leaver's entries and live vote. */
  function OnParticipantLeft(ps: seq<Participant>, liveVotes: map<string, string>, userId: string,
                             eventRoomId: string, currentRoomId: string): (seq<Participant>, map<string, string>)
  {
    if eventRoomId != currentRoomId then (ps, liveVotes) else (WithoutId(ps, userId), liveVotes - {userId})
  }

  /**
   * participantJoined ignores other rooms, never duplicates an id, appends
   * at the end otherwise, keeps ids unique, and is idempotent, so a listener
   * registered twice does no harm.
   */
  lemma ParticipantJoinedProperties(ps: seq<Participant>, participant: Participant, eventRoomId: string, currentRoomId: string)
    ensures var r := OnParticipantJoined(ps, participant, eventRoomId, currentRoomId);
            && (eventRoomId != currentRoomId ==> r == ps)
            && (eventRoomId == currentRoomId && HasId(ps, participant.id) ==> r == ps)
            && (eventRoomId == currentRoomId && !HasId(ps, participant.id) ==> r == ps + [participant])
            && (eventRoomId == currentRoomId ==> HasId(r, participant.id))
            && (UniqueIds(ps) ==> UniqueIds(r))
            && OnParticipantJoined(r, participant, eventRoomId, currentRoomId) == r
  {
    var r := OnParticipantJoined(ps, participant, eventRoomId, currentRoomId);
    if eventRoomId == currentRoomId && !HasId(ps, participant.id) {
      assert r[|ps|] == participant;
    }
  }

  /** The filter keeps exactly the entries with another id; without such an entry it changes nothing. */
  lemma {:induction false} WithoutIdMembers(ps: seq<Participant>, userId: string)
    ensures var r := WithoutId(ps, userId);
            && (forall p :: p in r <==> p in ps && p.id != userId)
            && !HasId(r, userId)
            && |r| <= |ps|
            && (!HasId(ps, userId) ==> r == ps)
  {
    if ps != [] {
      WithoutIdMembers(ps[1..], userId);
      assert ps == [ps[0]] + ps[1..];
      assert forall p :: p in ps <==> p == ps[0] || p in ps[1..];
      if !HasId(ps, userId) {
        assert !HasId(ps[1..], userId) by {
          forall k | 0 <= k < |ps[1..]| ensures ps[1..][k].id != userId {
            assert ps[1..][k] == ps[k + 1];
          }
        }
      }
    }
  }

  /** Ids are unique in a list with a head exactly when the tail has them unique and lacks the head's id. */
  lemma ConsUnique(p: Participant, ps: seq<Participant>)
    ensures UniqueIds([p] + ps) <==> UniqueIds(ps) && !HasId(ps, p.id)
  {
    var l := [p] + ps;
    if UniqueIds(ps) && !HasId(ps, p.id) {
      forall i, j | 0 <= i < j < |l| ensures l[i].id != l[j].id {
        assert l[j] == ps[j - 1];
        if i > 0 {
          assert l[i] == ps[i - 1];
        }
      }
    }
    if UniqueIds(l) {
      forall i, j | 0 <= i < j < |ps| ensures ps[i].id != ps[j].id {
        assert l[i + 1] == ps[i] && l[j + 1] == ps[j];
      }
      forall k | 0 <= k < |ps| ensures ps[k].id != p.id {
        assert l[0] == p && l[k + 1] == ps[k];
      }
    }
  }

  /** The filter keeps ids unique, and with unique ids it removes one entry when the id is present. */
  lemma {:induction false} WithoutIdUnique(ps: seq<Participant>, userId: string)
    requires UniqueIds(ps)
    ensures UniqueIds(WithoutId(ps, userId))
    ensures HasId(ps, userId) ==> |WithoutId(ps, userId)| == |ps| - 1
  {
    if ps != [] {
      assert ps == [ps[0]] + ps[1..];
      ConsUnique(ps[0], ps[1..]);
      WithoutIdUnique(ps[1..], userId);
      WithoutIdMembers(ps[1..], userId);
      var rest := WithoutId(ps[1..], userId);
      if ps[0].id != userId {
        ConsUnique(ps[0], rest);
        if HasId(ps, userId) {
          var k :| 0 <= k < |ps| && ps[k].id == userId;
          assert ps[1..][k - 1] == ps[k];
        }
      }
    }
  }

  /** participantLeft ignores other rooms and otherwise forgets the leaver, entry and live vote. */
  lemma ParticipantLeftProperties(ps: seq<Participant>, liveVotes: map<string, string>, userId: string,
                                  eventRoomId: string, currentRoomId: string)
    ensures var (r, votes) := OnParticipantLeft(ps, liveVotes, userId, eventRoomId, currentRoomId);
            && (eventRoomId != currentRoomId ==> r == ps && votes == liveVotes)
            && (eventRoomId == currentRoomId ==>
                  && (forall p :: p in r <==> p in ps && p.id != userId)
                  && !HasId(r, userId)
                  && userId !in votes
                  && (forall k :: k in votes <==> k in liveVotes && k != userId)
                  && (forall k :: k in votes ==> votes[k] == liveVotes[k]))
            && OnParticipantLeft(r, votes, userId, eventRoomId, currentRoomId) == (r, votes)
  {
    WithoutIdMembers(ps, userId);
    WithoutIdMembers(WithoutId(ps, userId), userId);
    assert liveVotes - {userId} - {userId} == liveVotes - {userId};
  }

  // ---------------------------------------------------------------------
  // Derived values.
  // ---------------------------------------------------------------------

  /** `participants.filter(p => p.hasVoted).length` */
  function VotedCount(ps: seq<Participant>): (n: nat)
    ensures n <= |ps|
  {
    if ps == [] then 0 else (if ps[0].hasVoted then 1 else 0) + VotedCount(ps[1..])
  }

  /** The count is zero exactly when nobody has voted, and the full length exactly when everybody has. */
  lemma {:induction false} VotedCountExtremes(ps: seq<Participant>)
    ensures VotedCount(ps) == 0 <==> forall i :: 0 <= i < |ps| ==> !ps[i].hasVoted
    ensures VotedCount(ps) == |ps| <==> forall i :: 0 <= i < |ps| ==> ps[i].hasVoted
  {
    if ps != [] {
      VotedCountExtremes(ps[1..]);
      assert forall i :: 1 <= i < |ps| ==> ps[i] == ps[1..][i - 1];
    }
  }

  /** Changing one entry changes the count by the change in that entry's flag. */
  lemma {:induction false} VotedCountUpdate(ps: seq<Participant>, i: nat, p: Participant)
    requires i < |ps|
    ensures VotedCount(ps[i := p]) + (if ps[i].hasVoted then 1 else 0) == VotedCount(ps) + (if p.hasVoted then 1 else 0)
  {
    if i > 0 {
      VotedCountUpdate(ps[1..], i - 1, p);
      assert ps[i := p][1..] == ps[1..][i - 1 := p];
    } else {
      assert ps[i := p][1..] == ps[1..];
    }
  }

  /**
   * Where every entry's flag agrees with its vote, as the room store keeps
   * it, the count shown equals the number of votes the statistics count.
   */
  lemma {:induction false} VotedCountIsTotalVotes(ps: seq<Participant>)
    requires forall i :: 0 <= i < |ps| ==> VoteFlagsAgree(ps[i])
    ensures VotedCount(ps) == StatisticsOf(ps).totalVotes
  {
    if ps != [] {
      var init := ps[..|ps| - 1];
      VotedCountIsTotalVotes(init);
      VotedCountSnoc(init, ps[|ps| - 1]);
      assert init + [ps[|ps| - 1]] == ps;
    }
  }

  /** Appending an entry adds its flag to the count. */
  lemma {:induction false} VotedCountSnoc(ps: seq<Participant>, p: Participant)
    ensures VotedCount(ps + [p]) == VotedCount(ps) + (if p.hasVoted then 1 else 0)
  {
    if ps != [] {
      VotedCountSnoc(ps[1..], p);
      assert (ps + [p])[1..] == ps[1..] + [p];
    }
  }

  /**
   * Against the room store: an accepted vote adds one to the voted count
   * unless the voter had already voted; a reset brings the count to zero.
   */
  lemma VotedCountFollowsStore(room: Room, userId: string, voteValue: string)
    requires RoomInvariant(room)
    ensures Vote(room, userId, voteValue).Ok? ==>
              exists i :: 0 <= i < |room.participants| && room.participants[i].id == userId &&
                VotedCount(Vote(room, userId, voteValue).value.participants) ==
                VotedCount(room.participants) + (if room.participants[i].hasVoted then 0 else 1)
    ensures Reset(room, userId).Ok? ==> VotedCount(Reset(room, userId).value.participants) == 0
  {
    var ps := room.participants;
    VoteProperties(room, userId, voteValue);
    ResetProperties(room, userId);
    if Vote(room, userId, voteValue).Ok? {
      var i :| 0 <= i < |ps| && ps[i].id == userId;
      var p' := ps[i].(currentVote := Some(voteValue), hasVoted := true);
      assert Vote(room, userId, voteValue).value.participants == ps[i := p'];
      VotedCountUpdate(ps, i, p');
    }
    if Reset(room, userId).Ok? {
      VotedCountExtremes(Reset(room, userId).value.participants);
    }
  }

  /**
   * `participants.filter(p => p.currentVote === cardValue).map(p => p.name)`,
   * or nothing before the votes are revealed.
   */
  function NamesForCard(votesRevealed: bool, ps: seq<Participant>, card: string): seq<string>
  {
    if !votesRevealed || ps == [] then []
    else
      var last := ps[|ps| - 1];
      NamesForCard(votesRevealed, ps[..|ps| - 1], card) + (if last.currentVote == Some(card) then [last.name] else [])
  }

  /** Names are shown only once votes are revealed; then they are exactly the names of the card's voters. */
  lemma {:induction false} NamesForCardMembers(votesRevealed: bool, ps: seq<Participant>, card: string)
    ensures !votesRevealed ==> NamesForCard(votesRevealed, ps, card) == []
    ensures votesRevealed ==>
              forall x :: x in NamesForCard(votesRevealed, ps, card) <==>
                exists i :: 0 <= i < |ps| && ps[i].currentVote == Some(card) && ps[i].name == x
  {
    if votesRevealed && ps != [] {
      var init := ps[..|ps| - 1];
      NamesForCardMembers(votesRevealed, init, card);
      assert forall i :: 0 <= i < |init| ==> init[i] == ps[i];
    }
  }

  /** The number of names on a revealed card is the count the statistics give that card. */
  lemma {:induction false} NamesForCardCount(ps: seq<Participant>, card: string)
    ensures |NamesForCard(true, ps, card)| == CountIn(StatisticsOf(ps).voteDistribution, card)
  {
    TallyCounts(CastVotes(ps));
    NamesMatchCastVotes(ps, card);
  }

  /** The names on a card are as many as the occurrences of the card among the cast votes. */
  lemma {:induction false} NamesMatchCastVotes(ps: seq<Participant>, card: string)
    ensures |NamesForCard(true, ps, card)| == multiset(CastVotes(ps))[card]
  {
    if ps != [] {
      NamesMatchCastVotes(ps[..|ps| - 1], card);
    }
  }

  /** The reveal button's `disabled`: loading, or no participant has voted. */
  predicate RevealDisabled(isLoadingReveal: bool, ps: seq<Participant>)
  {
    isLoadingReveal || forall i :: 0 <= i < |ps| ==> !ps[i].hasVoted
  }

  /** The reveal button is enabled exactly when it is not loading and the voted count is positive. */
  lemma RevealEnabledIff(isLoadingReveal: bool, ps: seq<Participant>)
    ensures !RevealDisabled(isLoadingReveal, ps) <==> !isLoadingReveal && VotedCount(ps) > 0
  {
    VotedCountExtremes(ps);
  }

  // ---------------------------------------------------------------------
  // The scale change request.
  // ---------------------------------------------------------------------

  /** JavaScript's `v.trim() !== ''`. */
  predicate NotBlank(v: string)
  {
    JsText.Trim(v) != ""
  }

  /** `values.filter(v => v.trim() !== '')` */
  function NonBlank(vs: seq<string>): (r: seq<string>)
  {
    if vs == [] then []
    else (if NotBlank(vs[0]) then [vs[0]] else []) + NonBlank(vs[1..])
  }

  /** The filter keeps, unchanged and in order, exactly the values that are not all whitespace. */
  lemma {:induction false} NonBlankProperties(vs: seq<string>)
    ensures forall v :: v in NonBlank(vs) <==> v in vs && !JsText.AllWhitespace(v)
    ensures |NonBlank(vs)| <= |vs|
    ensures (forall v :: v in vs ==> !JsText.AllWhitespace(v)) ==> NonBlank(vs) == vs
  {
    if vs != [] {
      NonBlankProperties(vs[1..]);
      JsText.TrimCharacterized(vs[0]);
      assert vs == [vs[0]] + vs[1..];
      assert forall v :: v in vs <==> v == vs[0] || v in vs[1..];
    }
  }

  /**
   * The filter keeps order: filtering a list made of two parts gives the
   * survivors of the first part followed by those of the second.
   */
  lemma {:induction false} NonBlankKeepsOrder(a: seq<string>, b: seq<string>)
    ensures NonBlank(a + b) == NonBlank(a) + NonBlank(b)
  {
    if a != [] {
      NonBlankKeepsOrder(a[1..], b);
      assert (a + b)[1..] == a[1..] + b;
    } else {
      assert a + b == b;
    }
  }

  /** What handleScaleChangeByCreator does with a scale choice. */
  datatype ScaleRequest = Send(config: ScaleConfig) | RejectBlank

  const BlankScaleError: string := "Custom voting scale must have at least one value."

  /** A custom scale loses its blank values and is refused when none remain; other choices pass unchanged. */
  function PrepareScaleRequest(cfg: ScaleConfig): (r: ScaleRequest)
  {
    match cfg
    case Custom(values) =>
      var kept := NonBlank(if values.Some? then values.value else []);
      if kept == [] then RejectBlank else Send(Custom(Some(kept)))
    case _ => Send(cfg)
  }

  /**
   * A custom scale is refused exactly when all its values are blank; what is
   * sent is never refused by the server as empty, and a custom scale sent
   * carries no blank value.
   */
  lemma PrepareScaleRequestProperties(cfg: ScaleConfig)
    ensures var r := PrepareScaleRequest(cfg);
            && (r == RejectBlank <==>
                  cfg.Custom? && forall v :: v in (if cfg.values.Some? then cfg.values.value else []) ==> JsText.AllWhitespace(v))
            && (!cfg.Custom? ==> r == Send(cfg))
            && (r.Send? ==> ResolveVotingScale(Some(r.config)).currentValues != [])
            && (r.Send? && r.config.Custom? ==>
                  && r.config.values.Some?
                  && forall v :: v in r.config.values.value ==> v in cfg.values.value && !JsText.AllWhitespace(v))
  {
    if cfg.Custom? {
      var vs := if cfg.values.Some? then cfg.values.value else [];
      NonBlankProperties(vs);
      if NonBlank(vs) != [] {
        assert NonBlank(vs)[0] in NonBlank(vs);
      }
    }
    if PrepareScaleRequest(cfg).Send? {
      ResolvedNonEmptyUnlessCustom(Some(PrepareScaleRequest(cfg).config));
    }
  }

  // ---------------------------------------------------------------------
  // The room screen's state.
  // ---------------------------------------------------------------------

  /** The answer a vote, reveal, reset or scale request gets. */
  datatype Ack = AckOk | AckFailed(message: string)

  /** `response.message || 'Unknown error'` */
  function FailureText(message: string): string
  {
    if message != "" then message else "Unknown error"
  }

  /** Room's own state: its copy of the participants and the flags behind its guards. */
  class RoomScreen {
    const currentRoomId: string
    var participants: seq<Participant>
    var creatorLiveVotes: map<string, string>
    var votesRevealed: bool
    var isCurrentUserSpectator: bool
    var isLoadingVote: bool
    var isLoadingScaleUpdate: bool
    var selectedVote: Option<string>
    var toasts: seq<Toast>

    /** The list never holds two entries with one id. */
    ghost predicate Valid()
      reads this
    {
      UniqueIds(participants)
    }

    /** The screen as it is first drawn from App's room state. */
    constructor (roomId: string, ps: seq<Participant>, revealed: bool, liveVotes: map<string, string>, spectator: bool)
      requires UniqueIds(ps)
      ensures Valid()
      ensures currentRoomId == roomId && participants == ps && votesRevealed == revealed
      ensures creatorLiveVotes == liveVotes && isCurrentUserSpectator == spectator
      ensures !isLoadingVote && !isLoadingScaleUpdate && selectedVote.None? && toasts == []
    {
      currentRoomId := roomId;
      participants := ps;
      votesRevealed := revealed;
      creatorLiveVotes := liveVotes;
      isCurrentUserSpectator := spectator;
      isLoadingVote := false;
      isLoadingScaleUpdate := false;
      selectedVote := None;
      toasts := [];
    }

    method HandleParticipantJoined(participant: Participant, eventRoomId: string)
      requires Valid()
      modifies this
      ensures Valid()
      ensures participants == OnParticipantJoined(old(participants), participant, eventRoomId, currentRoomId)
      ensures creatorLiveVotes == old(creatorLiveVotes) && votesRevealed == old(votesRevealed)
      ensures isLoadingVote == old(isLoadingVote) && isCurrentUserSpectator == old(isCurrentUserSpectator)
      ensures isLoadingScaleUpdate == old(isLoadingScaleUpdate) && selectedVote == old(selectedVote) && toasts == old(toasts)
    {
      ParticipantJoinedProperties(participants, participant, eventRoomId, currentRoomId);
      participants := OnParticipantJoined(participants, participant, eventRoomId, currentRoomId);
    }

    method HandleParticipantLeft(userId: string, eventRoomId: string)
      requires Valid()
      modifies this
      ensures Valid()
      ensures (participants, creatorLiveVotes) ==
              OnParticipantLeft(old(participants), old(creatorLiveVotes), userId, eventRoomId, currentRoomId)
      ensures votesRevealed == old(votesRevealed) && isLoadingVote == old(isLoadingVote)
      ensures isCurrentUserSpectator == old(isCurrentUserSpectator)
      ensures isLoadingScaleUpdate == old(isLoadingScaleUpdate) && selectedVote == old(selectedVote) && toasts == old(toasts)
    {
      WithoutIdUnique(participants, userId);
      var next := OnParticipantLeft(participants, creatorLiveVotes, userId, eventRoomId, currentRoomId);
      participants := next.0;
      creatorLiveVotes := next.1;
    }

    /**
     * handleCardClick: nothing is sent once votes are revealed, while a vote
     * is in flight, or by a spectator; otherwise the vote goes out and the
     * screen waits for its answer.
     */
    method HandleCardClick(value: string) returns (sent: bool)
      requires Valid()
      modifies this
      ensures Valid()
      ensures sent <==> !old(votesRevealed) && !old(isLoadingVote) && !old(isCurrentUserSpectator)
      ensures isLoadingVote == (old(isLoadingVote) || sent)
      ensures participants == old(participants) && votesRevealed == old(votesRevealed)
      ensures selectedVote == old(selectedVote) && toasts == old(toasts)
      ensures isCurrentUserSpectator == old(isCurrentUserSpectator) && isLoadingScaleUpdate == old(isLoadingScaleUpdate)
      ensures creatorLiveVotes == old(creatorLiveVotes)
    {
      if votesRevealed || isLoadingVote || isCurrentUserSpectator {
        return false;
      }
      isLoadingVote := true;
      sent := true;
    }

    /** The answer to a vote: the card is selected only when the vote was accepted. */
    method OnVoteResponse(value: string, response: Ack, now: int)
      requires Valid()
      modifies this
      ensures Valid()
      ensures !isLoadingVote
      ensures response.AckOk? ==>
                selectedVote == Some(value) && toasts == old(toasts) + [Toast(now, "Vote '" + value + "' submitted!", Success)]
      ensures response.AckFailed? ==>
                selectedVote == old(selectedVote)
                && toasts == old(toasts) + [Toast(now, "Vote failed: " + FailureText(response.message), Error)]
      ensures participants == old(participants) && votesRevealed == old(votesRevealed)
      ensures creatorLiveVotes == old(creatorLiveVotes) && isCurrentUserSpectator == old(isCurrentUserSpectator)
      ensures isLoadingScaleUpdate == old(isLoadingScaleUpdate)
    {
      isLoadingVote := false;
      match response {
        case AckOk =>
          toasts := toasts + [Toast(now, "Vote '" + value + "' submitted!", Success)];
          selectedVote := Some(value);
        case AckFailed(message) =>
          toasts := toasts + [Toast(now, "Vote failed: " + FailureText(message), Error)];
      }
    }

    /**
     * handleScaleChangeByCreator: ignored while a change is in flight; a
     * custom scale with only blank values is refused on the spot with a
     * toast; otherwise the cleaned choice is sent.
     */
    method HandleScaleChangeByCreator(cfg: ScaleConfig, now: int) returns (sent: Option<ScaleConfig>)
      requires Valid()
      modifies this
      ensures Valid()
      ensures old(isLoadingScaleUpdate) ==> sent.None? && toasts == old(toasts) && isLoadingScaleUpdate
      ensures !old(isLoadingScaleUpdate) && PrepareScaleRequest(cfg) == RejectBlank ==>
                sent.None? && toasts == old(toasts) + [Toast(now, BlankScaleError, Error)] && !isLoadingScaleUpdate
      ensures !old(isLoadingScaleUpdate) && PrepareScaleRequest(cfg).Send? ==>
                sent == Some(PrepareScaleRequest(cfg).config) && toasts == old(toasts) && isLoadingScaleUpdate
      ensures participants == old(participants) && votesRevealed == old(votesRevealed)
      ensures isLoadingVote == old(isLoadingVote) && selectedVote == old(selectedVote)
      ensures creatorLiveVotes == old(creatorLiveVotes) && isCurrentUserSpectator == old(isCurrentUserSpectator)
    {
      if isLoadingScaleUpdate {
        return None;
      }
      var request := PrepareScaleRequest(cfg);
      if request == RejectBlank {
        toasts := toasts + [Toast(now, BlankScaleError, Error)];
        return None;
      }
      isLoadingScaleUpdate := true;
      sent := Some(request.config);
    }

    /** The answer to a scale change. */
    method OnScaleResponse(response: Ack, now: int)
      requires Valid()
      modifies this
      ensures Valid()
      ensures !isLoadingScaleUpdate
      ensures toasts == old(toasts) + [if response.AckOk? then Toast(now, "Voting scale updated!", Success)
                                       else Toast(now, "Scale update failed: " + FailureText(response.message), Error)]
      ensures participants == old(participants) && votesRevealed == old(votesRevealed) && selectedVote == old(selectedVote)
      ensures creatorLiveVotes == old(creatorLiveVotes) && isCurrentUserSpectator == old(isCurrentUserSpectator)
      ensures isLoadingVote == old(isLoadingVote)
    {
      isLoadingScaleUpdate := false;
      if response.AckOk? {
        toasts := toasts + [Toast(now, "Voting scale updated!", Success)];
      } else {
        toasts := toasts + [Toast(now, "Scale update failed: " + FailureText(response.message), Error)];
      }
    }
  }
}
