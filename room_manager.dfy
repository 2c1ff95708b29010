/**
 * The server's room store (roomManager.js): a table of rooms keyed by room
 * id, each holding its participants, creator, resolved voting scale, round
 * flag and last statistics. Every operation is a pure function on one room
 * (its specification) and a method of RoomStore that performs it on the
 * table in place.
 */
module RoomManager {
  import opened Wrappers
  import opened VotingScale
  import opened Participants
  import opened Statistics

  // The error messages of roomManager.js, word for word.
  const RoomNotFound: string := "Room not found"                  // joinRoom, updateVotingScale
  const RoomNotFoundDot: string := "Room not found."              // submitVote, revealVotes, resetVoting, toggleSpectatorMode
  const ParticipantOrRoomNotFound: string := "Participant or room not found"
  const ParticipantNotFound: string := "Participant not found."
  const SpectatorsCannotVote: string := "Spectators cannot vote."
  const VotingEnded: string := "Voting has ended for this round. Please reset to vote again."
  const InvalidVoteValue: string := "Invalid vote value."
  const OnlyCreatorCanReset: string := "Only the room creator can reset voting."
  const OnlyCreatorCanReveal: string := "Only the room creator can reveal votes."
  const OnlyCreatorCanChangeScale: string := "Only the room creator can change the voting scale."
  const EmptyScale: string := "Voting scale cannot be empty."

  /**
   * One room. `votesRevealed` is None until the first reveal, reset or scale
   * change: createRoom initialises a field called `revealed` instead, so the
   * round flag starts out absent, which every reader treats as false.
   * `statistics` is None while absent or null.
   */
  datatype Room = Room(
    id: string,
    creatorId: string,
    participants: seq<Participant>,
    votesRevealed: Option<bool>,
    votingScaleConfig: ResolvedScale,
    votingCards: seq<string>,
    statistics: Option<Statistics>)

  /** The truthiness test `if (room.votesRevealed)`. */
  predicate IsRevealed(room: Room)
  {
    room.votesRevealed == Some(true)
  }

  /** What every participant entry of a room satisfies. */
  ghost predicate ParticipantOk(cards: seq<string>, p: Participant)
  {
    && VoteFlagsAgree(p)
    && (p.isSpectator ==> p.currentVote.None?)
    && (p.currentVote.Some? ==> p.currentVote.value in cards)
  }

  /**
   * The room invariant: a room is never empty, its creator is one of its
   * participants, identities are unique, the cards are the resolved scale's
   * values, `hasVoted` agrees with `currentVote`, spectators hold no vote and
   * every vote held is one of the room's cards.
   */
  ghost predicate RoomInvariant(room: Room)
  {
    && |room.participants| > 0
    && HasId(room.participants, room.creatorId)
    && UniqueIds(room.participants)
    && room.votingCards == room.votingScaleConfig.currentValues
    && forall i :: 0 <= i < |room.participants| ==> ParticipantOk(room.votingCards, room.participants[i])
  }

  // ---------------------------------------------------------------------
  // Operations on one room, as specifications.
  // ---------------------------------------------------------------------

  /** A fresh participant as joinRoom and createRoom push it. */
  function Newcomer(id: string, name: string): Participant
  {
    Participant(id, name, None, false, false)
  }

  /** The room createRoom stores under `roomId`. */
  function NewRoom(roomId: string, creatorName: string, creatorSocketId: string, cfg: Option<ScaleConfig>): Room
  {
    var resolved := ResolveVotingScale(cfg);
    Room(roomId, creatorSocketId, [Newcomer(creatorSocketId, creatorName)], None,
         resolved, resolved.currentValues, None)
  }

  /**
   * joinRoom on an existing room: a known identity only has its name
   * refreshed; an unknown one is appended as a non-spectator without a vote.
   */
  function Join(room: Room, userName: string, userSocketId: string): Room
  {
    match FindIndex(room.participants, userSocketId)
    case Some(i) =>
      room.(participants := room.participants[i := room.participants[i].(name := userName)])
    case None =>
      room.(participants := room.participants + [Newcomer(userSocketId, userName)])
  }

  /** What removeParticipant finds in one room. */
  datatype Removal =
    | NotPresent
    | Emptied
    | Remaining(room: Room, removedParticipantName: string)

  /**
   * removeParticipant on an existing room: the entry is spliced out; a
   * departing creator hands the room to the first remaining participant; a
   * room left empty is to be deleted.
   */
  function Remove(room: Room, userSocketId: string): Removal
  {
    match FindIndex(room.participants, userSocketId)
    case None => NotPresent
    case Some(i) =>
      var removed := room.participants[i];
      var rest := room.participants[..i] + room.participants[i + 1..];
      var creator := if room.creatorId == userSocketId && |rest| > 0 then rest[0].id else room.creatorId;
      if |rest| == 0 then Emptied
      else Remaining(room.(participants := rest, creatorId := creator), removed.name)
  }

  /** resetVoting on an existing room. */
  function Reset(room: Room, userId: string): Result<Room>
  {
    if room.creatorId != userId then Err(OnlyCreatorCanReset)
    else Ok(room.(participants := ClearedVotes(room.participants), votesRevealed := Some(false), statistics := None))
  }

  /** revealVotes on an existing room. */
  function Reveal(room: Room, userId: string): Result<Room>
  {
    if room.creatorId != userId then Err(OnlyCreatorCanReveal)
    else Ok(room.(votesRevealed := Some(true), statistics := Some(StatisticsOf(room.participants))))
  }

  /**
   * updateVotingScale on an existing room. The statistics of a revealed
   * round are left in place, as the source does.
   */
  function UpdateScale(room: Room, userId: string, cfg: Option<ScaleConfig>): Result<Room>
  {
    if room.creatorId != userId then Err(OnlyCreatorCanChangeScale)
    else
      var resolved := ResolveVotingScale(cfg);
      if |resolved.currentValues| == 0 then Err(EmptyScale)
      else Ok(room.(votingScaleConfig := resolved, votingCards := resolved.currentValues,
                    participants := ClearedVotes(room.participants), votesRevealed := Some(false)))
  }

  /** submitVote on an existing room, its guards in the source's order. */
  function Vote(room: Room, userId: string, voteValue: string): Result<Room>
  {
    match FindIndex(room.participants, userId)
    case None => Err(ParticipantNotFound)
    case Some(i) =>
      var p := room.participants[i];
      if p.isSpectator then Err(SpectatorsCannotVote)
      else if IsRevealed(room) then Err(VotingEnded)
      else if voteValue !in room.votingCards then Err(InvalidVoteValue)
      else Ok(room.(participants := room.participants[i := p.(currentVote := Some(voteValue), hasVoted := true)]))
  }

  /** The participant a toggle turns `p` into. */
  function Toggled(p: Participant): Participant
  {
    var flipped := p.(isSpectator := !p.isSpectator);
    if flipped.isSpectator then WithoutVote(flipped) else flipped
  }

  /** toggleSpectatorMode on an existing room. */
  function ToggleSpectator(room: Room, userId: string): Result<Room>
  {
    match FindIndex(room.participants, userId)
    case None => Err(ParticipantNotFound)
    case Some(i) => Ok(room.(participants := room.participants[i := Toggled(room.participants[i])]))
  }

  // ---------------------------------------------------------------------
  // Properties of the operations.
  // ---------------------------------------------------------------------

  /** createRoom seeds exactly the creator, who is no spectator and holds no vote. */
  lemma NewRoomProperties(roomId: string, creatorName: string, creatorSocketId: string, cfg: Option<ScaleConfig>)
    ensures var room := NewRoom(roomId, creatorName, creatorSocketId, cfg);
            && room.id == roomId
            && room.creatorId == creatorSocketId
            && |room.participants| == 1
            && room.participants[0].id == creatorSocketId
            && room.participants[0].name == creatorName
            && !room.participants[0].isSpectator
            && room.participants[0].currentVote.None? && !room.participants[0].hasVoted
            && !IsRevealed(room) && room.statistics.None?
            && room.votingCards == ResolveVotingScale(cfg).currentValues
            && RoomInvariant(room)
  {
  }

  /**
   * A join never adds a second entry for a known identity: only that entry's
   * name changes, its vote and spectator flag are kept. A new identity is
   * appended at the end as a non-spectator without a vote. Nothing else in
   * the room changes and the invariant is kept.
   */
  lemma JoinProperties(room: Room, userName: string, userSocketId: string)
    requires RoomInvariant(room)
    ensures var r := Join(room, userName, userSocketId);
            var ps, ps' := room.participants, r.participants;
            && r.(participants := ps) == room
            && (HasId(ps, userSocketId) ==>
                  && |ps'| == |ps|
                  && forall k :: 0 <= k < |ps| ==>
                       ps'[k] == if ps[k].id == userSocketId then ps[k].(name := userName) else ps[k])
            && (!HasId(ps, userSocketId) ==> ps' == ps + [Newcomer(userSocketId, userName)])
            && RoomInvariant(r)
  {
    var r := Join(room, userName, userSocketId);
    var ps, ps' := room.participants, r.participants;
    if HasId(ps, userSocketId) {
      var i := FindIndex(ps, userSocketId).value;
      forall k | 0 <= k < |ps| && ps[k].id == userSocketId
        ensures k == i
      {
        FoundIsOnly(ps, userSocketId, k);
      }
      assert ps'[i].id == ps[i].id;
      assert HasId(ps', r.creatorId) by {
        var c :| 0 <= c < |ps| && ps[c].id == room.creatorId;
        assert ps'[c].id == room.creatorId;
      }
    } else {
      assert HasId(ps', r.creatorId) by {
        var c :| 0 <= c < |ps| && ps[c].id == room.creatorId;
        assert ps'[c].id == room.creatorId;
      }
    }
  }

  /** Joining twice with the same identity and name is the same as joining once. */
  lemma JoinIdempotent(room: Room, userName: string, userSocketId: string)
    ensures var once := Join(room, userName, userSocketId);
            Join(once, userName, userSocketId) == once
  {
    var ps := room.participants;
    var once := Join(room, userName, userSocketId);
    match FindIndex(ps, userSocketId)
    case Some(i) =>
      FindAfterSameIdUpdate(ps, userSocketId, i, ps[i].(name := userName));
    case None =>
      var ps' := ps + [Newcomer(userSocketId, userName)];
      assert FindIndex(ps', userSocketId) == Some(|ps|) by {
        assert ps'[|ps|].id == userSocketId;
      }
  }

  /** Overwriting the entry found with one of the same identity leaves it found at the same place. */
  lemma FindAfterSameIdUpdate(ps: seq<Participant>, id: string, i: nat, q: Participant)
    requires FindIndex(ps, id) == Some(i)
    requires q.id == id
    ensures FindIndex(ps[i := q], id) == Some(i)
  {
    assert ps[i := q][i].id == id;
  }

  /**
   * Splicing out the entry found for `id` leaves every other entry, in order,
   * and no entry of that identity.
   */
  lemma SpliceFacts(ps: seq<Participant>, id: string, i: nat)
    requires UniqueIds(ps)
    requires FindIndex(ps, id) == Some(i)
    ensures var rest := ps[..i] + ps[i + 1..];
            && |rest| == |ps| - 1
            && (forall k :: 0 <= k < i ==> rest[k] == ps[k])
            && (forall k :: i <= k < |rest| ==> rest[k] == ps[k + 1])
            && !HasId(rest, id)
            && UniqueIds(rest)
            && (forall c :: 0 <= c < |ps| && ps[c].id != id ==> HasId(rest, ps[c].id))
  {
    var rest := ps[..i] + ps[i + 1..];
    assert forall k :: 0 <= k < i ==> rest[k] == ps[k];
    assert forall k :: i <= k < |rest| ==> rest[k] == ps[k + 1];
    forall c | 0 <= c < |ps| && ps[c].id != id
      ensures HasId(rest, ps[c].id)
    {
      if c < i {
        assert rest[c].id == ps[c].id;
      } else {
        assert c != i;
        assert rest[c - 1].id == ps[c].id;
      }
    }
    forall k | 0 <= k < |rest|
      ensures rest[k].id != id
    {
      if k < i {
        assert rest[k] == ps[k];
      } else {
        assert rest[k] == ps[k + 1] && ps[i].id != ps[k + 1].id;
      }
    }
  }

  /**
   * Removal takes out exactly the entry of that identity. A departing
   * creator is replaced by the earliest remaining participant; the room is
   * emptied exactly when the departing participant was the only one; an
   * absent identity is reported. The invariant is kept.
   */
  lemma RemoveProperties(room: Room, userSocketId: string)
    requires RoomInvariant(room)
    ensures var ps := room.participants;
            var r := Remove(room, userSocketId);
            && (r.NotPresent? <==> !HasId(ps, userSocketId))
            && (r.Emptied? <==> |ps| == 1 && ps[0].id == userSocketId)
            && (r.Remaining? ==>
                  && (exists i :: 0 <= i < |ps| && ps[i].id == userSocketId
                        && r.room.participants == ps[..i] + ps[i + 1..]
                        && r.removedParticipantName == ps[i].name)
                  && !HasId(r.room.participants, userSocketId)
                  && |r.room.participants| == |ps| - 1
                  && r.room.creatorId ==
                       (if room.creatorId == userSocketId then r.room.participants[0].id else room.creatorId)
                  && r.room.(participants := ps, creatorId := room.creatorId) == room
                  && RoomInvariant(r.room))
  {
    var ps := room.participants;
    match FindIndex(ps, userSocketId)
    case None =>
    case Some(i) =>
      SpliceFacts(ps, userSocketId, i);
      var rest := ps[..i] + ps[i + 1..];
      if |ps| == 1 {
        assert ps[0].id == userSocketId;
      }
      if |rest| > 0 {
        var r := Remove(room, userSocketId);
        assert r.room.participants == rest;
        assert forall k :: 0 <= k < |rest| ==> ParticipantOk(room.votingCards, rest[k]) by {
          forall k | 0 <= k < |rest|
            ensures ParticipantOk(room.votingCards, rest[k])
          {
            if k < i {
              assert rest[k] == ps[k];
            } else {
              assert rest[k] == ps[k + 1];
            }
          }
        }
        if room.creatorId == userSocketId {
          assert rest[0].id == r.room.creatorId;
        }
        assert HasId(rest, r.room.creatorId);
      }
  }

  /** A vote is refused, in this order, for an unknown participant, a spectator, a revealed round or a token off the scale. */
  lemma VoteProperties(room: Room, userId: string, voteValue: string)
    requires RoomInvariant(room)
    ensures var ps := room.participants;
            var r := Vote(room, userId, voteValue);
            && (!HasId(ps, userId) ==> r == Err(ParticipantNotFound))
            && (forall i :: 0 <= i < |ps| && ps[i].id == userId ==>
                  && (ps[i].isSpectator ==> r == Err(SpectatorsCannotVote))
                  && (!ps[i].isSpectator && IsRevealed(room) ==> r == Err(VotingEnded))
                  && (!ps[i].isSpectator && !IsRevealed(room) && voteValue !in room.votingCards ==> r == Err(InvalidVoteValue))
                  && (!ps[i].isSpectator && !IsRevealed(room) && voteValue in room.votingCards ==>
                        && r.Ok?
                        && r.value.(participants := ps) == room
                        && |r.value.participants| == |ps|
                        && r.value.participants[i] == ps[i].(currentVote := Some(voteValue), hasVoted := true)
                        && (forall k :: 0 <= k < |ps| && k != i ==> r.value.participants[k] == ps[k])))
            && (r.Ok? ==> RoomInvariant(r.value))
  {
    var ps := room.participants;
    forall i | 0 <= i < |ps| && ps[i].id == userId
      ensures FindIndex(ps, userId) == Some(i)
    {
      FoundIsOnly(ps, userId, i);
    }
    var r := Vote(room, userId, voteValue);
    if r.Ok? {
      var i := FindIndex(ps, userId).value;
      var ps' := r.value.participants;
      assert HasId(ps', room.creatorId) by {
        var c :| 0 <= c < |ps| && ps[c].id == room.creatorId;
        assert ps'[c].id == room.creatorId;
      }
    }
  }

  /** Reset, by the creator only, withdraws every vote, closes the round and drops the statistics. */
  lemma ResetProperties(room: Room, userId: string)
    requires RoomInvariant(room)
    ensures var r := Reset(room, userId);
            && (room.creatorId != userId <==> r == Err(OnlyCreatorCanReset))
            && (r.Ok? ==>
                  && r.value.votesRevealed == Some(false) && r.value.statistics.None?
                  && |r.value.participants| == |room.participants|
                  && (forall k :: 0 <= k < |room.participants| ==>
                        r.value.participants[k] == WithoutVote(room.participants[k]))
                  && r.value.(participants := room.participants, votesRevealed := room.votesRevealed,
                              statistics := room.statistics) == room
                  && RoomInvariant(r.value))
  {
    var r := Reset(room, userId);
    if r.Ok? {
      ClearedVotesKeepsInvariant(room, r.value);
    }
  }

  /** Withdrawing every vote keeps identities, so the creator and uniqueness survive. */
  lemma ClearedVotesKeepsInvariant(room: Room, room': Room)
    requires RoomInvariant(room)
    requires room'.participants == ClearedVotes(room.participants)
    requires room'.creatorId == room.creatorId
    requires room'.votingCards == room'.votingScaleConfig.currentValues
    ensures RoomInvariant(room')
  {
    var ps, ps' := room.participants, room'.participants;
    assert HasId(ps', room.creatorId) by {
      var c :| 0 <= c < |ps| && ps[c].id == room.creatorId;
      assert ps'[c].id == room.creatorId;
    }
  }

  /** Reveal, by the creator only, opens the round's votes and stores the statistics of the current votes. */
  lemma RevealProperties(room: Room, userId: string)
    requires RoomInvariant(room)
    ensures var r := Reveal(room, userId);
            && (room.creatorId != userId <==> r == Err(OnlyCreatorCanReveal))
            && (r.Ok? ==>
                  && IsRevealed(r.value)
                  && r.value.statistics == Some(StatisticsOf(room.participants))
                  && r.value.participants == room.participants
                  && RoomInvariant(r.value))
  {
  }

  /**
   * A scale change, by the creator only, is refused when the configuration
   * resolves to no token; otherwise it installs the resolved scale, withdraws
   * every vote and closes the round, leaving the statistics as they were.
   */
  lemma UpdateScaleProperties(room: Room, userId: string, cfg: Option<ScaleConfig>)
    requires RoomInvariant(room)
    ensures var r := UpdateScale(room, userId, cfg);
            && (room.creatorId != userId ==> r == Err(OnlyCreatorCanChangeScale))
            && (room.creatorId == userId && ResolveVotingScale(cfg).currentValues == [] ==> r == Err(EmptyScale))
            && (r.Ok? <==> room.creatorId == userId && ResolveVotingScale(cfg).currentValues != [])
            && (r.Ok? ==>
                  && r.value.votingScaleConfig == ResolveVotingScale(cfg)
                  && r.value.votingCards == ResolveVotingScale(cfg).currentValues
                  && !IsRevealed(r.value)
                  && r.value.statistics == room.statistics
                  && |r.value.participants| == |room.participants|
                  && (forall k :: 0 <= k < |room.participants| ==>
                        r.value.participants[k] == WithoutVote(room.participants[k]))
                  && RoomInvariant(r.value))
  {
    var r := UpdateScale(room, userId, cfg);
    if r.Ok? {
      ClearedVotesKeepsInvariant(room, r.value);
    }
  }

  /**
   * Toggling flips the participant's spectator flag and nothing else of the
   * room, except that becoming a spectator withdraws the vote.
   */
  lemma ToggleProperties(room: Room, userId: string)
    requires RoomInvariant(room)
    ensures var ps := room.participants;
            var r := ToggleSpectator(room, userId);
            && (r.Err? <==> !HasId(ps, userId))
            && (r.Err? ==> r.message == ParticipantNotFound)
            && (forall i :: 0 <= i < |ps| && ps[i].id == userId ==>
                  && r.Ok?
                  && r.value.(participants := ps) == room
                  && |r.value.participants| == |ps|
                  && r.value.participants[i].isSpectator == !ps[i].isSpectator
                  && r.value.participants[i].id == ps[i].id
                  && r.value.participants[i].name == ps[i].name
                  && (r.value.participants[i].isSpectator ==>
                        r.value.participants[i].currentVote.None? && !r.value.participants[i].hasVoted)
                  && (!r.value.participants[i].isSpectator ==>
                        r.value.participants[i].currentVote == ps[i].currentVote)
                  && (forall k :: 0 <= k < |ps| && k != i ==> r.value.participants[k] == ps[k]))
            && (r.Ok? ==> RoomInvariant(r.value))
  {
    var ps := room.participants;
    forall i | 0 <= i < |ps| && ps[i].id == userId
      ensures FindIndex(ps, userId) == Some(i)
    {
      FoundIsOnly(ps, userId, i);
    }
    var r := ToggleSpectator(room, userId);
    if r.Ok? {
      var ps' := r.value.participants;
      assert HasId(ps', room.creatorId) by {
        var c :| 0 <= c < |ps| && ps[c].id == room.creatorId;
        assert ps'[c].id == room.creatorId;
      }
    }
  }

  /** Toggling twice restores the spectator flag; a voter who did so comes back without a vote. */
  lemma ToggleTwice(room: Room, userId: string)
    requires RoomInvariant(room)
    requires HasId(room.participants, userId)
    ensures var once := ToggleSpectator(room, userId);
            && once.Ok?
            && var twice := ToggleSpectator(once.value, userId);
            && twice.Ok?
            && |twice.value.participants| == |room.participants|
            && forall k :: 0 <= k < |room.participants| ==>
                 && twice.value.participants[k].isSpectator == room.participants[k].isSpectator
                 && twice.value.participants[k].id == room.participants[k].id
                 && (room.participants[k].id == userId ==> twice.value.participants[k].currentVote.None?)
                 && (room.participants[k].id != userId ==> twice.value.participants[k] == room.participants[k])
  {
    var ps := room.participants;
    var i := FindIndex(ps, userId).value;
    FindAfterSameIdUpdate(ps, userId, i, Toggled(ps[i]));
    forall k | 0 <= k < |ps| && ps[k].id == userId
      ensures k == i
    {
      FoundIsOnly(ps, userId, k);
    }
  }

  /**
   * The round flag and the statistics are not kept in step: after a reveal a
   * scale change closes the round but the statistics of the revealed round
   * stay stored.
   */
  lemma ScaleChangeKeepsStatistics(room: Room, cfg: Option<ScaleConfig>)
    requires RoomInvariant(room)
    requires ResolveVotingScale(cfg).currentValues != []
    ensures var revealed := Reveal(room, room.creatorId).value;
            var changed := UpdateScale(revealed, room.creatorId, cfg);
            && changed.Ok?
            && !IsRevealed(changed.value)
            && changed.value.statistics == Some(StatisticsOf(room.participants))
  {
  }

  // ---------------------------------------------------------------------
  // The room table.
  // ---------------------------------------------------------------------

  /** What removeParticipant returns. */
  datatype RemoveResult =
    | Removed(room: Room, removedParticipantName: string)
    | RoomDeleted
    | RemoveFailed(message: string)

  /** The module-level `rooms` table and the functions that change it. */
  class RoomStore {
    var rooms: map<string, Room>

    /** Every stored room is filed under its own id and keeps the room invariant. */
    ghost predicate Valid()
      reads this
    {
      forall k :: k in rooms ==> rooms[k].id == k && RoomInvariant(rooms[k])
    }

    constructor ()
      ensures Valid() && rooms == map[]
    {
      rooms := map[];
    }

    /** getRoom */
    method GetRoom(roomId: string) returns (r: Option<Room>)
      ensures r.Some? <==> roomId in rooms
      ensures r.Some? ==> r.value == rooms[roomId]
    {
      r := if roomId in rooms then Some(rooms[roomId]) else None;
    }

    /**
     * createRoom. The id comes from generateRoomId, a random draw, and is a
     * parameter here; as in the source, an id already in use is overwritten.
     */
    method CreateRoom(creatorName: string, creatorSocketId: string, votingScaleConfig: Option<ScaleConfig>, roomId: string)
      returns (room: Room)
      requires Valid()
      modifies this
      ensures Valid()
      ensures room == NewRoom(roomId, creatorName, creatorSocketId, votingScaleConfig)
      ensures rooms == old(rooms)[roomId := room]
    {
      var resolvedScale := ResolveVotingScale(votingScaleConfig);
      room := Room(roomId, creatorSocketId, [Newcomer(creatorSocketId, creatorName)], None,
                   resolvedScale, resolvedScale.currentValues, None);
      rooms := rooms[roomId := room];
      NewRoomProperties(roomId, creatorName, creatorSocketId, votingScaleConfig);
    }

    /** joinRoom */
    method JoinRoom(roomId: string, userName: string, userSocketId: string) returns (r: Result<Room>)
      requires Valid()
      modifies this
      ensures Valid()
      ensures roomId !in old(rooms) ==> r == Err(RoomNotFound) && rooms == old(rooms)
      ensures roomId in old(rooms) ==>
                && r == Ok(Join(old(rooms)[roomId], userName, userSocketId))
                && rooms == old(rooms)[roomId := r.value]
    {
      if roomId !in rooms {
        return Err(RoomNotFound);
      }
      var room := rooms[roomId];
      JoinProperties(room, userName, userSocketId);
      var existing := FindIndex(room.participants, userSocketId);
      if existing.Some? {
        var p := room.participants[existing.value];
        room := room.(participants := room.participants[existing.value := p.(name := userName)]);
      } else {
        room := room.(participants := room.participants + [Newcomer(userSocketId, userName)]);
      }
      rooms := rooms[roomId := room];
      r := Ok(room);
    }

    /** removeParticipant */
    method RemoveParticipant(roomId: string, userSocketId: string) returns (r: RemoveResult)
      requires Valid()
      modifies this
      ensures Valid()
      ensures roomId !in old(rooms) ==> r == RemoveFailed(ParticipantOrRoomNotFound) && rooms == old(rooms)
      ensures roomId in old(rooms) ==>
                match Remove(old(rooms)[roomId], userSocketId)
                case NotPresent => r == RemoveFailed(ParticipantOrRoomNotFound) && rooms == old(rooms)
                case Emptied => r == RoomDeleted && rooms == old(rooms) - {roomId}
                case Remaining(room, name) => r == Removed(room, name) && rooms == old(rooms)[roomId := room]
    {
      if roomId !in rooms {
        return RemoveFailed(ParticipantOrRoomNotFound);
      }
      var room := rooms[roomId];
      RemoveProperties(room, userSocketId);
      var index := FindIndex(room.participants, userSocketId);
      if index.None? {
        return RemoveFailed(ParticipantOrRoomNotFound);
      }
      var i := index.value;
      var removedParticipant := room.participants[i];
      room := room.(participants := room.participants[..i] + room.participants[i + 1..]);
      if room.creatorId == userSocketId && |room.participants| > 0 {
        room := room.(creatorId := room.participants[0].id);
      }
      if |room.participants| == 0 {
        rooms := rooms - {roomId};
        return RoomDeleted;
      }
      rooms := rooms[roomId := room];
      r := Removed(room, removedParticipant.name);
    }

    /** resetVoting */
    method ResetVoting(roomId: string, userId: string) returns (r: Result<Room>)
      requires Valid()
      modifies this
      ensures Valid()
      ensures roomId !in old(rooms) ==> r == Err(RoomNotFoundDot) && rooms == old(rooms)
      ensures roomId in old(rooms) ==>
                && r == Reset(old(rooms)[roomId], userId)
                && rooms == if r.Ok? then old(rooms)[roomId := r.value] else old(rooms)
    {
      if roomId !in rooms {
        return Err(RoomNotFoundDot);
      }
      var room := rooms[roomId];
      if room.creatorId != userId {
        return Err(OnlyCreatorCanReset);
      }
      ResetProperties(room, userId);
      var cleared := ClearAllVotes(room.participants);
      room := room.(participants := cleared, votesRevealed := Some(false), statistics := None);
      rooms := rooms[roomId := room];
      r := Ok(room);
    }

    /** revealVotes */
    method RevealVotes(roomId: string, userId: string) returns (r: Result<Room>)
      requires Valid()
      modifies this
      ensures Valid()
      ensures roomId !in old(rooms) ==> r == Err(RoomNotFoundDot) && rooms == old(rooms)
      ensures roomId in old(rooms) ==>
                && r == Reveal(old(rooms)[roomId], userId)
                && rooms == if r.Ok? then old(rooms)[roomId := r.value] else old(rooms)
    {
      if roomId !in rooms {
        return Err(RoomNotFoundDot);
      }
      var room := rooms[roomId];
      if room.creatorId != userId {
        return Err(OnlyCreatorCanReveal);
      }
      RevealProperties(room, userId);
      var stats := CalculateStatistics(room.participants);
      room := room.(votesRevealed := Some(true), statistics := Some(stats));
      rooms := rooms[roomId := room];
      r := Ok(room);
    }

    /** updateVotingScale */
    method UpdateVotingScale(roomId: string, userId: string, newScaleConfig: Option<ScaleConfig>) returns (r: Result<Room>)
      requires Valid()
      modifies this
      ensures Valid()
      ensures roomId !in old(rooms) ==> r == Err(RoomNotFound) && rooms == old(rooms)
      ensures roomId in old(rooms) ==>
                && r == UpdateScale(old(rooms)[roomId], userId, newScaleConfig)
                && rooms == if r.Ok? then old(rooms)[roomId := r.value] else old(rooms)
    {
      if roomId !in rooms {
        return Err(RoomNotFound);
      }
      var room := rooms[roomId];
      if room.creatorId != userId {
        return Err(OnlyCreatorCanChangeScale);
      }
      var resolvedScale := ResolveVotingScale(newScaleConfig);
      if |resolvedScale.currentValues| == 0 {
        return Err(EmptyScale);
      }
      UpdateScaleProperties(room, userId, newScaleConfig);
      var cleared := ClearAllVotes(room.participants);
      room := room.(votingScaleConfig := resolvedScale, votingCards := resolvedScale.currentValues,
                    participants := cleared, votesRevealed := Some(false));
      rooms := rooms[roomId := room];
      r := Ok(room);
    }

    /** submitVote */
    method SubmitVote(roomId: string, userId: string, voteValue: string) returns (r: Result<Room>)
      requires Valid()
      modifies this
      ensures Valid()
      ensures roomId !in old(rooms) ==> r == Err(RoomNotFoundDot) && rooms == old(rooms)
      ensures roomId in old(rooms) ==>
                && r == Vote(old(rooms)[roomId], userId, voteValue)
                && rooms == if r.Ok? then old(rooms)[roomId := r.value] else old(rooms)
    {
      if roomId !in rooms {
        return Err(RoomNotFoundDot);
      }
      var room := rooms[roomId];
      VoteProperties(room, userId, voteValue);
      var found := FindIndex(room.participants, userId);
      if found.None? {
        return Err(ParticipantNotFound);
      }
      var participant := room.participants[found.value];
      if participant.isSpectator {
        return Err(SpectatorsCannotVote);
      }
      if IsRevealed(room) {
        return Err(VotingEnded);
      }
      if voteValue !in room.votingCards {
        return Err(InvalidVoteValue);
      }
      participant := participant.(currentVote := Some(voteValue), hasVoted := true);
      room := room.(participants := room.participants[found.value := participant]);
      rooms := rooms[roomId := room];
      r := Ok(room);
    }

    /** toggleSpectatorMode: on success, the participant as it now is. */
    method ToggleSpectatorMode(roomId: string, userId: string) returns (r: Result<Participant>)
      requires Valid()
      modifies this
      ensures Valid()
      ensures roomId !in old(rooms) ==> r == Err(RoomNotFoundDot) && rooms == old(rooms)
      ensures roomId in old(rooms) ==>
                var t := ToggleSpectator(old(rooms)[roomId], userId);
                && (t.Err? ==> r == Err(t.message) && rooms == old(rooms))
                && (t.Ok? ==>
                      && rooms == old(rooms)[roomId := t.value]
                      && r.Ok? && r.value.id == userId
                      && r.value == t.value.participants[FindIndex(old(rooms)[roomId].participants, userId).value])
    {
      if roomId !in rooms {
        return Err(RoomNotFoundDot);
      }
      var room := rooms[roomId];
      ToggleProperties(room, userId);
      var found := FindIndex(room.participants, userId);
      if found.None? {
        return Err(ParticipantNotFound);
      }
      var participant := room.participants[found.value];
      participant := participant.(isSpectator := !participant.isSpectator);
      if participant.isSpectator {
        participant := participant.(currentVote := None, hasVoted := false);
      }
      room := room.(participants := room.participants[found.value := participant]);
      rooms := rooms[roomId := room];
      r := Ok(participant);
    }
  }
}
