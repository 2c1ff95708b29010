/**
 * The socket event handlers of server.js. socket.io itself is abstract: the
 * rooms each socket has joined are a table of sequences in join order, and
 * every emit is appended to an outbox as a (target, event) pair.
 */
module Server {
  import opened Wrappers
  import opened VotingScale
  import opened Participants
  import opened Statistics
  import opened RoomManager

  // The handlers' own failure messages.
  const CreateFailed: string := "Failed to create room"
  const NotCurrentlyInRoom: string := "You are not currently in a room."   // updateVotingScale
  const NotInRoom: string := "Not in a room."                              // submitVote, revealVotes, resetVoting
  const DefaultScaleChanger: string := "The room creator"

  /** Who receives an emit. */
  datatype Target =
    | ToRoom(room: string)                                // io.to(room): every socket in the room
    | ToRoomExceptSender(room: string, sender: string)    // socket.to(room): every socket but the sender

  /** The events the server emits, with their payloads. */
  datatype Event =
    | ParticipantJoined(participant: Option<Participant>, roomId: string)
    | ParticipantLeft(userId: string, roomId: string, participantName: string)
    | VotingScaleUpdated(votingScaleConfig: ResolvedScale, votingCards: seq<string>,
                         participants: seq<Participant>, message: string)
    | ParticipantVoted(participantId: string, hasVoted: bool)
    | ParticipantVotedRealTime(participantId: string, hasVoted: bool, voteValue: string)
    | VotesRevealed(participants: seq<Participant>, statistics: Option<Statistics>)
    | VotingReset(participants: seq<Participant>, votesRevealed: bool, statistics: Option<Statistics>)

  datatype Emission = Emission(target: Target, event: Event)

  /** The acknowledgement passed to a handler's callback. */
  datatype Reply =
    | Created(roomId: string, room: Room)
    | Joined(room: Room)
    | ScaleUpdated(room: Room)
    | VoteAccepted
    | Revealed(statistics: Option<Statistics>)
    | ResetDone
    | Failed(message: string)

  /** JavaScript truthiness of a string. */
  predicate Truthy(s: string)
  {
    s != ""
  }

  /**
   * `Array.from(socket.rooms).find(r => r !== socket.id)`: the earliest room
   * joined other than the socket's own room, if any.
   */
  function CurrentRoom(joined: seq<string>): (r: Option<string>)
    ensures r.None? <==> joined == []
    ensures r.Some? ==> r.value == joined[0]
  {
    if joined == [] then None else Some(joined[0])
  }

  /** socket.join(roomId): a set, so a room already joined (or the socket's own) is not added again. */
  function JoinedAfter(joined: seq<string>, sid: string, roomId: string): (r: seq<string>)
    ensures roomId != sid ==> roomId in r
    ensures forall x :: x in joined ==> x in r
    ensures forall x :: x in r ==> x in joined || x == roomId
    ensures joined != [] ==> r != [] && r[0] == joined[0]
  {
    if roomId == sid || roomId in joined then joined else joined + [roomId]
  }

  /** `room.participants.find(p => p.id === id)`. */
  function FindParticipant(ps: seq<Participant>, id: string): (r: Option<Participant>)
    ensures r.None? <==> !HasId(ps, id)
    ensures r.Some? ==> r.value.id == id && r.value in ps
  {
    match FindIndex(ps, id)
    case None => None
    case Some(i) => Some(ps[i])
  }

  /** The notice of a scale change: it names the socket's mapped room id, not a person. */
  function ScaleMessage(socketRoomMap: map<string, string>, sid: string): string
  {
    var who := if sid in socketRoomMap && Truthy(socketRoomMap[sid]) then socketRoomMap[sid] else DefaultScaleChanger;
    who + " changed the voting scale."
  }

  /** What a successful join emits: the joiner's entry, to everyone else in the room. */
  function JoinEmissions(roomId: string, sid: string, room: Room): seq<Emission>
  {
    [Emission(ToRoomExceptSender(roomId, sid), ParticipantJoined(FindParticipant(room.participants, sid), roomId))]
  }

  /** What a disconnect emits after the store's answer to removeParticipant. */
  function DisconnectEmissions(roomId: string, sid: string, result: RemoveResult): seq<Emission>
  {
    if result.Removed? && Truthy(result.removedParticipantName) then
      [Emission(ToRoomExceptSender(roomId, sid), ParticipantLeft(sid, roomId, result.removedParticipantName))]
    else []
  }

  /** What a successful vote emits: a room-wide notice, and the value to the creator alone. */
  function VoteEmissions(roomId: string, sid: string, room: Room, voteValue: string): seq<Emission>
  {
    [Emission(ToRoom(roomId), ParticipantVoted(sid, true))]
    + if room.creatorId != sid && FindParticipant(room.participants, room.creatorId).Some? then
        [Emission(ToRoom(room.creatorId), ParticipantVotedRealTime(sid, true, voteValue))]
      else []
  }

  function ScaleEmissions(roomId: string, room: Room, message: string): seq<Emission>
  {
    [Emission(ToRoom(roomId), VotingScaleUpdated(room.votingScaleConfig, room.votingCards, room.participants, message))]
  }

  function RevealEmissions(roomId: string, room: Room): seq<Emission>
  {
    [Emission(ToRoom(roomId), VotesRevealed(room.participants, room.statistics))]
  }

  function ResetEmissions(roomId: string, room: Room): seq<Emission>
  {
    [Emission(ToRoom(roomId), VotingReset(room.participants, false, None))]
  }

  // ---------------------------------------------------------------------
  // Who learns what.
  // ---------------------------------------------------------------------

  /** A successful join announces exactly the joiner, under the name given, to the others. */
  lemma JoinAnnouncesJoiner(room: Room, userName: string, sid: string, roomId: string)
    requires RoomInvariant(room)
    ensures var joined := Join(room, userName, sid);
            var es := JoinEmissions(roomId, sid, joined);
            && |es| == 1
            && es[0].target == ToRoomExceptSender(roomId, sid)
            && es[0].event.participant.Some?
            && es[0].event.participant.value.id == sid
            && es[0].event.participant.value.name == userName
  {
    JoinProperties(room, userName, sid);
    var ps' := Join(room, userName, sid).participants;
    var p := FindParticipant(ps', sid);
    if HasId(room.participants, sid) {
      var i := FindIndex(room.participants, sid).value;
      assert ps'[i].id == sid;
    } else {
      assert ps'[|ps'| - 1].id == sid;
    }
    var k := FindIndex(ps', sid).value;
    assert ps'[k].id == sid;
  }

  /**
   * The vote value leaves the server only towards the creator, and only when
   * the voter is someone else; in a room that keeps its invariant the creator
   * is always present, so that is exactly when the voter is not the creator.
   * Everything sent to the whole room says only who voted.
   */
  lemma VoteValueReachesOnlyCreator(roomId: string, sid: string, room: Room, voteValue: string)
    requires RoomInvariant(room)
    ensures var es := VoteEmissions(roomId, sid, room, voteValue);
            && es[0] == Emission(ToRoom(roomId), ParticipantVoted(sid, true))
            && (forall e :: e in es && e.event.ParticipantVotedRealTime? ==>
                  e.target == ToRoom(room.creatorId) && room.creatorId != sid && e.event.voteValue == voteValue)
            && (forall e :: e in es && e.target == ToRoom(roomId) && roomId != room.creatorId ==>
                  e.event == ParticipantVoted(sid, true))
            && ((exists e :: e in es && e.event.ParticipantVotedRealTime?) <==> room.creatorId != sid)
  {
    var es := VoteEmissions(roomId, sid, room, voteValue);
    if room.creatorId != sid {
      assert es[1].event.ParticipantVotedRealTime?;
    }
  }

  /** A departure is announced only when the room survives and the departing entry has a non-empty name. */
  lemma LeftOnlyWhenRoomSurvives(roomId: string, sid: string, result: RemoveResult)
    ensures var es := DisconnectEmissions(roomId, sid, result);
            && (result.RoomDeleted? || result.RemoveFailed? ==> es == [])
            && (|es| == 1 <==> result.Removed? && result.removedParticipantName != "")
            && (es != [] ==> es[0] == Emission(ToRoomExceptSender(roomId, sid),
                                              ParticipantLeft(sid, roomId, result.removedParticipantName)))
  {
  }

  /** A reset broadcast always says the round is closed and there are no statistics. */
  lemma ResetBroadcastClosesRound(roomId: string, room: Room)
    ensures forall e :: e in ResetEmissions(roomId, room) ==>
              e.target == ToRoom(roomId) && e.event.VotingReset? &&
              !e.event.votesRevealed && e.event.statistics.None?
  {
  }

  /** The scale-change notice names the mapped room id when there is one, the room creator otherwise. */
  lemma ScaleMessageNamesRoomId(socketRoomMap: map<string, string>, sid: string)
    ensures sid in socketRoomMap && socketRoomMap[sid] != "" ==>
              ScaleMessage(socketRoomMap, sid) == socketRoomMap[sid] + " changed the voting scale."
    ensures !(sid in socketRoomMap && socketRoomMap[sid] != "") ==>
              ScaleMessage(socketRoomMap, sid) == "The room creator changed the voting scale."
  {
  }

  // ---------------------------------------------------------------------
  // The connection handlers.
  // ---------------------------------------------------------------------

  class Server {
    const store: RoomStore
    /** socketRoomMap: the room each socket last created or joined. */
    var socketRoomMap: map<string, string>
    /** socket.rooms of each connected socket, without its own room, in join order. */
    var socketRooms: map<string, seq<string>>
    /** Every emit so far, in order. */
    var outbox: seq<Emission>

    ghost predicate Valid()
      reads this, store
    {
      store.Valid()
    }

    constructor (store: RoomStore)
      requires store.Valid()
      ensures Valid()
      ensures this.store == store && socketRoomMap == map[] && socketRooms == map[] && outbox == []
    {
      this.store := store;
      socketRoomMap := map[];
      socketRooms := map[];
      outbox := [];
    }

    /** The rooms `sid` has joined besides its own. */
    function JoinedRooms(sid: string): seq<string>
      reads this
    {
      if sid in socketRooms then socketRooms[sid] else []
    }

    /** The handlers' room lookup, with the `if (!roomId)` test: an empty id counts as none. */
    function HandlerRoom(sid: string): (r: Option<string>)
      reads this
      ensures r.Some? ==> r.value != "" && r == CurrentRoom(JoinedRooms(sid))
      ensures r.None? ==> CurrentRoom(JoinedRooms(sid)).None? || CurrentRoom(JoinedRooms(sid)) == Some("")
    {
      var current := CurrentRoom(JoinedRooms(sid));
      if current.Some? && Truthy(current.value) then current else None
    }

    /** socket.join(roomId) */
    method SocketJoin(sid: string, roomId: string)
      modifies this
      ensures socketRooms == old(socketRooms)[sid := JoinedAfter(old(JoinedRooms(sid)), sid, roomId)]
      ensures socketRoomMap == old(socketRoomMap) && outbox == old(outbox)
    {
      socketRooms := socketRooms[sid := JoinedAfter(JoinedRooms(sid), sid, roomId)];
    }

    /**
     * createRoom. `roomId` is the id generateRoomId drew. The room is stored
     * whatever it is; an empty id is falsy, so the creator then gets a
     * failure and joins nothing.
     */
    method OnCreateRoom(sid: string, creatorName: string, votingScaleConfig: Option<ScaleConfig>, roomId: string)
      returns (reply: Reply)
      requires Valid()
      modifies this, store
      ensures Valid()
      ensures store.rooms == old(store.rooms)[roomId := NewRoom(roomId, creatorName, sid, votingScaleConfig)]
      ensures outbox == old(outbox)
      ensures Truthy(roomId) ==>
                && reply == Created(roomId, NewRoom(roomId, creatorName, sid, votingScaleConfig))
                && socketRoomMap == old(socketRoomMap)[sid := roomId]
                && socketRooms == old(socketRooms)[sid := JoinedAfter(old(JoinedRooms(sid)), sid, roomId)]
      ensures !Truthy(roomId) ==>
                && reply == Failed(CreateFailed)
                && socketRoomMap == old(socketRoomMap) && socketRooms == old(socketRooms)
    {
      var room := store.CreateRoom(creatorName, sid, votingScaleConfig, roomId);
      if Truthy(roomId) {
        SocketJoin(sid, roomId);
        socketRoomMap := socketRoomMap[sid := roomId];
        reply := Created(roomId, room);
      } else {
        reply := Failed(CreateFailed);
      }
    }

    /** joinRoom */
    method OnJoinRoom(sid: string, roomId: string, userName: string) returns (reply: Reply)
      requires Valid()
      modifies this, store
      ensures Valid()
      ensures roomId !in old(store.rooms) ==>
                && reply == Failed(RoomNotFound)
                && store.rooms == old(store.rooms)
                && socketRoomMap == old(socketRoomMap) && socketRooms == old(socketRooms) && outbox == old(outbox)
      ensures roomId in old(store.rooms) ==>
                var room := Join(old(store.rooms)[roomId], userName, sid);
                && reply == Joined(room)
                && store.rooms == old(store.rooms)[roomId := room]
                && socketRoomMap == old(socketRoomMap)[sid := roomId]
                && socketRooms == old(socketRooms)[sid := JoinedAfter(old(JoinedRooms(sid)), sid, roomId)]
                && outbox == old(outbox) + JoinEmissions(roomId, sid, room)
    {
      var result := store.JoinRoom(roomId, userName, sid);
      if result.Err? {
        return Failed(result.message);
      }
      var room := result.value;
      SocketJoin(sid, roomId);
      socketRoomMap := socketRoomMap[sid := roomId];
      reply := Joined(room);
      outbox := outbox + [Emission(ToRoomExceptSender(roomId, sid),
                                   ParticipantJoined(FindParticipant(room.participants, sid), roomId))];
    }

    /**
     * disconnect. socket.io has already taken the socket out of all its rooms
     * when the handler runs. The map entry is looked up, and only a truthy
     * room id leads to a removal and to the entry's deletion.
     */
    method OnDisconnect(sid: string)
      requires Valid()
      modifies this, store
      ensures Valid()
      ensures socketRooms == old(socketRooms) - {sid}
      ensures !(sid in old(socketRoomMap) && Truthy(old(socketRoomMap)[sid])) ==>
                && store.rooms == old(store.rooms)
                && socketRoomMap == old(socketRoomMap) && outbox == old(outbox)
      ensures sid in old(socketRoomMap) && Truthy(old(socketRoomMap)[sid]) ==>
                var roomId := old(socketRoomMap)[sid];
                && socketRoomMap == old(socketRoomMap) - {sid}
                && (roomId !in old(store.rooms) ==> store.rooms == old(store.rooms) && outbox == old(outbox))
                && (roomId in old(store.rooms) ==>
                      match Remove(old(store.rooms)[roomId], sid)
                      case NotPresent => store.rooms == old(store.rooms) && outbox == old(outbox)
                      case Emptied => store.rooms == old(store.rooms) - {roomId} && outbox == old(outbox)
                      case Remaining(room, name) =>
                        && store.rooms == old(store.rooms)[roomId := room]
                        && outbox == old(outbox) + DisconnectEmissions(roomId, sid, Removed(room, name)))
    {
      socketRooms := socketRooms - {sid};
      if sid in socketRoomMap && Truthy(socketRoomMap[sid]) {
        var roomId := socketRoomMap[sid];
        var result := store.RemoveParticipant(roomId, sid);
        socketRoomMap := socketRoomMap - {sid};
        if result.Removed? && Truthy(result.removedParticipantName) {
          outbox := outbox + [Emission(ToRoomExceptSender(roomId, sid),
                                       ParticipantLeft(sid, roomId, result.removedParticipantName))];
        }
      }
    }

    /** updateVotingScale */
    method OnUpdateVotingScale(sid: string, newScaleConfig: Option<ScaleConfig>) returns (reply: Reply)
      requires Valid()
      modifies this, store
      ensures Valid()
      ensures socketRoomMap == old(socketRoomMap) && socketRooms == old(socketRooms)
      ensures old(HandlerRoom(sid)).None? ==>
                reply == Failed(NotCurrentlyInRoom) && store.rooms == old(store.rooms) && outbox == old(outbox)
      ensures reply.Failed? ==> store.rooms == old(store.rooms) && outbox == old(outbox)
      ensures old(HandlerRoom(sid)).Some? ==>
                var roomId := old(HandlerRoom(sid)).value;
                && (roomId !in old(store.rooms) ==> reply == Failed(RoomNotFound))
                && (roomId in old(store.rooms) ==>
                      var r := UpdateScale(old(store.rooms)[roomId], sid, newScaleConfig);
                      && (r.Err? ==> reply == Failed(r.message))
                      && (r.Ok? ==>
                            && reply == ScaleUpdated(r.value)
                            && store.rooms == old(store.rooms)[roomId := r.value]
                            && outbox == old(outbox) + ScaleEmissions(roomId, r.value, ScaleMessage(socketRoomMap, sid))))
    {
      var currentRoomId := HandlerRoom(sid);
      if currentRoomId.None? {
        return Failed(NotCurrentlyInRoom);
      }
      var result := store.UpdateVotingScale(currentRoomId.value, sid, newScaleConfig);
      if result.Err? {
        return Failed(result.message);
      }
      var room := result.value;
      outbox := outbox + [Emission(ToRoom(currentRoomId.value),
                                   VotingScaleUpdated(room.votingScaleConfig, room.votingCards, room.participants,
                                                      ScaleMessage(socketRoomMap, sid)))];
      reply := ScaleUpdated(room);
    }

    /** submitVote */
    method OnSubmitVote(sid: string, voteValue: string) returns (reply: Reply)
      requires Valid()
      modifies this, store
      ensures Valid()
      ensures socketRoomMap == old(socketRoomMap) && socketRooms == old(socketRooms)
      ensures old(HandlerRoom(sid)).None? ==>
                reply == Failed(NotInRoom) && store.rooms == old(store.rooms) && outbox == old(outbox)
      ensures reply.Failed? ==> store.rooms == old(store.rooms) && outbox == old(outbox)
      ensures old(HandlerRoom(sid)).Some? ==>
                var roomId := old(HandlerRoom(sid)).value;
                && (roomId !in old(store.rooms) ==> reply == Failed(RoomNotFoundDot))
                && (roomId in old(store.rooms) ==>
                      var r := Vote(old(store.rooms)[roomId], sid, voteValue);
                      && (r.Err? ==> reply == Failed(r.message))
                      && (r.Ok? ==>
                            && reply == VoteAccepted
                            && store.rooms == old(store.rooms)[roomId := r.value]
                            && outbox == old(outbox) + VoteEmissions(roomId, sid, r.value, voteValue)))
    {
      var roomId := HandlerRoom(sid);
      if roomId.None? {
        return Failed(NotInRoom);
      }
      var result := store.SubmitVote(roomId.value, sid, voteValue);
      if result.Err? {
        return Failed(result.message);
      }
      reply := VoteAccepted;
      // The room is read back from the store; it is the one just updated.
      var room := store.rooms[roomId.value];
      outbox := outbox + [Emission(ToRoom(roomId.value), ParticipantVoted(sid, true))];
      if room.creatorId != sid && FindParticipant(room.participants, room.creatorId).Some? {
        outbox := outbox + [Emission(ToRoom(room.creatorId), ParticipantVotedRealTime(sid, true, voteValue))];
      }
    }

    /** revealVotes */
    method OnRevealVotes(sid: string) returns (reply: Reply)
      requires Valid()
      modifies this, store
      ensures Valid()
      ensures socketRoomMap == old(socketRoomMap) && socketRooms == old(socketRooms)
      ensures old(HandlerRoom(sid)).None? ==>
                reply == Failed(NotInRoom) && store.rooms == old(store.rooms) && outbox == old(outbox)
      ensures reply.Failed? ==> store.rooms == old(store.rooms) && outbox == old(outbox)
      ensures old(HandlerRoom(sid)).Some? ==>
                var roomId := old(HandlerRoom(sid)).value;
                && (roomId !in old(store.rooms) ==> reply == Failed(RoomNotFoundDot))
                && (roomId in old(store.rooms) ==>
                      var r := Reveal(old(store.rooms)[roomId], sid);
                      && (r.Err? ==> reply == Failed(r.message))
                      && (r.Ok? ==>
                            && reply == Revealed(r.value.statistics)
                            && store.rooms == old(store.rooms)[roomId := r.value]
                            && outbox == old(outbox) + RevealEmissions(roomId, r.value)))
    {
      var roomId := HandlerRoom(sid);
      if roomId.None? {
        return Failed(NotInRoom);
      }
      var result := store.RevealVotes(roomId.value, sid);
      if result.Err? {
        return Failed(result.message);
      }
      outbox := outbox + [Emission(ToRoom(roomId.value), VotesRevealed(result.value.participants, result.value.statistics))];
      reply := Revealed(result.value.statistics);
    }

    /** resetVoting */
    method OnResetVoting(sid: string) returns (reply: Reply)
      requires Valid()
      modifies this, store
      ensures Valid()
      ensures socketRoomMap == old(socketRoomMap) && socketRooms == old(socketRooms)
      ensures old(HandlerRoom(sid)).None? ==>
                reply == Failed(NotInRoom) && store.rooms == old(store.rooms) && outbox == old(outbox)
      ensures reply.Failed? ==> store.rooms == old(store.rooms) && outbox == old(outbox)
      ensures old(HandlerRoom(sid)).Some? ==>
                var roomId := old(HandlerRoom(sid)).value;
                && (roomId !in old(store.rooms) ==> reply == Failed(RoomNotFoundDot))
                && (roomId in old(store.rooms) ==>
                      var r := Reset(old(store.rooms)[roomId], sid);
                      && (r.Err? ==> reply == Failed(r.message))
                      && (r.Ok? ==>
                            && reply == ResetDone
                            && store.rooms == old(store.rooms)[roomId := r.value]
                            && outbox == old(outbox) + ResetEmissions(roomId, r.value)))
    {
      var roomId := HandlerRoom(sid);
      if roomId.None? {
        return Failed(NotInRoom);
      }
      var result := store.ResetVoting(roomId.value, sid);
      if result.Err? {
        return Failed(result.message);
      }
      outbox := outbox + [Emission(ToRoom(roomId.value), VotingReset(result.value.participants, false, None))];
      reply := ResetDone;
    }
  }
}
