/**
 * Participant records as the room store keeps them and as the server sends
 * them to clients, with the lookups (`find`, `findIndex`) that every store
 * operation uses.
 */
module Participants {
  import opened Wrappers

  /** `{ id, name, currentVote, hasVoted, isSpectator }`; `id` is the socket id. */
  datatype Participant = Participant(
    id: string,
    name: string,
    currentVote: Option<string>,
    hasVoted: bool,
    isSpectator: bool)

  /** Some entry of `ps` has identity `id`. */
  predicate HasId(ps: seq<Participant>, id: string)
  {
    exists j :: 0 <= j < |ps| && ps[j].id == id
  }

  /** No two entries share an identity. */
  ghost predicate UniqueIds(ps: seq<Participant>)
  {
    forall i, j :: 0 <= i < j < |ps| ==> ps[i].id != ps[j].id
  }

  /** `ps.findIndex(p => p.id === id)`, with -1 as None: the first entry with that id. */
  function FindIndex(ps: seq<Participant>, id: string): (r: Option<nat>)
    ensures r.None? <==> !HasId(ps, id)
    ensures r.Some? ==> r.value < |ps| && ps[r.value].id == id
    ensures r.Some? ==> forall j :: 0 <= j < r.value ==> ps[j].id != id
  {
    if ps == [] then None
    else if ps[0].id == id then Some(0)
    else match FindIndex(ps[1..], id)
      case None => None
      case Some(k) => Some(k + 1)
  }

  /** With unique identities the entry found is the only one with that id. */
  lemma FoundIsOnly(ps: seq<Participant>, id: string, j: nat)
    requires UniqueIds(ps)
    requires j < |ps| && ps[j].id == id
    ensures FindIndex(ps, id) == Some(j)
  {
  }

  /** The vote is held by the participant exactly when it is flagged as cast. */
  predicate VoteFlagsAgree(p: Participant)
  {
    p.hasVoted <==> p.currentVote.Some?
  }

  /** A participant with its vote withdrawn: `currentVote = null; hasVoted = false`. */
  function WithoutVote(p: Participant): (q: Participant)
    ensures q.id == p.id && q.name == p.name && q.isSpectator == p.isSpectator
    ensures q.currentVote.None? && !q.hasVoted
  {
    p.(currentVote := None, hasVoted := false)
  }

  /** Every participant with its vote withdrawn, order and identities kept. */
  function ClearedVotes(ps: seq<Participant>): (r: seq<Participant>)
  {
    seq(|ps|, i requires 0 <= i < |ps| => WithoutVote(ps[i]))
  }

  /**
   * The `participants.forEach(p => { p.currentVote = null; p.hasVoted = false; })`
   * loop of resetVoting and updateVotingScale.
   */
  method ClearAllVotes(ps: seq<Participant>) returns (r: seq<Participant>)
    ensures |r| == |ps|
    ensures forall i :: 0 <= i < |ps| ==>
              r[i].id == ps[i].id && r[i].name == ps[i].name && r[i].isSpectator == ps[i].isSpectator
    ensures forall i :: 0 <= i < |r| ==> r[i].currentVote.None? && !r[i].hasVoted
    ensures r == ClearedVotes(ps)
  {
    r := ps;
    var i := 0;
    while i < |r|
      invariant 0 <= i <= |r| == |ps|
      invariant forall k :: 0 <= k < i ==> r[k] == WithoutVote(ps[k])
      invariant forall k :: i <= k < |r| ==> r[k] == ps[k]
    {
      r := r[i := r[i].(currentVote := None, hasVoted := false)];
      i := i + 1;
    }
  }
}
