/**
 * calculateStatistics (roomManager.js, lines 137-179), restricted to what
 * does not involve floating point: the number of votes cast, the count per
 * token and the mode (every token with the highest count).
 */
module Statistics {
  import opened Wrappers
  import opened Participants

  /** `{ totalVotes, voteDistribution, mode }` of the source's statistics object. */
  datatype Statistics = Statistics(totalVotes: nat, voteDistribution: map<string, nat>, mode: set<string>)

  /** `participants.map(p => p.currentVote).filter(v => v !== null)` */
  function CastVotes(ps: seq<Participant>): (votes: seq<string>)
    ensures |votes| <= |ps|
    ensures forall v :: v in votes <==> exists i :: 0 <= i < |ps| && ps[i].currentVote == Some(v)
  {
    if ps == [] then []
    else
      var rest := CastVotes(ps[..|ps| - 1]);
      assert forall i :: 0 <= i < |ps| - 1 ==> ps[..|ps| - 1][i] == ps[i];
      match ps[|ps| - 1].currentVote
      case None => rest
      case Some(v) => rest + [v]
  }

  /** The count for `v` in a tally, 0 when `v` is not a key (`voteCounts[vote] || 0`). */
  function CountIn(m: map<string, nat>, v: string): nat
  {
    if v in m then m[v] else 0
  }

  /** The counts that `votes.forEach(vote => voteCounts[vote] = (voteCounts[vote] || 0) + 1)` builds. */
  function Tally(votes: seq<string>): map<string, nat>
  {
    if votes == [] then map[]
    else
      var m := Tally(votes[..|votes| - 1]);
      var v := votes[|votes| - 1];
      m[v := CountIn(m, v) + 1]
  }

  /** The tokens whose count is not exceeded by any other: the mode, ties included. */
  function ModeOf(dist: map<string, nat>): set<string>
  {
    set v | v in dist && forall w :: w in dist ==> dist[w] <= dist[v]
  }

  /** What calculateStatistics returns, as a specification. */
  function StatisticsOf(ps: seq<Participant>): Statistics
  {
    var votes := CastVotes(ps);
    var dist := Tally(votes);
    Statistics(|votes|, dist, ModeOf(dist))
  }

  /** calculateStatistics, with its counting loop and its maximum search over the keys. */
  method CalculateStatistics(ps: seq<Participant>) returns (stats: Statistics)
    ensures stats == StatisticsOf(ps)
  {
    var votes := CastVotes(ps);
    if |votes| == 0 {
      return Statistics(0, map[], {});
    }
    var voteCounts: map<string, nat> := map[];
    var i := 0;
    while i < |votes|
      invariant 0 <= i <= |votes|
      invariant voteCounts == Tally(votes[..i])
    {
      assert votes[..i + 1][..i] == votes[..i];
      voteCounts := voteCounts[votes[i] := CountIn(voteCounts, votes[i]) + 1];
      i := i + 1;
    }
    assert votes[..|votes|] == votes;
    TallyKeys(votes);
    var maxCount: nat := 0;
    var unvisited := voteCounts.Keys;
    while unvisited != {}
      invariant unvisited <= voteCounts.Keys
      invariant forall w :: w in voteCounts && w !in unvisited ==> voteCounts[w] <= maxCount
      invariant maxCount == 0 || exists w :: w in voteCounts && voteCounts[w] == maxCount
      decreases unvisited
    {
      var k :| k in unvisited;
      if voteCounts[k] > maxCount {
        maxCount := voteCounts[k];
      }
      unvisited := unvisited - {k};
    }
    assert votes[0] in voteCounts;
    var mode := set v | v in voteCounts && voteCounts[v] == maxCount;
    assert mode == ModeOf(voteCounts) by {
      forall v | v in voteCounts
        ensures voteCounts[v] == maxCount <==> forall w :: w in voteCounts ==> voteCounts[w] <= voteCounts[v]
      {
        if forall w :: w in voteCounts ==> voteCounts[w] <= voteCounts[v] {
          var w :| w in voteCounts && voteCounts[w] == maxCount;
        }
      }
    }
    stats := Statistics(|votes|, voteCounts, mode);
  }

  /** Every key of the tally is a cast token, every cast token is a key, and counts are positive. */
  lemma {:induction false} TallyKeys(votes: seq<string>)
    ensures forall v :: v in Tally(votes) <==> v in votes
    ensures forall v :: v in Tally(votes) ==> Tally(votes)[v] >= 1
  {
    if votes != [] {
      var init := votes[..|votes| - 1];
      TallyKeys(init);
      assert votes == init + [votes[|votes| - 1]];
    }
  }

  /** The distribution counts each token exactly as often as it was cast. */
  lemma {:induction false} TallyCounts(votes: seq<string>)
    ensures forall v :: CountIn(Tally(votes), v) == multiset(votes)[v]
  {
    if votes != [] {
      var init := votes[..|votes| - 1];
      TallyCounts(init);
      assert votes == init + [votes[|votes| - 1]];
    }
  }

  /** The sum of the counts of a tally. */
  ghost function MapSum(m: map<string, nat>): nat
    decreases |m|
  {
    if m == map[] then 0
    else
      var k :| k in m;
      assert |m - {k}| == |m| - 1 by { assert (m - {k}).Keys == m.Keys - {k}; }
      m[k] + MapSum(m - {k})
  }

  /** Any key can be taken out first when summing a tally. */
  lemma {:induction false} MapSumRemove(m: map<string, nat>, k: string)
    requires k in m
    ensures MapSum(m) == m[k] + MapSum(m - {k})
    decreases |m|
  {
    var j :| j in m && MapSum(m) == m[j] + MapSum(m - {j});
    if j != k {
      assert (m - {k}).Keys == m.Keys - {k};
      assert (m - {j}).Keys == m.Keys - {j};
      MapSumRemove(m - {j}, k);
      MapSumRemove(m - {k}, j);
      assert m - {j} - {k} == m - {k} - {j};
    }
  }

  /** Counting one more vote for `v` raises the sum of the counts by one. */
  lemma MapSumIncrement(m: map<string, nat>, v: string)
    ensures MapSum(m[v := CountIn(m, v) + 1]) == MapSum(m) + 1
  {
    var m' := m[v := CountIn(m, v) + 1];
    MapSumRemove(m', v);
    if v in m {
      MapSumRemove(m, v);
      assert m' - {v} == m - {v};
    } else {
      assert m' - {v} == m;
    }
  }

  /** The per-token counts add up to the number of votes cast. */
  lemma {:induction false} TallySum(votes: seq<string>)
    ensures MapSum(Tally(votes)) == |votes|
  {
    if votes != [] {
      var init := votes[..|votes| - 1];
      TallySum(init);
      MapSumIncrement(Tally(init), votes[|votes| - 1]);
    }
  }

  /**
   * The properties of calculateStatistics: the total is the number of
   * participants holding a vote, the distribution counts add up to it, the
   * mode is exactly the set of tokens of maximal count, and with no vote cast
   * all three are empty.
   */
  lemma StatisticsCorrect(ps: seq<Participant>)
    ensures var s := StatisticsOf(ps);
            && s.totalVotes == |CastVotes(ps)|
            && MapSum(s.voteDistribution) == s.totalVotes
            && (forall v :: v in s.voteDistribution <==> v in CastVotes(ps))
            && (forall v :: v in s.voteDistribution ==> s.voteDistribution[v] == multiset(CastVotes(ps))[v])
            && (forall v :: v in s.mode <==>
                  v in s.voteDistribution && forall w :: w in s.voteDistribution ==> s.voteDistribution[w] <= s.voteDistribution[v])
            && (s.totalVotes == 0 <==> s.mode == {})
            && (s.totalVotes == 0 ==> s.voteDistribution == map[])
  {
    var votes := CastVotes(ps);
    var dist := Tally(votes);
    TallySum(votes);
    TallyKeys(votes);
    TallyCounts(votes);
    if votes != [] {
      MaxExists(dist, votes[0]);
    }
  }

  /** A non-empty tally has a key of maximal count. */
  lemma MaxExists(m: map<string, nat>, k0: string)
    requires k0 in m
    ensures exists v :: v in m && forall w :: w in m ==> m[w] <= m[v]
    decreases set w | w in m && m[w] > m[k0]
  {
    if !(forall w :: w in m ==> m[w] <= m[k0]) {
      var k1 :| k1 in m && m[k1] > m[k0];
      var above0 := set w | w in m && m[w] > m[k0];
      var above1 := set w | w in m && m[w] > m[k1];
      assert above1 <= above0;
      assert k1 in above0 && k1 !in above1;
      assert above1 < above0;
      MaxExists(m, k1);
    }
  }
}
