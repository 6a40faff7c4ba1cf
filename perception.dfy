/**
 * RVOAgent.SenseThink.determineInitialLists: the three passes over the
 * lists sortedList and distanceScoreList, as a method with the source's
 * loops, proved equal to the composition of the three pass functions.
 * The cluster loop is the corrected one: it moves its cluster index j down
 * whenever an entry in front of the cluster is removed, which the source's
 * loop does not (Clustering.ClusterAsWritten is the loop as written).
 */
module Perception {
  import opened Wrappers
  import opened Geometry
  import opened Scoring
  import opened Ranking
  import opened Clustering
  import opened Budget

  /**
   * The list that replaces the sensed bag: score, rank, remove absorbed
   * entries, cut at the budget. None when scoring throws.
   */
  function Perceive(n: Numerics, me: Observer, bag: seq<Neighbour>, radius: real, limit: real): (r: Option<seq<Neighbour>>)
    ensures r.None? <==> exists i :: 0 <= i < |bag| && DistanceScore(n, me, bag[i], radius).None?
  {
    match ScoreAll(n, me, bag, radius)
    case None => None
    case Some(scores) =>
      ClusterTracks(RankAll(n, me, bag, scores));
      var t := Cluster(RankAll(n, me, bag, scores));
      Some(Truncate(t.agents, t.scores, limit).0)
  }

  /** The score of an agent that perception did not fail on. */
  function ScoreOf(n: Numerics, me: Observer, a: Neighbour, radius: real): real
  {
    match DistanceScore(n, me, a, radius)
    case Some(s) => s
    case None => 0.0
  }

  /**
   * The perceived list holds sensed agents only, in non-increasing order of
   * their scores.
   */
  lemma PerceiveOrdered(n: Numerics, me: Observer, bag: seq<Neighbour>, radius: real, limit: real)
    requires Perceive(n, me, bag, radius, limit).Some?
    ensures var kept := Perceive(n, me, bag, radius, limit).value;
            (forall a :: a in kept ==> a in bag)
            && forall i, j :: 0 <= i < j < |kept| ==> ScoreOf(n, me, kept[i], radius) >= ScoreOf(n, me, kept[j], radius)
  {
    var scores := ScoreAll(n, me, bag, radius).value;
    var l := RankAll(n, me, bag, scores);
    var t := Cluster(l);
    var kept := Truncate(t.agents, t.scores, limit).0;
    RankAllSorted(n, me, bag, scores);
    RankedFromBag(n, me, bag, radius, scores, l);
    ClusterTracks(l);
    ClusterSorted(l);
    TruncatePrefix(t.agents, t.scores, limit);
    forall i | 0 <= i < |kept|
      ensures kept[i] in bag && t.scores[i] == ScoreOf(n, me, kept[i], radius)
    {
      var o := t.origin[i];
      assert kept[i] == t.agents[i] == l.agents[o];
      assert l.agents[o] in bag && l.scores[o] == ScoreOf(n, me, l.agents[o], radius);
    }
  }

  /** Each entry of the ranked list is a bag entry with its own score. */
  lemma RankedFromBag(n: Numerics, me: Observer, bag: seq<Neighbour>, radius: real, scores: seq<real>, l: Ranked)
    requires ScoreAll(n, me, bag, radius) == Some(scores) && l == RankAll(n, me, bag, scores)
    ensures forall p :: 0 <= p < |l.agents| ==> l.agents[p] in bag && l.scores[p] == ScoreOf(n, me, l.agents[p], radius)
  {
    RankAllPairs(n, me, bag, scores);
    forall p | 0 <= p < |l.agents|
      ensures l.agents[p] in bag && l.scores[p] == ScoreOf(n, me, l.agents[p], radius)
    {
      assert Pairs(l)[p] in multiset(Pairs(l));
      assert Pairs(l)[p] in multiset(Pairs(Ranked(bag, scores)));
      var q :| 0 <= q < |bag| && Pairs(Ranked(bag, scores))[q] == Pairs(l)[p];
    }
  }

  /**
   * determineInitialLists over the sensed bag, with its three passes. The
   * cluster pass keeps the cluster's position up to date (Cluster, not
   * ClusterAsWritten).
   */
  method DetermineInitialLists(n: Numerics, me: Observer, bag: seq<Neighbour>, radius: real, limit: real)
    returns (r: Option<seq<Neighbour>>)
    ensures r == Perceive(n, me, bag, radius, limit)
  {
    var ranked := InsertionPass(n, me, bag, radius);
    if ranked.None? {
      return None;
    }
    var sorted, scores := ClusterPass(ranked.value.agents, ranked.value.scores);
    sorted, scores := TruncationPass(sorted, scores, limit);
    return Some(sorted);
  }

  /** The first loop: score each sensed agent and insert it; None when a score throws. */
  method InsertionPass(n: Numerics, me: Observer, bag: seq<Neighbour>, radius: real) returns (r: Option<Ranked>)
    ensures ScoreAll(n, me, bag, radius).None? ==> r.None?
    ensures ScoreAll(n, me, bag, radius).Some? ==> r == Some(RankAll(n, me, bag, ScoreAll(n, me, bag, radius).value))
  {
    var sorted: seq<Neighbour> := [];
    var scores: seq<real> := [];
    ghost var bagScores: seq<real> := [];
    var i := 0;
    while i < |bag|
      invariant 0 <= i <= |bag|
      invariant ScoreAll(n, me, bag[..i], radius) == Some(bagScores)
      invariant Ranked(sorted, scores) == RankAll(n, me, bag[..i], bagScores)
    {
      var temp := bag[i];
      var scoreOrFailure := DistanceScore(n, me, temp, radius);
      if scoreOrFailure.None? {
        return None;
      }
      var score := scoreOrFailure.value;
      sorted, scores := InsertCandidate(n, me, sorted, scores, temp, score);
      assert bag[..i + 1][..i] == bag[..i];
      bagScores := bagScores + [score];
      i := i + 1;
    }
    assert bag[..i] == bag;
    return Some(Ranked(sorted, scores));
  }

  /** The inner loop of the first pass: the scan for the candidate's place. */
  method InsertCandidate(n: Numerics, me: Observer, sorted0: seq<Neighbour>, scores0: seq<real>, temp: Neighbour, score: real)
    returns (sorted: seq<Neighbour>, scores: seq<real>)
    requires |sorted0| == |scores0|
    ensures Ranked(sorted, scores) == InsertOne(n, me, Ranked(sorted0, scores0), temp, score)
  {
    sorted, scores := sorted0, scores0;
    ghost var before := Ranked(sorted, scores);
    var added := false;
    var j := 0;
    while j < |sorted|
      invariant 0 <= j <= |sorted| && Ranked(sorted, scores) == before && !added
      invariant Place(n, me, before, temp, score, j) == Place(n, me, before, temp, score, 0)
      decreases |sorted| - j
    {
      if temp.id == me.id || SamePlace(temp, sorted[j]) {
        added := true;
        break;
      }
      if scores[j] < score {
        sorted := Insert(sorted, j, temp);
        scores := Insert(scores, j, score);
        added := true;
        break;
      } else if scores[j] == score {
        if Dot(temp.vel, sorted[j].vel) < 0.0 {
          if Dot(temp.vel, me.vel) < 0.0 {
            sorted := Insert(sorted, j, temp);
            scores := Insert(scores, j, score);
            added := true;
            break;
          } else {
            j := j + 1;
            continue;
          }
        }
        if Clearance(n, me, temp) < Clearance(n, me, sorted[j]) {
          sorted := Insert(sorted, j, temp);
          scores := Insert(scores, j, score);
          added := true;
          break;
        }
      }
      j := j + 1;
    }
    if !added {
      sorted := Insert(sorted, j, temp);
      scores := Insert(scores, j, score);
    }
  }

  /** The second loop: every cluster entry removes the entries inside its disc. */
  method ClusterPass(sorted0: seq<Neighbour>, scores0: seq<real>) returns (sorted: seq<Neighbour>, scores: seq<real>)
    requires |sorted0| == |scores0|
    ensures sorted == Cluster(Ranked(sorted0, scores0)).agents && scores == Cluster(Ranked(sorted0, scores0)).scores
  {
    sorted, scores := sorted0, scores0;
    ghost var l := Ranked(sorted, scores);
    ghost var origin: seq<nat> := seq(|sorted|, p => p);
    assert Tracked(sorted, scores, origin) == Start(l);
    var j: nat := 0;
    while j < |sorted|
      invariant |sorted| == |scores| == |origin|
      invariant ClusterFrom(Absorbs, Tracked(sorted, scores, origin), j) == Cluster(l)
      decreases |sorted| - j
    {
      if sorted[j].radius > CLUSTER_RADIUS {
        sorted, scores, origin, j := SweepLoop(sorted, scores, origin, j);
      }
      j := j + 1;
    }
  }

  /**
   * The inner loop for the cluster at j: every other entry inside it is
   * removed, and j moves down with each removal in front of it.
   */
  method SweepLoop(sorted0: seq<Neighbour>, scores0: seq<real>, ghost origin0: seq<nat>, j0: nat)
    returns (sorted: seq<Neighbour>, scores: seq<real>, ghost origin: seq<nat>, j: nat)
    requires |sorted0| == |scores0| == |origin0| && j0 < |sorted0|
    ensures (Tracked(sorted, scores, origin), j) == SweepCorrected(Absorbs, Tracked(sorted0, scores0, origin0), j0, sorted0[j0], 0)
  {
    sorted, scores, origin, j := sorted0, scores0, origin0, j0;
    var clustered := sorted[j];
    var k := 0;
    while k < |sorted|
      invariant |sorted| == |scores| == |origin| && k <= |sorted| && j < |sorted|
      invariant SweepCorrected(Absorbs, Tracked(sorted, scores, origin), j, clustered, k)
                == SweepCorrected(Absorbs, Tracked(sorted0, scores0, origin0), j0, clustered, 0)
      decreases |sorted| - k
    {
      if j != k && Absorbs(clustered, sorted[k]) {
        // the entry at k is removed and k is examined again
        sorted := Delete(sorted, k);
        scores := Delete(scores, k);
        origin := Delete(origin, k);
        if k < j {
          j := j - 1;
        }
      } else {
        k := k + 1;
      }
    }
  }

  /** The last two loops: find the cut index, then remove the entries past it. */
  method TruncationPass(sorted0: seq<Neighbour>, scores0: seq<real>, limit: real) returns (sorted: seq<Neighbour>, scores: seq<real>)
    requires |sorted0| == |scores0|
    ensures (sorted, scores) == Truncate(sorted0, scores0, limit)
  {
    var cut := CutLoop(scores0, limit);
    sorted, scores := RemoveLoop(sorted0, scores0, cut);
  }

  /** Accumulate the scores until the running sum reaches the budget. */
  method CutLoop(scores: seq<real>, limit: real) returns (cut: nat)
    ensures cut == CutIndex(scores, limit)
  {
    var accumulated := 0.0;
    cut := 0;
    while cut < |scores|
      invariant cut <= |scores|
      invariant accumulated == Sum(scores[..cut])
      invariant CutFrom(scores, limit, cut) == CutIndex(scores, limit)
    {
      accumulated := accumulated + scores[cut];
      assert scores[..cut + 1] == scores[..cut] + [scores[cut]];
      SumAppend(scores[..cut], scores[cut]);
      if accumulated >= limit {
        break;
      }
      cut := cut + 1;
    }
  }

  /**
   * for j from size-1 down past cut: remove score cut and agent j. The
   * agents keep the prefix up to cut; the scores lose the entries cut to
   * size-2.
   */
  method RemoveLoop(sorted0: seq<Neighbour>, scores0: seq<real>, cut: nat) returns (sorted: seq<Neighbour>, scores: seq<real>)
    requires |sorted0| == |scores0| && cut <= |scores0|
    ensures cut + 1 < |scores0| ==> sorted == sorted0[..cut + 1] && scores == scores0[..cut] + [scores0[|scores0| - 1]]
    ensures cut + 1 >= |scores0| ==> sorted == sorted0 && scores == scores0
  {
    sorted, scores := sorted0, scores0;
    var m: int := |scores| - 1;
    while m > cut
      invariant -1 <= m <= |scores0| - 1 && cut <= m + 1
      invariant m >= cut || m == |scores0| - 1
      invariant sorted == sorted0[..m + 1]
      invariant scores == scores0[..cut] + scores0[cut + (|scores0| - 1 - m)..]
    {
      scores := Delete(scores, cut);
      sorted := Delete(sorted, m);
      m := m - 1;
    }
    if cut + 1 < |scores0| {
      assert scores0[|scores0| - 1..] == [scores0[|scores0| - 1]];
    } else {
      assert scores0[..cut] + scores0[cut..] == scores0;
    }
  }
}
