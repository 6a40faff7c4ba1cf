/**
 * The third pass of determineInitialLists: the scores are summed front to
 * back until the running sum reaches the information budget INFO_LIMIT; the
 * agent list keeps the entries up to and including that one.
 *
 * The source's removal loop deletes agents at the moving index j but
 * scores always at the cut index, so the score list it leaves behind ends
 * with the last input score instead of the cut entry's. That list is local
 * to the pass and is dropped afterwards, so only the agent list matters.
 */
module Budget {
  import opened Scoring

  /** Sum of a score list, accumulated front to back. */
  function Sum(s: seq<real>): real
  {
    if s == [] then 0.0 else Sum(s[..|s| - 1]) + s[|s| - 1]
  }

  lemma SumAppend(s: seq<real>, x: real)
    ensures Sum(s + [x]) == Sum(s) + x
  {
    assert (s + [x])[..|s|] == s;
  }

  /** Scores of at least m each sum to at least m times their number. */
  lemma {:induction false} SumAtLeast(s: seq<real>, m: real)
    requires forall i :: 0 <= i < |s| ==> s[i] >= m
    ensures Sum(s) >= |s| as real * m
  {
    if s != [] {
      SumAtLeast(s[..|s| - 1], m);
    }
  }

  /** accumulatedScore once entry i has been added. */
  function RunningSum(s: seq<real>, i: nat): real
    requires i < |s|
  {
    Sum(s[..i + 1])
  }

  /**
   * The first index i at or after `from` whose running sum over s[..i+1]
   * reaches the limit, or |s| when there is none.
   */
  function CutFrom(s: seq<real>, limit: real, from: nat): (k: nat)
    requires from <= |s|
    ensures from <= k <= |s|
    ensures forall i :: from <= i < k ==> RunningSum(s, i) < limit
    ensures k < |s| ==> RunningSum(s, k) >= limit
    decreases |s| - from
  {
    if from == |s| then |s|
    else if RunningSum(s, from) >= limit then from
    else CutFrom(s, limit, from + 1)
  }

  /** indexToBeDeleted after the accumulating loop. */
  function CutIndex(s: seq<real>, limit: real): (k: nat)
    ensures k <= |s|
  {
    CutFrom(s, limit, 0)
  }

  /** Lists kept by the removal loop: agents[..k+1], and the score list it leaves. */
  function Truncate(agents: seq<Neighbour>, scores: seq<real>, limit: real): (r: (seq<Neighbour>, seq<real>))
    requires |agents| == |scores|
    ensures |r.0| == |r.1|
  {
    var k := CutIndex(scores, limit);
    if k + 1 < |scores| then (agents[..k + 1], scores[..k] + [scores[|scores| - 1]])
    else (agents, scores)
  }

  /**
   * The kept agents are a prefix of the list: k+1 of them, where k is the
   * first index whose running sum reaches the budget, or all of them when
   * the sum never does.
   */
  lemma TruncatePrefix(agents: seq<Neighbour>, scores: seq<real>, limit: real)
    requires |agents| == |scores|
    ensures var kept := Truncate(agents, scores, limit).0;
            kept <= agents
            && (|kept| < |agents| <==> exists k :: 0 <= k < |scores| - 1 && RunningSum(scores, k) >= limit)
            && (|kept| < |agents| ==>
                  RunningSum(scores, |kept| - 1) >= limit
                  && (forall i :: 0 <= i < |kept| - 1 ==> RunningSum(scores, i) < limit))
  {
    var k := CutIndex(scores, limit);
    var kept := Truncate(agents, scores, limit).0;
    if k + 1 < |scores| {
      assert |kept| == k + 1;
    } else {
      assert kept == agents;
      forall i | 0 <= i < |scores| - 1
        ensures RunningSum(scores, i) < limit
      {
        assert i < k;
      }
    }
  }

  /** Every kept agent but the last has a running sum below the budget. */
  lemma TruncateUnderBudget(agents: seq<Neighbour>, scores: seq<real>, limit: real)
    requires |agents| == |scores|
    ensures var kept := Truncate(agents, scores, limit).0;
            forall i :: 0 <= i < |kept| - 1 ==> RunningSum(scores, i) < limit
  {
    var k := CutIndex(scores, limit);
    var kept := Truncate(agents, scores, limit).0;
    assert |kept| <= k + 1;
  }

  /**
   * Every score is at least 0.01 (DistanceScoreBounds), so at most one kept
   * entry past the first 100 * INFO_LIMIT can fit in the budget.
   */
  lemma TruncateCapacity(agents: seq<Neighbour>, scores: seq<real>, limit: real)
    requires |agents| == |scores|
    requires forall i :: 0 <= i < |scores| ==> scores[i] >= 0.01
    ensures var kept := Truncate(agents, scores, limit).0;
            |kept| <= 1 || (|kept| - 1) as real < 100.0 * limit
  {
    var kept := Truncate(agents, scores, limit).0;
    TruncateUnderBudget(agents, scores, limit);
    if |kept| > 1 {
      var m := |kept| - 1;
      assert RunningSum(scores, m - 1) < limit;
      assert scores[..m] == scores[..m - 1 + 1];
      SumAtLeast(scores[..m], 0.01);
    }
  }
}
