/**
 * The first pass of RVOAgent.SenseThink.determineInitialLists: each sensed
 * agent is inserted into two parallel lists (agents and their scores) kept
 * in non-increasing score order, with ties broken by heading and clearance,
 * and the observer itself and exact duplicates dropped.
 */
module Ranking {
  import opened Geometry
  import opened Scoring

  /** sortedList and distanceScoreList. */
  datatype Ranked = Ranked(agents: seq<Neighbour>, scores: seq<real>)

  predicate Parallel(r: Ranked)
  {
    |r.agents| == |r.scores|
  }

  predicate NonIncreasing(s: seq<real>)
  {
    forall i, j :: 0 <= i < j < |s| ==> s[i] >= s[j]
  }

  /** The list's entries paired with their scores. */
  function Pairs(r: Ranked): (p: seq<(Neighbour, real)>)
    requires Parallel(r)
    ensures |p| == |r.agents|
    ensures forall i :: 0 <= i < |p| ==> p[i] == (r.agents[i], r.scores[i])
  {
    seq(|r.agents|, i requires 0 <= i < |r.agents| => (r.agents[i], r.scores[i]))
  }

  /** List.add(j, x). */
  function Insert<T>(s: seq<T>, j: nat, x: T): (r: seq<T>)
    requires j <= |s|
    ensures |r| == |s| + 1 && r[j] == x
    ensures forall i :: 0 <= i < j ==> r[i] == s[i]
    ensures forall i :: j < i < |r| ==> r[i] == s[i - 1]
  {
    s[..j] + [x] + s[j..]
  }

  lemma InsertMultiset<T>(s: seq<T>, j: nat, x: T)
    requires j <= |s|
    ensures multiset(Insert(s, j, x)) == multiset(s) + multiset{x}
  {
    assert s == s[..j] + s[j..];
  }

  /** Where a candidate goes when the scan starts at position j. */
  datatype Placement = Drop | InsertAt(index: nat)

  /** Same position and same radius: the sensed agent duplicates an entry. */
  predicate SamePlace(c: Neighbour, e: Neighbour)
  {
    c.pos == e.pos && c.radius == e.radius
  }

  /** The candidate is the observer itself (RVOAgent.equals compares ids) or duplicates entry e. */
  predicate Dropped(me: Observer, c: Neighbour, e: Neighbour)
  {
    c.id == me.id || SamePlace(c, e)
  }

  /** Distance from the observer to the near side of the agent's body. */
  function Clearance(n: Numerics, me: Observer, c: Neighbour): real
  {
    Length(n, Sub(c.pos, me.pos)) - c.radius
  }

  /**
   * Whether candidate c with score sc is placed before entry e with score se:
   * a strictly higher score wins; on equal scores, when c and e move against
   * each other c goes first exactly when it also moves against the observer,
   * and otherwise the one with the smaller clearance goes first.
   */
  predicate GoesBefore(n: Numerics, me: Observer, c: Neighbour, sc: real, e: Neighbour, se: real)
  {
    se < sc
    || (se == sc
        && if Dot(c.vel, e.vel) < 0.0 then Dot(c.vel, me.vel) < 0.0
           else Clearance(n, me, c) < Clearance(n, me, e))
  }

  /**
   * The scan over positions j, j+1, ... of the lists: the first position
   * where the candidate is dropped or goes before the entry decides; past
   * the end the candidate is appended.
   */
  function Place(n: Numerics, me: Observer, r: Ranked, c: Neighbour, sc: real, j: nat): (p: Placement)
    requires Parallel(r) && j <= |r.agents|
    ensures p.InsertAt? ==> j <= p.index <= |r.agents|
    ensures p.InsertAt? ==> forall m :: j <= m < p.index ==>
              !Dropped(me, c, r.agents[m]) && !GoesBefore(n, me, c, sc, r.agents[m], r.scores[m])
    ensures p.InsertAt? && p.index < |r.agents| ==>
              !Dropped(me, c, r.agents[p.index]) && GoesBefore(n, me, c, sc, r.agents[p.index], r.scores[p.index])
    ensures p.Drop? <==> exists k :: (j <= k < |r.agents| && Dropped(me, c, r.agents[k])
              && forall m :: j <= m < k ==> !GoesBefore(n, me, c, sc, r.agents[m], r.scores[m]))
    decreases |r.agents| - j
  {
    if j == |r.agents| then InsertAt(j)
    else if Dropped(me, c, r.agents[j]) then Drop
    else if GoesBefore(n, me, c, sc, r.agents[j], r.scores[j]) then InsertAt(j)
    else Place(n, me, r, c, sc, j + 1)
  }

  /** One iteration of the outer loop: place candidate c with score sc. */
  function InsertOne(n: Numerics, me: Observer, r: Ranked, c: Neighbour, sc: real): (q: Ranked)
    requires Parallel(r)
    ensures Parallel(q)
  {
    match Place(n, me, r, c, sc, 0)
    case Drop => r
    case InsertAt(j) => Ranked(Insert(r.agents, j, c), Insert(r.scores, j, sc))
  }

  /** The whole first pass over the bag, whose i-th agent has score scores[i]. */
  function RankAll(n: Numerics, me: Observer, bag: seq<Neighbour>, scores: seq<real>): (r: Ranked)
    requires |bag| == |scores|
    ensures Parallel(r)
    decreases |bag|
  {
    if bag == [] then Ranked([], [])
    else InsertOne(n, me, RankAll(n, me, bag[..|bag| - 1], scores[..|bag| - 1]), bag[|bag| - 1], scores[|bag| - 1])
  }

  /** Insertion keeps the score list in non-increasing order. */
  lemma InsertOneSorted(n: Numerics, me: Observer, r: Ranked, c: Neighbour, sc: real)
    requires Parallel(r) && NonIncreasing(r.scores)
    ensures NonIncreasing(InsertOne(n, me, r, c, sc).scores)
  {
    var p := Place(n, me, r, c, sc, 0);
    if p.InsertAt? {
      var j := p.index;
      var s := Insert(r.scores, j, sc);
      forall a, b | 0 <= a < b < |s|
        ensures s[a] >= s[b]
      {
        if b < j {
        } else if a < j && b == j {
          assert !GoesBefore(n, me, c, sc, r.agents[a], r.scores[a]);
        } else if a < j {
          assert !GoesBefore(n, me, c, sc, r.agents[a], r.scores[a]);
        } else if a == j {
          assert GoesBefore(n, me, c, sc, r.agents[j], r.scores[j]);
          assert r.scores[j] >= r.scores[b - 1];
        }
      }
    }
  }

  /** Insertion adds exactly the placed candidate with its own score, or nothing. */
  lemma InsertOnePairs(n: Numerics, me: Observer, r: Ranked, c: Neighbour, sc: real)
    requires Parallel(r)
    ensures Place(n, me, r, c, sc, 0).Drop? ==> multiset(Pairs(InsertOne(n, me, r, c, sc))) == multiset(Pairs(r))
    ensures Place(n, me, r, c, sc, 0).InsertAt? ==>
              multiset(Pairs(InsertOne(n, me, r, c, sc))) == multiset(Pairs(r)) + multiset{(c, sc)}
    ensures multiset(Pairs(InsertOne(n, me, r, c, sc))) <= multiset(Pairs(r)) + multiset{(c, sc)}
  {
    var p := Place(n, me, r, c, sc, 0);
    if p.InsertAt? {
      var q := InsertOne(n, me, r, c, sc);
      assert Pairs(q) == Insert(Pairs(r), p.index, (c, sc));
      InsertMultiset(Pairs(r), p.index, (c, sc));
    }
  }

  /** Entries are never removed by insertion, and the candidate ends up represented. */
  lemma InsertOneCovers(n: Numerics, me: Observer, r: Ranked, c: Neighbour, sc: real)
    requires Parallel(r)
    ensures forall e :: e in r.agents ==> e in InsertOne(n, me, r, c, sc).agents
    ensures c.id == me.id || exists e :: e in InsertOne(n, me, r, c, sc).agents && SamePlace(c, e)
  {
    var p := Place(n, me, r, c, sc, 0);
    var q := InsertOne(n, me, r, c, sc);
    if p.InsertAt? {
      forall e | e in r.agents
        ensures e in q.agents
      {
        var i :| 0 <= i < |r.agents| && r.agents[i] == e;
        if i < p.index { assert q.agents[i] == e; } else { assert q.agents[i + 1] == e; }
      }
      assert q.agents[p.index] == c && SamePlace(c, c);
    } else {
      var k :| 0 <= k < |r.agents| && Dropped(me, c, r.agents[k]);
      if c.id != me.id {
        assert SamePlace(c, r.agents[k]);
      }
    }
  }

  /** The first pass yields a list in non-increasing score order. */
  lemma {:induction false} RankAllSorted(n: Numerics, me: Observer, bag: seq<Neighbour>, scores: seq<real>)
    requires |bag| == |scores|
    ensures NonIncreasing(RankAll(n, me, bag, scores).scores)
    decreases |bag|
  {
    if bag != [] {
      var k := |bag| - 1;
      RankAllSorted(n, me, bag[..k], scores[..k]);
      InsertOneSorted(n, me, RankAll(n, me, bag[..k], scores[..k]), bag[k], scores[k]);
    }
  }

  /** Every entry of the first pass is a sensed agent with its own score, and none appears more often than sensed. */
  lemma {:induction false} RankAllPairs(n: Numerics, me: Observer, bag: seq<Neighbour>, scores: seq<real>)
    requires |bag| == |scores|
    ensures multiset(Pairs(RankAll(n, me, bag, scores))) <= multiset(Pairs(Ranked(bag, scores)))
    decreases |bag|
  {
    if bag != [] {
      var k := |bag| - 1;
      var front := RankAll(n, me, bag[..k], scores[..k]);
      RankAllPairs(n, me, bag[..k], scores[..k]);
      InsertOnePairs(n, me, front, bag[k], scores[k]);
      assert RankAll(n, me, bag, scores) == InsertOne(n, me, front, bag[k], scores[k]);
      assert Pairs(Ranked(bag, scores)) == Pairs(Ranked(bag[..k], scores[..k])) + [(bag[k], scores[k])];
    }
  }

  /** Every sensed agent other than the observer is represented by an entry at its position with its radius. */
  lemma {:induction false} RankAllCovers(n: Numerics, me: Observer, bag: seq<Neighbour>, scores: seq<real>)
    requires |bag| == |scores|
    ensures forall b :: b in bag && b.id != me.id ==>
              exists e :: e in RankAll(n, me, bag, scores).agents && SamePlace(b, e)
    decreases |bag|
  {
    if bag != [] {
      var k := |bag| - 1;
      var front := RankAll(n, me, bag[..k], scores[..k]);
      var r := RankAll(n, me, bag, scores);
      RankAllCovers(n, me, bag[..k], scores[..k]);
      InsertOneCovers(n, me, front, bag[k], scores[k]);
      assert r == InsertOne(n, me, front, bag[k], scores[k]);
      forall b | b in bag && b.id != me.id
        ensures exists e :: e in r.agents && SamePlace(b, e)
      {
        var i :| 0 <= i < |bag| && bag[i] == b;
        if i < k {
          assert b in bag[..k];
          var e :| e in front.agents && SamePlace(b, e);
          assert e in r.agents;
        } else {
          assert b == bag[k];
        }
      }
    }
  }
}
