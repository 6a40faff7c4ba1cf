/**
 * The second pass of determineInitialLists: every entry whose radius exceeds
 * 0.16 (a clustered group of agents) absorbs the entries lying wholly inside
 * its disc, which are removed from both lists.
 *
 * Two versions are given. As written, the source keeps using the cluster's
 * old position j after removing entries in front of it, so the cluster can
 * meet itself at position j-1 and remove itself; ClusterAsWritten models
 * that, and ClusterAsWrittenDropsCluster exhibits it. Cluster follows the
 * cluster entry as it moves, which is the evident intent, and is the
 * version the rest of the model uses.
 */
module Clustering {
  import opened Geometry
  import opened Scoring
  import opened Ranking

  /** Entries with a larger radius stand for clusters of agents. */
  const CLUSTER_RADIUS: real := 0.16

  /**
   * |c.pos - e.pos| + e.radius <= c.radius: e lies inside c's disc,
   * decided exactly on squares.
   */
  predicate Absorbs(c: Neighbour, e: Neighbour)
  {
    WithinLength(Sub(c.pos, e.pos), c.radius - e.radius)
  }

  /** With a sound square root, Absorbs is the comparison the source writes. */
  lemma AbsorbsIsDistance(n: Numerics, c: Neighbour, e: Neighbour)
    requires SqrtSoundAt(n, SqLength(Sub(c.pos, e.pos)))
    ensures Absorbs(c, e) <==> Distance(n, c.pos, e.pos) + e.radius <= c.radius
  {
    WithinLengthIsLength(n, Sub(c.pos, e.pos), c.radius - e.radius);
  }

  /** Every entry lies inside its own disc. */
  lemma AbsorbsItself(c: Neighbour)
    ensures Absorbs(c, c)
  {
    assert Sub(c.pos, c.pos) == Zero;
  }

  /** A containment test: whether the first entry's disc holds the second. */
  type Containment = (Neighbour, Neighbour) -> bool

  /**
   * The two lists together with, for each entry, its position in the list the
   * pass started from. The positions are bookkeeping for the proofs; the
   * decisions of the pass never read them.
   */
  datatype Tracked = Tracked(agents: seq<Neighbour>, scores: seq<real>, origin: seq<nat>)

  predicate Aligned(t: Tracked)
  {
    |t.agents| == |t.scores| == |t.origin|
  }

  /** List.remove(k). */
  function Delete<T>(s: seq<T>, k: nat): (r: seq<T>)
    requires k < |s|
    ensures |r| == |s| - 1
    ensures forall i :: 0 <= i < k ==> r[i] == s[i]
    ensures forall i :: k <= i < |r| ==> r[i] == s[i + 1]
  {
    s[..k] + s[k + 1..]
  }

  /** Removal at k from both lists. */
  function Remove(t: Tracked, k: nat): (r: Tracked)
    requires Aligned(t) && k < |t.agents|
    ensures Aligned(r) && |r.agents| == |t.agents| - 1
  {
    Tracked(Delete(t.agents, k), Delete(t.scores, k), Delete(t.origin, k))
  }

  function Start(l: Ranked): (t: Tracked)
    requires Parallel(l)
    ensures Aligned(t)
  {
    Tracked(l.agents, l.scores, seq(|l.agents|, i => i))
  }

  /** The lists are a subsequence of l: each entry comes, with its score, from its origin, in order. */
  predicate Tracks(t: Tracked, l: Ranked)
  {
    Parallel(l) && Aligned(t)
    && (forall i :: 0 <= i < |t.origin| ==>
          t.origin[i] < |l.agents| && t.agents[i] == l.agents[t.origin[i]] && t.scores[i] == l.scores[t.origin[i]])
    && (forall i, j :: 0 <= i < j < |t.origin| ==> t.origin[i] < t.origin[j])
  }

  /**
   * Every entry of l that is gone lies inside the disc of a cluster entry of
   * l; with strict, a cluster entry other than itself.
   */
  predicate Covered(inside: Containment, t: Tracked, l: Ranked, strict: bool)
  {
    forall o :: 0 <= o < |l.agents| && o !in t.origin ==> AbsorbedIn(inside, l, o, strict)
  }

  /** Entry o of l lies inside the disc of a cluster entry of l (with strict, another one). */
  predicate AbsorbedIn(inside: Containment, l: Ranked, o: nat, strict: bool)
    requires o < |l.agents|
  {
    exists c :: 0 <= c < |l.agents| && (strict ==> c != o)
      && l.agents[c].radius > CLUSTER_RADIUS && inside(l.agents[c], l.agents[o])
  }

  lemma StartTracks(inside: Containment, l: Ranked)
    requires Parallel(l)
    ensures Tracks(Start(l), l) && Covered(inside, Start(l), l, true)
  {
    var t := Start(l);
    forall o | 0 <= o < |l.agents|
      ensures o in t.origin
    {
      assert t.origin[o] == o;
    }
  }

  /** Removing an entry absorbed by a cluster entry keeps the two invariants. */
  lemma RemoveTracks(inside: Containment, t: Tracked, l: Ranked, k: nat, c: nat, strict: bool)
    requires Tracks(t, l) && Covered(inside, t, l, strict)
    requires k < |t.agents| && c < |l.agents|
    requires l.agents[c].radius > CLUSTER_RADIUS && inside(l.agents[c], t.agents[k])
    requires strict ==> c != t.origin[k]
    ensures Tracks(Remove(t, k), l) && Covered(inside, Remove(t, k), l, strict)
  {
    var r := Remove(t, k);
    forall i | 0 <= i < |t.origin| && i != k
      ensures t.origin[i] in r.origin
    {
      if i < k { assert r.origin[i] == t.origin[i]; } else { assert r.origin[i - 1] == t.origin[i]; }
    }
    forall o | 0 <= o < |l.agents| && o !in r.origin
      ensures AbsorbedIn(inside, l, o, strict)
    {
      if o == t.origin[k] {
        assert l.agents[o] == t.agents[k];
      }
    }
  }

  /** One inner loop of the source, as written: k keeps its value after a removal, j is never adjusted. */
  function SweepAsWritten(inside: Containment, t: Tracked, j: nat, c: Neighbour, k: nat): (r: Tracked)
    requires Aligned(t) && k <= |t.agents|
    ensures Aligned(r) && |r.agents| <= |t.agents|
    decreases |t.agents| - k
  {
    if k == |t.agents| then t
    else if j != k && inside(c, t.agents[k]) then SweepAsWritten(inside, Remove(t, k), j, c, k)
    else SweepAsWritten(inside, t, j, c, k + 1)
  }

  function ClusterAsWrittenFrom(inside: Containment, t: Tracked, j: nat): (r: Tracked)
    requires Aligned(t)
    ensures Aligned(r)
    decreases |t.agents| - j
  {
    if j >= |t.agents| then t
    else if t.agents[j].radius > CLUSTER_RADIUS then
      ClusterAsWrittenFrom(inside, SweepAsWritten(inside, t, j, t.agents[j], 0), j + 1)
    else ClusterAsWrittenFrom(inside, t, j + 1)
  }

  /** The cluster pass as the source writes it. */
  function ClusterAsWritten(l: Ranked): (r: Tracked)
    requires Parallel(l)
    ensures Aligned(r)
  {
    ClusterAsWrittenFrom(Absorbs, Start(l), 0)
  }

  /**
   * One inner loop with the position cj of the cluster c moved down whenever
   * an entry in front of it is removed; returns the lists and the cluster's
   * final position.
   */
  function SweepCorrected(inside: Containment, t: Tracked, cj: nat, c: Neighbour, k: nat): (r: (Tracked, nat))
    requires Aligned(t) && cj < |t.agents| && k <= |t.agents|
    ensures Aligned(r.0) && r.1 <= cj && r.1 < |r.0.agents|
    ensures |r.0.agents| - r.1 <= |t.agents| - cj
    decreases |t.agents| - k
  {
    if k == |t.agents| then (t, cj)
    else if k != cj && inside(c, t.agents[k]) then
      SweepCorrected(inside, Remove(t, k), if k < cj then cj - 1 else cj, c, k)
    else SweepCorrected(inside, t, cj, c, k + 1)
  }

  function ClusterFrom(inside: Containment, t: Tracked, j: nat): (r: Tracked)
    requires Aligned(t)
    ensures Aligned(r)
    decreases |t.agents| - j
  {
    if j >= |t.agents| then t
    else if t.agents[j].radius > CLUSTER_RADIUS then
      var (u, cj) := SweepCorrected(inside, t, j, t.agents[j], 0);
      ClusterFrom(inside, u, cj + 1)
    else ClusterFrom(inside, t, j + 1)
  }

  /** The cluster pass, with the cluster's position kept up to date. */
  function Cluster(l: Ranked): (r: Tracked)
    requires Parallel(l)
    ensures Aligned(r)
  {
    ClusterFrom(Absorbs, Start(l), 0)
  }

  lemma {:induction false} SweepAsWrittenTracks(inside: Containment, t: Tracked, l: Ranked, j: nat, oc: nat, k: nat)
    requires Tracks(t, l) && Covered(inside, t, l, false) && k <= |t.agents|
    requires oc < |l.agents| && l.agents[oc].radius > CLUSTER_RADIUS
    ensures Tracks(SweepAsWritten(inside, t, j, l.agents[oc], k), l) && Covered(inside, SweepAsWritten(inside, t, j, l.agents[oc], k), l, false)
    decreases |t.agents| - k
  {
    var c := l.agents[oc];
    if k < |t.agents| {
      if j != k && inside(c, t.agents[k]) {
        RemoveTracks(inside, t, l, k, oc, false);
        SweepAsWrittenTracks(inside, Remove(t, k), l, j, oc, k);
      } else {
        SweepAsWrittenTracks(inside, t, l, j, oc, k + 1);
      }
    }
  }

  lemma {:induction false} ClusterAsWrittenFromTracks(inside: Containment, t: Tracked, l: Ranked, j: nat)
    requires Tracks(t, l) && Covered(inside, t, l, false)
    ensures Tracks(ClusterAsWrittenFrom(inside, t, j), l) && Covered(inside, ClusterAsWrittenFrom(inside, t, j), l, false)
    decreases |t.agents| - j
  {
    if j < |t.agents| {
      if t.agents[j].radius > CLUSTER_RADIUS {
        SweepAsWrittenTracks(inside, t, l, j, t.origin[j], 0);
        ClusterAsWrittenFromTracks(inside, SweepAsWritten(inside, t, j, t.agents[j], 0), l, j + 1);
      } else {
        ClusterAsWrittenFromTracks(inside, t, l, j + 1);
      }
    }
  }

  /**
   * As written, the pass still only removes entries lying inside some
   * cluster entry's disc, which may be the entry itself.
   */
  lemma ClusterAsWrittenTracks(l: Ranked)
    requires Parallel(l)
    ensures Tracks(ClusterAsWritten(l), l) && Covered(Absorbs, ClusterAsWritten(l), l, false)
  {
    StartTracks(Absorbs, l);
    ClusterAsWrittenFromTracks(Absorbs, Start(l), l, 0);
  }

  lemma {:induction false} SweepCorrectedTracks(inside: Containment, t: Tracked, l: Ranked, cj: nat, oc: nat, k: nat)
    requires Tracks(t, l) && Covered(inside, t, l, true) && k <= |t.agents|
    requires cj < |t.agents| && t.origin[cj] == oc && l.agents[oc].radius > CLUSTER_RADIUS
    ensures Tracks(SweepCorrected(inside, t, cj, l.agents[oc], k).0, l)
    ensures Covered(inside, SweepCorrected(inside, t, cj, l.agents[oc], k).0, l, true)
    decreases |t.agents| - k
  {
    var c := l.agents[oc];
    if k < |t.agents| {
      if k != cj && inside(c, t.agents[k]) {
        assert t.origin[k] != oc by {
          if k < cj { assert t.origin[k] < t.origin[cj]; } else { assert t.origin[cj] < t.origin[k]; }
        }
        RemoveTracks(inside, t, l, k, oc, true);
        var cj' := if k < cj then cj - 1 else cj;
        assert Remove(t, k).origin[cj'] == oc;
        SweepCorrectedTracks(inside, Remove(t, k), l, cj', oc, k);
      } else {
        SweepCorrectedTracks(inside, t, l, cj, oc, k + 1);
      }
    }
  }

  lemma {:induction false} ClusterFromTracks(inside: Containment, t: Tracked, l: Ranked, j: nat)
    requires Tracks(t, l) && Covered(inside, t, l, true)
    ensures Tracks(ClusterFrom(inside, t, j), l) && Covered(inside, ClusterFrom(inside, t, j), l, true)
    decreases |t.agents| - j
  {
    if j < |t.agents| {
      if t.agents[j].radius > CLUSTER_RADIUS {
        SweepCorrectedTracks(inside, t, l, j, t.origin[j], 0);
        var r := SweepCorrected(inside, t, j, t.agents[j], 0);
        assert ClusterFrom(inside, t, j) == ClusterFrom(inside, r.0, r.1 + 1);
        ClusterFromTracks(inside, r.0, l, r.1 + 1);
      } else {
        ClusterFromTracks(inside, t, l, j + 1);
      }
    }
  }

  /**
   * The cluster pass keeps a subsequence of its input, each entry with its
   * own score, and removes only entries lying inside the disc of another
   * entry whose radius exceeds 0.16. So an entry inside no other cluster's
   * disc is kept, and a cluster never removes itself.
   */
  lemma ClusterTracks(l: Ranked)
    requires Parallel(l)
    ensures Tracks(Cluster(l), l) && Covered(Absorbs, Cluster(l), l, true)
  {
    StartTracks(Absorbs, l);
    ClusterFromTracks(Absorbs, Start(l), l, 0);
  }

  /** A subsequence of a list in non-increasing score order is in that order too. */
  lemma ClusterSorted(l: Ranked)
    requires Parallel(l) && NonIncreasing(l.scores)
    ensures NonIncreasing(Cluster(l).scores)
  {
    ClusterTracks(l);
    var t := Cluster(l);
    forall i, j | 0 <= i < j < |t.scores|
      ensures t.scores[i] >= t.scores[j]
    {
      assert t.origin[i] < t.origin[j];
    }
  }

  /**
   * The input [a small agent, a cluster around it]: as written the cluster
   * removes the agent, then meets itself at the agent's old position and
   * removes itself too, so nothing is left; the corrected pass keeps the
   * cluster.
   */
  lemma ClusterAsWrittenDropsCluster()
    ensures var a := Neighbour(1, Zero, 0.1, Zero);
            var c := Neighbour(2, Zero, 0.5, Zero);
            var l := Ranked([a, c], [1.5, 1.5]);
            ClusterAsWritten(l).agents == [] && Cluster(l).agents == [c]
  {
    var a := Neighbour(1, Zero, 0.1, Zero);
    var c := Neighbour(2, Zero, 0.5, Zero);
    var l := Ranked([a, c], [1.5, 1.5]);
    var t := Start(l);
    assert t.origin == [0, 1];
    assert Absorbs(c, a);
    AbsorbsItself(c);
    var t1 := Remove(t, 0);
    assert t1.agents == [c];
    assert SweepAsWritten(Absorbs, t1, 1, c, 0) == SweepAsWritten(Absorbs, Remove(t1, 0), 1, c, 0);
    assert Remove(t1, 0).agents == [];
    assert SweepAsWritten(Absorbs, t, 1, c, 0) == SweepAsWritten(Absorbs, t1, 1, c, 0);
    assert ClusterAsWrittenFrom(Absorbs, t, 0) == ClusterAsWrittenFrom(Absorbs, t, 1);
    assert SweepCorrected(Absorbs, t, 1, c, 0) == SweepCorrected(Absorbs, t1, 0, c, 0);
    assert SweepCorrected(Absorbs, t1, 0, c, 0) == SweepCorrected(Absorbs, t1, 0, c, 1);
    assert ClusterFrom(Absorbs, t, 0) == ClusterFrom(Absorbs, t, 1);
    assert ClusterFrom(Absorbs, t, 1) == ClusterFrom(Absorbs, t1, 1);
  }
}
