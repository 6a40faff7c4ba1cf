/**
 * RVOSpace: the world the agents move in. It holds the obstacle vertex
 * records (obstacleList), and three position layers (obstacleSpace,
 * agentSpace, deviceSpace). MASON's Continuous2D layers are modelled as
 * maps from the stored object to its location, with the "exactly within
 * distance" query as a closed disc.
 */
module Environment {
  import opened Geometry
  import opened Settings

  /**
   * RVO2Obstacle: one vertex of a polygonal obstacle, with the positions in
   * obstacleList of its neighbours along the boundary and its convexity flag.
   */
  datatype VertexRecord = VertexRecord(point: Vec, prev: nat, next: nat, convex: bool)

  /** An RVOObstacle: a polygon given by its vertex list, which addNewObstacle reorders in place. */
  class Obstacle {
    var vertices: seq<Vec>

    constructor(vertices: seq<Vec>)
      ensures this.vertices == vertices
    {
      this.vertices := vertices;
    }
  }

  /** What obstacleSpace stores: a vertex record (by its position in obstacleList) or a whole obstacle. */
  datatype Located = Vertex(index: nat) | Whole(obstacle: Obstacle)

  /** Every prev and next link points into the list. */
  predicate WellLinked(list: seq<VertexRecord>)
  {
    forall i :: 0 <= i < |list| ==> list[i].prev < |list| && list[i].next < |list|
  }

  // ---------------------------------------------------------------- ring

  /** The successor of vertex i among m vertices, as the link loop computes it. */
  function NextIndex(i: nat, m: nat): (r: nat)
    requires i < m
    ensures r < m
  {
    if i == m - 1 then 0 else i + 1
  }

  /** The predecessor of vertex i among m vertices. */
  function PrevIndex(i: nat, m: nat): (r: nat)
    requires i < m
    ensures r < m
  {
    if i == 0 then m - 1 else i - 1
  }

  /** The links are the modular successor and predecessor. */
  lemma RingIndicesModular(i: nat, m: nat)
    requires i < m
    ensures NextIndex(i, m) == (i + 1) % m && PrevIndex(i, m) == (i - 1 + m) % m
  {
    if i == m - 1 {
      assert (i + 1) % m == m % m == 0;
    } else {
      assert (i + 1) % m == i + 1;
    }
    if i == 0 {
      assert (i - 1 + m) % m == m - 1;
    } else {
      assert (i - 1 + m) % m == (i - 1 + m) - m;
    }
  }

  /** The links invert each other, and the first and last vertices are linked to each other. */
  lemma RingIndices(m: nat)
    requires m > 0
    ensures forall i :: 0 <= i < m ==> PrevIndex(NextIndex(i, m), m) == i && NextIndex(PrevIndex(i, m), m) == i
    ensures NextIndex(m - 1, m) == 0 && PrevIndex(0, m) == m - 1
  {
  }

  /**
   * The record built for vertex i of the (reordered) vertex list vs, whose
   * records start at position base of obstacleList: a 2-vertex obstacle is
   * convex everywhere, otherwise the flag is leftOf(prev, this, next).
   */
  function RecordAt(n: Numerics, vs: seq<Vec>, base: nat, i: nat): VertexRecord
    requires i < |vs|
  {
    var p := PrevIndex(i, |vs|);
    var q := NextIndex(i, |vs|);
    VertexRecord(vs[i], base + p, base + q,
      if |vs| == 2 then true else n.leftOf(vs[p], vs[i], vs[q]))
  }

  /** The records of a whole obstacle, in vertex order. */
  function Ring(n: Numerics, vs: seq<Vec>, base: nat): (r: seq<VertexRecord>)
    ensures |r| == |vs|
  {
    seq(|vs|, i requires 0 <= i < |vs| => RecordAt(n, vs, base, i))
  }

  /** Record k of a ring and the records it links to. */
  lemma RecordLinks(n: Numerics, vs: seq<Vec>, base: nat, k: nat)
    requires k < |vs|
    ensures var r := RecordAt(n, vs, base, k);
            var nx := RecordAt(n, vs, base, r.next - base);
            var pv := RecordAt(n, vs, base, r.prev - base);
            base <= r.next < base + |vs| && base <= r.prev < base + |vs|
            && nx.prev == base + k && pv.next == base + k
            && r.convex == (|vs| == 2 || n.leftOf(pv.point, r.point, nx.point))
  {
    RingIndices(|vs|);
  }

  /**
   * Appending an obstacle's ring keeps the list well linked: within the new
   * records next and prev invert each other, and each record's point, links
   * and convexity flag are those of its vertex.
   */
  lemma RingLinked(n: Numerics, list: seq<VertexRecord>, vs: seq<Vec>, all: seq<VertexRecord>)
    requires WellLinked(list) && all == list + Ring(n, vs, |list|)
    ensures WellLinked(all)
    ensures forall i :: |list| <= i < |all| ==>
              all[i].point == vs[i - |list|]
              && |list| <= all[i].next < |all| && |list| <= all[i].prev < |all|
              && all[all[i].next].prev == i && all[all[i].prev].next == i
              && all[i].convex == (|vs| == 2 || n.leftOf(all[all[i].prev].point, all[i].point, all[all[i].next].point))
    ensures |vs| > 0 ==> all[|list|].prev == |all| - 1 && all[|all| - 1].next == |list|
  {
    RingRecords(n, list, vs, all);
    forall i | |list| <= i < |all|
      ensures all[i].point == vs[i - |list|]
      ensures |list| <= all[i].next < |all| && |list| <= all[i].prev < |all|
      ensures all[all[i].next].prev == i && all[all[i].prev].next == i
      ensures all[i].convex == (|vs| == 2 || n.leftOf(all[all[i].prev].point, all[i].point, all[all[i].next].point))
    {
      RecordInRing(n, list, vs, all, i);
    }
    if |vs| > 0 {
      assert all[|list|] == RecordAt(n, vs, |list|, 0);
      assert all[|all| - 1] == RecordAt(n, vs, |list|, |vs| - 1);
    }
  }

  lemma RecordInRing(n: Numerics, list: seq<VertexRecord>, vs: seq<Vec>, all: seq<VertexRecord>, i: nat)
    requires WellLinked(list) && all == list + Ring(n, vs, |list|) && |list| <= i < |all|
    ensures all[i].point == vs[i - |list|]
    ensures |list| <= all[i].next < |all| && |list| <= all[i].prev < |all|
    ensures all[all[i].next].prev == i && all[all[i].prev].next == i
    ensures all[i].convex == (|vs| == 2 || n.leftOf(all[all[i].prev].point, all[i].point, all[all[i].next].point))
  {
    var base := |list|;
    var r := RecordAt(n, vs, base, i - base);
    assert all[i] == r;
    RecordLinks(n, vs, base, i - base);
    assert all[r.next] == RecordAt(n, vs, base, r.next - base);
    assert all[r.prev] == RecordAt(n, vs, base, r.prev - base);
  }

  /** The appended records are the ring's, and the old ones keep their links. */
  lemma RingRecords(n: Numerics, list: seq<VertexRecord>, vs: seq<Vec>, all: seq<VertexRecord>)
    requires WellLinked(list) && all == list + Ring(n, vs, |list|)
    ensures forall i :: |list| <= i < |all| ==> all[i] == RecordAt(n, vs, |list|, i - |list|)
    ensures WellLinked(all)
  {
    forall i | |list| <= i < |all|
      ensures all[i] == RecordAt(n, vs, |list|, i - |list|)
    {
    }
    forall i | 0 <= i < |all|
      ensures all[i].prev < |all| && all[i].next < |all|
    {
      if i >= |list| {
        assert all[i] == RecordAt(n, vs, |list|, i - |list|);
      }
    }
  }

  // ----------------------------------------------------------- winding order

  /** (x2 - x1) * (y2 + y1) for the edge from a to b. */
  function EdgeTerm(a: Vec, b: Vec): real
  {
    (b.x - a.x) * (b.y + a.y)
  }

  /** Walking an edge backwards negates its term. */
  lemma EdgeTermFlip(a: Vec, b: Vec)
    ensures EdgeTerm(b, a) == -EdgeTerm(a, b)
  {
    var u := b.x - a.x;
    var v := b.y + a.y;
    assert a.x - b.x == -u && a.y + b.y == v;
    assert (-u) * v == -(u * v);
  }

  /** The term of edge i of the closed polygon p: from p[i] to its successor. */
  function Term(p: seq<Vec>, i: nat): real
    requires i < |p|
  {
    EdgeTerm(p[i], p[NextIndex(i, |p|)])
  }

  /** The sum of the first k edge terms, accumulated exactly. */
  function EdgeSum(p: seq<Vec>, k: nat): real
    requires k <= |p|
  {
    if k == 0 then 0.0 else EdgeSum(p, k - 1) + Term(p, k - 1)
  }

  /**
   * The sum over all edges: twice the signed area with the sign flipped, so
   * negative for a counter-clockwise polygon (in a y-up frame).
   */
  function WindingSum(p: seq<Vec>): real
  {
    EdgeSum(p, |p|)
  }

  /** (int) x in Java: truncation toward zero, saturated to the int range. */
  function JavaIntOf(x: real): int
  {
    var t := if x >= 0.0 then x.Floor else -((-x).Floor);
    if t > 0x7fff_ffff then 0x7fff_ffff
    else if t < -0x8000_0000 then -0x8000_0000
    else t
  }

  /** The first k edge terms accumulated as the source does, into an int: sum = (int) (sum + term). */
  function EdgeSumAsWritten(p: seq<Vec>, k: nat): int
    requires k <= |p|
  {
    if k == 0 then 0 else JavaIntOf(EdgeSumAsWritten(p, k - 1) as real + Term(p, k - 1))
  }

  function Reverse<T>(s: seq<T>): (r: seq<T>)
    ensures |r| == |s| && forall i :: 0 <= i < |s| ==> r[i] == s[|s| - 1 - i]
  {
    if s == [] then [] else Reverse(s[1..]) + [s[0]]
  }

  /** makeRightOrder as written: the int sum decides whether the list is reversed. */
  function RightOrderAsWritten(points: seq<Vec>): (r: seq<Vec>)
    ensures r == points || r == Reverse(points)
    ensures multiset(r) == multiset(points)
  {
    ReverseMultiset(points);
    if EdgeSumAsWritten(points, |points|) < 0 then points else Reverse(points)
  }

  /** makeRightOrder with the sum kept exact, as its comment intends. */
  function RightOrder(points: seq<Vec>): (r: seq<Vec>)
    ensures r == points || r == Reverse(points)
    ensures multiset(r) == multiset(points)
  {
    ReverseMultiset(points);
    if WindingSum(points) < 0.0 then points else Reverse(points)
  }

  /** The chain of open edges p[0] -> p[1] -> ... -> p[|p| - 1]. */
  function Chain(p: seq<Vec>): real
  {
    if |p| <= 1 then 0.0 else Chain(p[..|p| - 1]) + EdgeTerm(p[|p| - 2], p[|p| - 1])
  }

  lemma {:induction false} ChainFront(a: Vec, q: seq<Vec>)
    requires |q| > 0
    ensures Chain([a] + q) == EdgeTerm(a, q[0]) + Chain(q)
    decreases |q|
  {
    if |q| > 1 {
      var s := [a] + q;
      assert s[..|s| - 1] == [a] + q[..|q| - 1];
      ChainFront(a, q[..|q| - 1]);
    }
  }

  /** Walking the chain backwards negates every term. */
  lemma {:induction false} ChainReverse(p: seq<Vec>)
    ensures Chain(Reverse(p)) == -Chain(p)
    decreases |p|
  {
    if |p| > 1 {
      var q := p[..|p| - 1];
      var last := p[|p| - 1];
      assert Reverse(p) == [last] + Reverse(q) by {
        assert |Reverse(p)| == |[last] + Reverse(q)|;
        forall i | 0 <= i < |p|
          ensures Reverse(p)[i] == ([last] + Reverse(q))[i]
        {
        }
      }
      ChainFront(last, Reverse(q));
      ChainReverse(q);
      assert Reverse(q)[0] == p[|p| - 2];
      EdgeTermFlip(p[|p| - 2], last);
    }
  }

  /** The first k edge terms are the chain over p[..k+1]. */
  lemma {:induction false} EdgeSumIsChain(p: seq<Vec>, k: nat)
    requires k < |p|
    ensures EdgeSum(p, k) == Chain(p[..k + 1])
  {
    if k > 0 {
      EdgeSumIsChain(p, k - 1);
      assert p[..k + 1][..k] == p[..k];
    }
  }

  /** The winding sum is the open chain plus the closing edge. */
  lemma WindingSumIsChain(p: seq<Vec>)
    requires |p| > 0
    ensures WindingSum(p) == Chain(p) + EdgeTerm(p[|p| - 1], p[0])
  {
    EdgeSumIsChain(p, |p| - 1);
    assert p[..|p|] == p;
  }

  /** Reversing the vertex order negates the winding sum. */
  lemma WindingSumReverse(p: seq<Vec>)
    ensures WindingSum(Reverse(p)) == -WindingSum(p)
  {
    if |p| > 0 {
      WindingSumIsChain(p);
      WindingSumIsChain(Reverse(p));
      ChainReverse(p);
      EdgeTermFlip(p[|p| - 1], p[0]);
      assert Reverse(p)[0] == p[|p| - 1] && Reverse(p)[|p| - 1] == p[0];
    }
  }

  /**
   * The reordered list holds the same vertices, is the input or its
   * reverse, and winds counter-clockwise: its winding sum is -|sum|.
   */
  lemma RightOrderWinds(points: seq<Vec>)
    ensures var r := RightOrder(points);
            (r == points || r == Reverse(points))
            && multiset(r) == multiset(points)
            && WindingSum(r) <= 0.0
            && (WindingSum(points) != 0.0 ==> WindingSum(r) < 0.0)
  {
    WindingSumReverse(points);
    ReverseMultiset(points);
  }

  lemma {:induction false} ReverseMultiset<T>(s: seq<T>)
    ensures multiset(Reverse(s)) == multiset(s)
    decreases |s|
  {
    if s != [] {
      ReverseMultiset(s[1..]);
      assert s == [s[0]] + s[1..];
    }
  }

  /** While every partial int sum is zero and each term lies in (-1, 1), the int sum stays zero. */
  lemma {:induction false} SmallTermsVanish(p: seq<Vec>, k: nat)
    requires k <= |p|
    requires forall i :: 0 <= i < k ==> -1.0 < Term(p, i) < 1.0
    ensures EdgeSumAsWritten(p, k) == 0
  {
    if k > 0 {
      SmallTermsVanish(p, k - 1);
    }
  }

  /**
   * The counter-clockwise square of side 0.5: its exact winding sum is -0.5,
   * but every edge term truncates to 0, so as written the sum is 0, the
   * list is reversed and comes out clockwise.
   */
  lemma RightOrderAsWrittenReversesSmallSquare(sq: seq<Vec>)
    requires sq == [Vec(0.0, 0.0), Vec(0.5, 0.0), Vec(0.5, 0.5), Vec(0.0, 0.5)]
    ensures WindingSum(sq) == -0.5
    ensures RightOrderAsWritten(sq) == Reverse(sq) && WindingSum(RightOrderAsWritten(sq)) == 0.5
    ensures RightOrder(sq) == sq
  {
    SmallSquareSum(sq);
    SmallTermsVanish(sq, 4);
    WindingSumReverse(sq);
  }

  /** The edge terms of the square: all 0 but the top edge's -0.5. */
  lemma SmallSquareTerms(sq: seq<Vec>)
    requires sq == [Vec(0.0, 0.0), Vec(0.5, 0.0), Vec(0.5, 0.5), Vec(0.0, 0.5)]
    ensures Term(sq, 0) == EdgeTerm(Vec(0.0, 0.0), Vec(0.5, 0.0))
    ensures Term(sq, 1) == EdgeTerm(Vec(0.5, 0.0), Vec(0.5, 0.5))
    ensures Term(sq, 2) == EdgeTerm(Vec(0.5, 0.5), Vec(0.0, 0.5))
    ensures Term(sq, 3) == EdgeTerm(Vec(0.0, 0.5), Vec(0.0, 0.0))
  {
    assert |sq| == 4;
    assert NextIndex(0, 4) == 1 && NextIndex(1, 4) == 2 && NextIndex(2, 4) == 3 && NextIndex(3, 4) == 0;
    assert sq[0] == Vec(0.0, 0.0) && sq[1] == Vec(0.5, 0.0) && sq[2] == Vec(0.5, 0.5) && sq[3] == Vec(0.0, 0.5);
  }

  lemma SmallSquareSum(sq: seq<Vec>)
    requires sq == [Vec(0.0, 0.0), Vec(0.5, 0.0), Vec(0.5, 0.5), Vec(0.0, 0.5)]
    ensures forall i :: 0 <= i < 4 ==> -1.0 < Term(sq, i) < 1.0
    ensures WindingSum(sq) == -0.5
  {
    SmallSquareTerms(sq);
    assert EdgeTerm(Vec(0.5, 0.5), Vec(0.0, 0.5)) == -0.5;
    assert EdgeSum(sq, 1) == Term(sq, 0);
    assert EdgeSum(sq, 2) == EdgeSum(sq, 1) + Term(sq, 1);
    assert EdgeSum(sq, 3) == EdgeSum(sq, 2) + Term(sq, 2);
    assert EdgeSum(sq, 4) == EdgeSum(sq, 3) + Term(sq, 3);
  }

  // -------------------------------------------------------------- visibility

  /** Record k's edge (its point to its successor's point) crosses the segment from p1 to p2. */
  predicate Blocks(n: Numerics, list: seq<VertexRecord>, k: nat, p1: Vec, p2: Vec)
    requires k < |list|
  {
    list[k].next < |list| && n.segmentsIntersect(p1, p2, list[k].point, list[list[k].next].point)
  }

  /** The loop of visibleFrom from record i on; it returns false at the first blocking edge. */
  function VisibleFromAt(n: Numerics, list: seq<VertexRecord>, goal: Vec, position: Vec, i: nat): (r: bool)
    requires i <= |list|
    ensures r <==> forall k :: i <= k < |list| ==> !Blocks(n, list, k, position, goal)
    decreases |list| - i
  {
    if i == |list| then true
    else if Blocks(n, list, i, position, goal) then false
    else VisibleFromAt(n, list, goal, position, i + 1)
  }

  /**
   * visibleFrom(goal, position): false exactly when some record's edge crosses
   * the segment from position to goal; with no records everything is visible.
   */
  function VisibleFrom(n: Numerics, list: seq<VertexRecord>, goal: Vec, position: Vec): (r: bool)
    ensures !r <==> exists k :: 0 <= k < |list| && Blocks(n, list, k, position, goal)
    ensures list == [] ==> r
  {
    VisibleFromAt(n, list, goal, position, 0)
  }

  /** Adding obstacles never makes a point visible that was not. */
  lemma VisibleFromAppend(n: Numerics, list: seq<VertexRecord>, more: seq<VertexRecord>, goal: Vec, position: Vec)
    requires WellLinked(list)
    ensures VisibleFrom(n, list + more, goal, position) ==> VisibleFrom(n, list, goal, position)
  {
    if VisibleFrom(n, list + more, goal, position) {
      forall k | 0 <= k < |list|
        ensures !Blocks(n, list, k, position, goal)
      {
        assert !Blocks(n, list + more, k, position, goal);
        assert (list + more)[k] == list[k];
        assert (list + more)[list[k].next] == list[list[k].next];
      }
    }
  }

  // ----------------------------------------------------------------- queries

  /** getObjectsExactlyWithinDistance: the stored objects whose location lies in the closed disc. */
  function WithinDistance<K>(layer: map<K, Vec>, centre: Vec, radius: real): (r: set<K>)
    ensures r <= layer.Keys
  {
    set k | k in layer && WithinLength(Sub(layer[k], centre), radius)
  }

  /** With a sound square root, the query holds exactly the objects at distance at most radius. */
  lemma WithinDistanceIsDistance<K>(n: Numerics, layer: map<K, Vec>, centre: Vec, radius: real)
    requires forall k :: k in layer ==> SqrtSoundAt(n, SqLength(Sub(layer[k], centre)))
    ensures forall k :: k in WithinDistance(layer, centre, radius) <==>
              k in layer && Distance(n, layer[k], centre) <= radius
  {
    forall k | k in layer
      ensures k in WithinDistance(layer, centre, radius) <==> Distance(n, layer[k], centre) <= radius
    {
      WithinLengthIsLength(n, Sub(layer[k], centre), radius);
    }
  }

  /** A larger disc finds everything a smaller one does. */
  lemma WithinDistanceMonotonic<K>(layer: map<K, Vec>, centre: Vec, r1: real, r2: real)
    requires 0.0 <= r1 <= r2
    ensures WithinDistance(layer, centre, r1) <= WithinDistance(layer, centre, r2)
  {
    SquareMonotonic(r1, r2);
  }

  class Space {
    var obstacleList: seq<VertexRecord>
    var obstacleSpace: map<Located, Vec>
    /** Agent locations, by agent id. */
    var agentSpace: map<int, Vec>
    /** Device locations, by the id of the agent carrying the device. */
    var deviceSpace: map<int, Vec>

    /** The vertex records are well linked and each is stored at its own point. */
    ghost predicate Valid()
      reads this
    {
      WellLinked(obstacleList)
      && forall i: nat :: Vertex(i) in obstacleSpace ==> i < |obstacleList| && obstacleSpace[Vertex(i)] == obstacleList[i].point
    }

    constructor()
      ensures Valid()
      ensures obstacleList == [] && obstacleSpace == map[] && agentSpace == map[] && deviceSpace == map[]
    {
      obstacleList := [];
      obstacleSpace := map[];
      agentSpace := map[];
      deviceSpace := map[];
    }

    /** senseNeighbours(me): the agents within SENSOR_RANGE * radius of the agent's position. */
    function SenseNeighbours(s: Settings, position: Vec, radius: real): (r: set<int>)
      reads this
      ensures forall id :: id in r <==> id in agentSpace && WithinLength(Sub(agentSpace[id], position), SensingRadius(s, radius))
    {
      WithinDistance(agentSpace, position, SensingRadius(s, radius))
    }

    /** senseObstacles(me): the obstacle entries within the same disc. */
    function SenseObstacles(s: Settings, position: Vec, radius: real): (r: set<Located>)
      reads this
      ensures r <= obstacleSpace.Keys
      ensures forall k :: k in obstacleSpace ==> (k in r <==> WithinLength(Sub(obstacleSpace[k], position), SensingRadius(s, radius)))
    {
      WithinDistance(obstacleSpace, position, SensingRadius(s, radius))
    }

    /** updatePositionOnMap: the agent, and its device if it has one, are stored at (x, y). */
    method UpdatePositionOnMap(id: int, hasDevice: bool, x: real, y: real)
      modifies this
      ensures agentSpace == old(agentSpace)[id := Vec(x, y)]
      ensures deviceSpace == if hasDevice then old(deviceSpace)[id := Vec(x, y)] else old(deviceSpace)
      ensures obstacleList == old(obstacleList) && obstacleSpace == old(obstacleSpace)
    {
      agentSpace := agentSpace[id := Vec(x, y)];
      if hasDevice {
        deviceSpace := deviceSpace[id := Vec(x, y)];
      }
    }

    /** makeRightOrder, with the sum accumulated exactly. */
    static method MakeRightOrder(points: seq<Vec>) returns (r: seq<Vec>)
      ensures r == RightOrder(points)
    {
      var sum := 0.0;
      var i := 0;
      while i < |points|
        invariant i <= |points| && sum == EdgeSum(points, i)
      {
        var current := points[i];
        var next := points[(i + 1) % |points|];
        RingIndicesModular(i, |points|);
        sum := sum + (next.x - current.x) * (next.y + current.y);
        i := i + 1;
      }
      if sum < 0.0 {
        r := points;
      } else {
        r := Reverse(points);
      }
    }

    /**
     * addNewObstacle. With vertex obstacles the polygon is reordered, and one
     * linked record per vertex is appended to obstacleList and stored at its
     * point; otherwise the obstacle itself is stored at each vertex in turn,
     * so it ends up at the last one.
     */
    method AddNewObstacle(n: Numerics, s: Settings, obstacle: Obstacle)
      requires Valid()
      modifies this, obstacle
      ensures Valid()
      ensures UsesVertexObstacles(s) ==>
                obstacle.vertices == RightOrder(old(obstacle.vertices))
                && obstacleList == old(obstacleList) + Ring(n, obstacle.vertices, |old(obstacleList)|)
                && (forall k :: k in obstacleSpace <==> k in old(obstacleSpace) || (k.Vertex? && |old(obstacleList)| <= k.index < |obstacleList|))
                && (forall k :: k in old(obstacleSpace) && !(k.Vertex? && k.index >= |old(obstacleList)|) ==> obstacleSpace[k] == old(obstacleSpace)[k])
      ensures !UsesVertexObstacles(s) ==>
                obstacle.vertices == old(obstacle.vertices) && obstacleList == old(obstacleList)
                && obstacleSpace == if |obstacle.vertices| == 0 then old(obstacleSpace)
                                    else old(obstacleSpace)[Whole(obstacle) := obstacle.vertices[|obstacle.vertices| - 1]]
      ensures agentSpace == old(agentSpace) && deviceSpace == old(deviceSpace)
    {
      if UsesVertexObstacles(s) {
        var ordered := MakeRightOrder(obstacle.vertices);
        obstacle.vertices := ordered;
        AppendRing(n, ordered);
      } else {
        StoreWhole(obstacle);
      }
    }

    /** The vertex branch of addNewObstacle: one linked record per vertex, each stored at its point. */
    method AppendRing(n: Numerics, ordered: seq<Vec>)
      requires Valid()
      modifies this
      ensures Valid()
      ensures obstacleList == old(obstacleList) + Ring(n, ordered, |old(obstacleList)|)
      ensures forall k :: k in obstacleSpace <==> k in old(obstacleSpace) || (k.Vertex? && |old(obstacleList)| <= k.index < |obstacleList|)
      ensures forall k :: k in old(obstacleSpace) && !(k.Vertex? && k.index >= |old(obstacleList)|) ==> obstacleSpace[k] == old(obstacleSpace)[k]
      ensures agentSpace == old(agentSpace) && deviceSpace == old(deviceSpace)
    {
      ghost var base := |obstacleList|;
      AppendRecords(n, ordered);
      assert obstacleList == old(obstacleList) + Ring(n, ordered, base) by {
        assert obstacleList[..base] == old(obstacleList);
        assert obstacleList[base..] == Ring(n, ordered, base);
        assert obstacleList == obstacleList[..base] + obstacleList[base..];
      }
      RingRecords(n, old(obstacleList), ordered, obstacleList);
    }

    /** The loop of the vertex branch: record i is appended and stored under its index. */
    method AppendRecords(n: Numerics, ordered: seq<Vec>)
      modifies this`obstacleList, this`obstacleSpace
      ensures |obstacleList| == |old(obstacleList)| + |ordered| && obstacleList[..|old(obstacleList)|] == old(obstacleList)
      ensures forall j :: |old(obstacleList)| <= j < |obstacleList| ==> obstacleList[j] == RecordAt(n, ordered, |old(obstacleList)|, j - |old(obstacleList)|)
      ensures forall k :: k in obstacleSpace <==> k in old(obstacleSpace) || (k.Vertex? && |old(obstacleList)| <= k.index < |obstacleList|)
      ensures forall k :: k in old(obstacleSpace) && !(k.Vertex? && k.index >= |old(obstacleList)|) ==> obstacleSpace[k] == old(obstacleSpace)[k]
      ensures forall j :: |old(obstacleList)| <= j < |obstacleList| ==> obstacleSpace[Vertex(j)] == obstacleList[j].point
      ensures agentSpace == old(agentSpace) && deviceSpace == old(deviceSpace)
    {
      var before, stored := obstacleList, obstacleSpace;
      var list, space := before, stored;
      var base := |before|;
      var i := 0;
      while i < |ordered|
        invariant i <= |ordered|
        invariant |list| == base + i && list[..base] == before
        invariant forall j :: base <= j < base + i ==> list[j] == RecordAt(n, ordered, base, j - base)
        invariant forall k :: k in space <==> k in stored || (k.Vertex? && base <= k.index < base + i)
        invariant forall k :: k in stored && !(k.Vertex? && k.index >= base) ==> space[k] == stored[k]
        invariant forall j :: base <= j < base + i ==> space[Vertex(j)] == list[j].point
      {
        var record := RecordAt(n, ordered, base, i);
        StoredStep(stored, space, base, i, record.point);
        RecordStep(n, ordered, before, list, space, base, i);
        list := list + [record];
        space := space[Vertex(base + i) := record.point];
        i := i + 1;
      }
      obstacleList, obstacleSpace := list, space;
    }

    /** Storing the point of vertex base + i keeps the key set and the earlier entries as the loop promises. */
    static lemma StoredStep(before: map<Located, Vec>, space: map<Located, Vec>, base: nat, i: nat, p: Vec)
      requires forall k :: k in space <==> k in before || (k.Vertex? && base <= k.index < base + i)
      requires forall k :: k in before && !(k.Vertex? && k.index >= base) ==> space[k] == before[k]
      ensures forall k :: k in space[Vertex(base + i) := p] <==> k in before || (k.Vertex? && base <= k.index < base + i + 1)
      ensures forall k :: k in before && !(k.Vertex? && k.index >= base) ==> space[Vertex(base + i) := p][k] == before[k]
    {
      forall k | k in before && !(k.Vertex? && k.index >= base)
        ensures space[Vertex(base + i) := p][k] == before[k]
      {
        assert k != Vertex(base + i);
      }
    }

    /** Appending record i and storing its point keeps the list's records and their stored points as the loop promises. */
    static lemma RecordStep(n: Numerics, ordered: seq<Vec>, before: seq<VertexRecord>, list: seq<VertexRecord>,
                            space: map<Located, Vec>, base: nat, i: nat)
      requires i < |ordered| && |before| == base
      requires |list| == base + i && list[..base] == before
      requires forall j :: base <= j < base + i ==> list[j] == RecordAt(n, ordered, base, j - base)
      requires forall j :: base <= j < base + i ==> Vertex(j) in space && space[Vertex(j)] == list[j].point
      ensures var list' := list + [RecordAt(n, ordered, base, i)];
              |list'| == base + i + 1 && list'[..base] == before
              && (forall j :: base <= j < base + i + 1 ==> list'[j] == RecordAt(n, ordered, base, j - base))
              && forall j :: base <= j < base + i + 1 ==>
                   space[Vertex(base + i) := RecordAt(n, ordered, base, i).point][Vertex(j)] == list'[j].point
    {
      var record := RecordAt(n, ordered, base, i);
      var list' := list + [record];
      assert list'[..base] == list[..base];
      forall j | base <= j < base + i + 1
        ensures list'[j] == RecordAt(n, ordered, base, j - base)
        ensures space[Vertex(base + i) := record.point][Vertex(j)] == list'[j].point
      {
        if j < base + i {
          assert list'[j] == list[j];
        }
      }
    }

    /** The other branch: the obstacle is stored at each vertex in turn. */
    method StoreWhole(obstacle: Obstacle)
      requires Valid()
      modifies this
      ensures Valid()
      ensures obstacleList == old(obstacleList)
      ensures obstacleSpace == if |obstacle.vertices| == 0 then old(obstacleSpace)
                               else old(obstacleSpace)[Whole(obstacle) := obstacle.vertices[|obstacle.vertices| - 1]]
      ensures agentSpace == old(agentSpace) && deviceSpace == old(deviceSpace)
    {
      var vs := obstacle.vertices;
      var i := 0;
      while i < |vs|
        invariant i <= |vs|
        invariant obstacleSpace == if i == 0 then old(obstacleSpace) else old(obstacleSpace)[Whole(obstacle) := vs[i - 1]]
        invariant obstacleList == old(obstacleList)
        invariant agentSpace == old(agentSpace) && deviceSpace == old(deviceSpace)
      {
        obstacleSpace := obstacleSpace[Whole(obstacle) := vs[i]];
        i := i + 1;
      }
    }
  }
}
