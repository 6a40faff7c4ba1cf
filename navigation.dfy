/**
 * Waypoint selection (RVOAgent.determinePrefVelocity and tryWeakTest). The
 * road map holds numbered groups of waypoints; the groups are scanned from
 * the last to the first, and in the first group holding a waypoint that
 * passes the visibility test the nearest such waypoint is steered to. The
 * strong test asks for visibility from two probes beside the agent, one
 * RADIUS to each side of its heading; the weak fallback asks for
 * visibility from the agent's position alone.
 */
module Navigation {
  import opened Wrappers
  import opened Geometry
  import opened Environment

  /**
   * The road map, HashMultimap<Integer, Point2d>: group i holds its
   * waypoints in the order the group's hash set iterates them.
   */
  type RoadMap = map<int, seq<Vec>>

  /** roadMap.keySet().size() */
  function GroupCount(rm: RoadMap): nat
  {
    |rm.Keys|
  }

  /** roadMap.get(i): empty for a key that is not in the map. */
  function Group(rm: RoadMap, i: int): seq<Vec>
  {
    if i in rm then rm[i] else []
  }

  /** getFinalGoal: the first waypoint of group size-1; None when that group is empty. */
  function FinalGoal(rm: RoadMap): (r: Option<Vec>)
    ensures r.Some? <==> |Group(rm, GroupCount(rm) - 1)| > 0
    ensures r.Some? ==> r.value in Group(rm, GroupCount(rm) - 1)
  {
    var g := Group(rm, GroupCount(rm) - 1);
    if |g| > 0 then Some(g[0]) else None
  }

  // ------------------------------------------------------------------ probes

  /** The heading: the velocity, normalised unless both components are 0. */
  function UnitVelocity(n: Numerics, velocity: Vec): Vec
  {
    if velocity.x != 0.0 || velocity.y != 0.0 then Normalize(n, velocity) else velocity
  }

  /** agentTopPosition: a radius to the left of the heading. */
  function TopProbe(position: Vec, unit: Vec, radius: real): Vec
  {
    Vec(position.x - unit.y * radius, position.y + unit.x * radius)
  }

  /** agentBottomPosition: a radius to the right of the heading. */
  function BottomProbe(position: Vec, unit: Vec, radius: real): Vec
  {
    Vec(position.x + unit.y * radius, position.y - unit.x * radius)
  }

  /** The points a waypoint must be visible from: both side probes, or the position alone. */
  function Probes(n: Numerics, position: Vec, velocity: Vec, radius: real, strong: bool): (r: seq<Vec>)
    ensures strong ==> |r| == 2
    ensures !strong ==> r == [position]
  {
    if strong then
      var u := UnitVelocity(n, velocity);
      [TopProbe(position, u, radius), BottomProbe(position, u, radius)]
    else [position]
  }

  /**
   * For a moving agent the probes lie on either side of its position, at
   * distance exactly radius, on the line perpendicular to its heading.
   */
  lemma ProbesBesideAgent(n: Numerics, position: Vec, velocity: Vec, radius: real)
    requires SqrtSound(n) && velocity != Zero
    ensures var p := Probes(n, position, velocity, radius, true);
            SqLength(Sub(p[0], position)) == radius * radius
            && SqLength(Sub(p[1], position)) == radius * radius
            && Add(p[0], p[1]) == Scale(2.0, position)
            && Dot(Sub(p[0], position), velocity) == 0.0
  {
    NonZeroHasLength(velocity);
    assert SqrtSoundAt(n, SqLength(velocity));
    NormalizeIsUnit(n, velocity);
    var u := UnitVelocity(n, velocity);
    var l := Length(n, velocity);
    assert u == Scale(1.0 / l, velocity);
    var d := Sub(TopProbe(position, u, radius), position);
    assert d == Vec(-u.y * radius, u.x * radius);
    calc {
      SqLength(d);
      (u.y * radius) * (u.y * radius) + (u.x * radius) * (u.x * radius);
      (u.x * u.x + u.y * u.y) * (radius * radius);
      radius * radius;
    }
    calc {
      Dot(d, velocity);
      -u.y * radius * velocity.x + u.x * radius * velocity.y;
      radius * (1.0 / l) * (-velocity.y * velocity.x + velocity.x * velocity.y);
      0.0;
    }
  }

  /** The waypoint is visible from every probe. */
  predicate Passes(n: Numerics, list: seq<VertexRecord>, probes: seq<Vec>, w: Vec)
  {
    forall i :: 0 <= i < |probes| ==> VisibleFrom(n, list, w, probes[i])
  }

  // ------------------------------------------------------- nearest in a group

  /**
   * The inner loop over one group: minDistance starts at Double.MAX_VALUE and
   * a passing waypoint replaces the current choice only when strictly nearer.
   */
  function NearestIndex(n: Numerics, list: seq<VertexRecord>, probes: seq<Vec>, position: Vec, g: seq<Vec>): (r: Option<nat>)
    ensures r.Some? ==> r.value < |g|
    decreases |g|
  {
    if g == [] then None
    else
      var init := g[..|g| - 1];
      var prev := NearestIndex(n, list, probes, position, init);
      var m := if prev.Some? then Distance(n, position, init[prev.value]) else DOUBLE_MAX;
      var w := g[|g| - 1];
      if Passes(n, list, probes, w) && Distance(n, position, w) < m then Some(|g| - 1) else prev
  }

  /**
   * The chosen index is that of the nearest passing waypoint closer than
   * Double.MAX_VALUE, the first of them on ties, and there is no choice
   * exactly when no passing waypoint is that close.
   */
  lemma {:induction false} NearestIndexIsNearest(n: Numerics, list: seq<VertexRecord>, probes: seq<Vec>, position: Vec, g: seq<Vec>)
    ensures var r := NearestIndex(n, list, probes, position, g);
            (r.Some? ==> r.value < |g| && Passes(n, list, probes, g[r.value])
                         && Distance(n, position, g[r.value]) < DOUBLE_MAX)
            && (r.Some? ==> forall j :: 0 <= j < |g| && Passes(n, list, probes, g[j]) ==>
                              Distance(n, position, g[r.value]) <= Distance(n, position, g[j]))
            && (r.Some? ==> forall j :: 0 <= j < r.value && Passes(n, list, probes, g[j]) ==>
                              Distance(n, position, g[r.value]) < Distance(n, position, g[j]))
            && (r.None? <==> forall j :: 0 <= j < |g| && Passes(n, list, probes, g[j]) ==>
                              Distance(n, position, g[j]) >= DOUBLE_MAX)
    decreases |g|
  {
    if g != [] {
      var init := g[..|g| - 1];
      NearestIndexIsNearest(n, list, probes, position, init);
      assert forall j :: 0 <= j < |init| ==> init[j] == g[j];
    }
  }

  // ------------------------------------------------------------ group scan

  /** A waypoint of the road map: group number and position in the group. */
  datatype Choice = Choice(group: int, index: nat)

  /**
   * The outer loop from group i down to group 0: the first group with a
   * choice wins. Groups above i are not looked at.
   */
  function SelectFrom(n: Numerics, list: seq<VertexRecord>, probes: seq<Vec>, position: Vec, rm: RoadMap, i: int): (r: Option<Choice>)
    ensures r.Some? ==> 0 <= r.value.group <= i && r.value.index < |Group(rm, r.value.group)|
    decreases i + 1
  {
    if i < 0 then None
    else match NearestIndex(n, list, probes, position, Group(rm, i))
      case Some(k) => Some(Choice(i, k))
      case None => SelectFrom(n, list, probes, position, rm, i - 1)
  }

  /**
   * The winning group is the highest one, at or below i, whose inner loop
   * makes a choice, and the choice is that loop's; there is none exactly
   * when no group from i down to 0 makes one.
   */
  lemma {:induction false} SelectFromIsFirst(n: Numerics, list: seq<VertexRecord>, probes: seq<Vec>, position: Vec, rm: RoadMap, i: int)
    ensures var r := SelectFrom(n, list, probes, position, rm, i);
            (r.Some? ==> NearestIndex(n, list, probes, position, Group(rm, r.value.group)) == Some(r.value.index)
                         && forall j :: r.value.group < j <= i ==> NearestIndex(n, list, probes, position, Group(rm, j)).None?)
            && (r.None? <==> forall j :: 0 <= j <= i ==> NearestIndex(n, list, probes, position, Group(rm, j)).None?)
    decreases i + 1
  {
    SelectFromChoice(n, list, probes, position, rm, i);
    SelectFromNone(n, list, probes, position, rm, i);
  }

  /** A choice is its group's inner-loop choice, and no group above it up to i makes one. */
  lemma {:induction false} SelectFromChoice(n: Numerics, list: seq<VertexRecord>, probes: seq<Vec>, position: Vec, rm: RoadMap, i: int)
    ensures var r := SelectFrom(n, list, probes, position, rm, i);
            r.Some? ==> NearestIndex(n, list, probes, position, Group(rm, r.value.group)) == Some(r.value.index)
                        && forall j :: r.value.group < j <= i ==> NearestIndex(n, list, probes, position, Group(rm, j)).None?
    decreases i + 1
  {
    if i >= 0 && NearestIndex(n, list, probes, position, Group(rm, i)).None? {
      assert SelectFrom(n, list, probes, position, rm, i) == SelectFrom(n, list, probes, position, rm, i - 1);
      SelectFromChoice(n, list, probes, position, rm, i - 1);
    }
  }

  /** There is no choice exactly when no group from i down to 0 makes one. */
  lemma {:induction false} SelectFromNone(n: Numerics, list: seq<VertexRecord>, probes: seq<Vec>, position: Vec, rm: RoadMap, i: int)
    ensures SelectFrom(n, list, probes, position, rm, i).None? <==>
            forall j :: 0 <= j <= i ==> NearestIndex(n, list, probes, position, Group(rm, j)).None?
    decreases i + 1
  {
    if i >= 0 {
      SelectFromNone(n, list, probes, position, rm, i - 1);
    }
  }

  /** The scan over the whole road map, from group size-1 down. */
  function Select(n: Numerics, list: seq<VertexRecord>, probes: seq<Vec>, position: Vec, rm: RoadMap): Option<Choice>
  {
    SelectFrom(n, list, probes, position, rm, GroupCount(rm) - 1)
  }

  /** The waypoint a choice names. */
  function Waypoint(rm: RoadMap, c: Choice): Vec
    requires c.index < |Group(rm, c.group)|
  {
    Group(rm, c.group)[c.index]
  }

  /**
   * The chosen waypoint passes the test and is nearest among the passing
   * waypoints of its group, and every higher group has no passing waypoint
   * closer than Double.MAX_VALUE.
   */
  lemma SelectIsNearest(n: Numerics, list: seq<VertexRecord>, probes: seq<Vec>, position: Vec, rm: RoadMap)
    requires Select(n, list, probes, position, rm).Some?
    ensures var c := Select(n, list, probes, position, rm).value;
            var g := Group(rm, c.group);
            c.index < |g| && Passes(n, list, probes, g[c.index])
            && (forall j :: 0 <= j < |g| && Passes(n, list, probes, g[j]) ==>
                  Distance(n, position, g[c.index]) <= Distance(n, position, g[j]))
            && (forall h, j :: (c.group < h < GroupCount(rm) && 0 <= j < |Group(rm, h)| && Passes(n, list, probes, Group(rm, h)[j]))
                  ==> Distance(n, position, Group(rm, h)[j]) >= DOUBLE_MAX)
  {
    var c := Select(n, list, probes, position, rm).value;
    SelectFromChoice(n, list, probes, position, rm, GroupCount(rm) - 1);
    NearestIndexIsNearest(n, list, probes, position, Group(rm, c.group));
    forall h, j | c.group < h < GroupCount(rm) && 0 <= j < |Group(rm, h)| && Passes(n, list, probes, Group(rm, h)[j])
      ensures Distance(n, position, Group(rm, h)[j]) >= DOUBLE_MAX
    {
      NearestIndexIsNearest(n, list, probes, position, Group(rm, h));
    }
  }

  /** There is no choice exactly when no group has a passing waypoint closer than Double.MAX_VALUE. */
  lemma SelectNone(n: Numerics, list: seq<VertexRecord>, probes: seq<Vec>, position: Vec, rm: RoadMap)
    ensures Select(n, list, probes, position, rm).None? <==>
              forall h, j :: (0 <= h < GroupCount(rm) && 0 <= j < |Group(rm, h)| && Passes(n, list, probes, Group(rm, h)[j]))
                ==> Distance(n, position, Group(rm, h)[j]) >= DOUBLE_MAX
  {
    SelectFromNone(n, list, probes, position, rm, GroupCount(rm) - 1);
    forall h | 0 <= h < GroupCount(rm)
      ensures NearestIndex(n, list, probes, position, Group(rm, h)).None? <==>
                forall j :: 0 <= j < |Group(rm, h)| && Passes(n, list, probes, Group(rm, h)[j]) ==>
                  Distance(n, position, Group(rm, h)[j]) >= DOUBLE_MAX
    {
      NearestIndexIsNearest(n, list, probes, position, Group(rm, h));
    }
  }

  // --------------------------------------------------------------- steering

  /** The outcome of determinePrefVelocity: the direction, and the waypoint passed to setCurrentGoal. */
  datatype Steering = Steering(direction: Vec, waypoint: Option<Vec>)

  /** The direction from the position to a waypoint, normalised. */
  function Toward(n: Numerics, position: Vec, w: Vec): Vec
  {
    Normalize(n, Sub(w, position))
  }

  /** tryWeakTest: the single-probe scan, or the zero vector when nothing passes. */
  function WeakSteering(n: Numerics, list: seq<VertexRecord>, rm: RoadMap, position: Vec): Steering
  {
    match Select(n, list, Probes(n, position, Zero, 0.0, false), position, rm)
    case Some(c) =>
      var w := Waypoint(rm, c);
      Steering(Toward(n, position, w), Some(w))
    case None => Steering(Zero, None)
  }

  /** determinePrefVelocity: the two-probe scan first, then tryWeakTest. */
  function PrefDirection(n: Numerics, list: seq<VertexRecord>, rm: RoadMap, position: Vec, velocity: Vec, radius: real): (r: Steering)
    ensures r.waypoint.None? ==> r.direction == Zero
  {
    match Select(n, list, Probes(n, position, velocity, radius, true), position, rm)
    case Some(c) =>
      var w := Waypoint(rm, c);
      Steering(Toward(n, position, w), Some(w))
    case None => WeakSteering(n, list, rm, position)
  }

  /**
   * The waypoint steered to passes the strong test when any waypoint does;
   * only when none does is the weak test used, and the zero direction with no
   * waypoint when neither finds one.
   */
  lemma PrefDirectionFallback(n: Numerics, list: seq<VertexRecord>, rm: RoadMap, position: Vec, velocity: Vec, radius: real)
    ensures var r := PrefDirection(n, list, rm, position, velocity, radius);
            var strong := Probes(n, position, velocity, radius, true);
            var weak := Probes(n, position, velocity, radius, false);
            (r.waypoint.None? <==>
               forall j :: 0 <= j < GroupCount(rm) ==>
                 NearestIndex(n, list, strong, position, Group(rm, j)).None?
                 && NearestIndex(n, list, weak, position, Group(rm, j)).None?)
            && (r.waypoint.None? ==> r.direction == Zero)
            && (r.waypoint.Some? ==>
                  (Passes(n, list, strong, r.waypoint.value)
                   || (Passes(n, list, weak, r.waypoint.value)
                       && forall j :: 0 <= j < GroupCount(rm) ==> NearestIndex(n, list, strong, position, Group(rm, j)).None?)))
  {
    var strong := Probes(n, position, velocity, radius, true);
    var weak := Probes(n, position, velocity, radius, false);
    assert weak == Probes(n, position, Zero, 0.0, false);
    var s := Select(n, list, strong, position, rm);
    var w := Select(n, list, weak, position, rm);
    SelectFromIsFirst(n, list, strong, position, rm, GroupCount(rm) - 1);
    SelectFromIsFirst(n, list, weak, position, rm, GroupCount(rm) - 1);
    if s.Some? {
      NearestIndexIsNearest(n, list, strong, position, Group(rm, s.value.group));
    } else if w.Some? {
      NearestIndexIsNearest(n, list, weak, position, Group(rm, w.value.group));
    }
  }

  /**
   * The direction is a unit vector when a waypoint away from the agent was
   * chosen, and the zero vector when the waypoint is the position itself or
   * there is none.
   */
  lemma PrefDirectionUnitOrZero(n: Numerics, list: seq<VertexRecord>, rm: RoadMap, position: Vec, velocity: Vec, radius: real)
    requires SqrtSound(n)
    ensures var r := PrefDirection(n, list, rm, position, velocity, radius);
            (r.waypoint.Some? && r.waypoint.value != position ==> SqLength(r.direction) == 1.0)
            && (r.waypoint.None? || r.waypoint.value == position ==> r.direction == Zero)
  {
    var r := PrefDirection(n, list, rm, position, velocity, radius);
    if r.waypoint.Some? {
      var d := Sub(r.waypoint.value, position);
      assert r.direction == Normalize(n, d);
      assert SqrtSoundAt(n, SqLength(d));
      if r.waypoint.value != position {
        assert d != Zero;
        NonZeroHasLength(d);
        NormalizeIsUnit(n, d);
      } else {
        assert d == Zero;
      }
    }
  }

  // ---------------------------------------------------------------- loops

  /** The inner for-each loop of determinePrefVelocity and tryWeakTest, over one group. */
  method NearestInGroup(n: Numerics, list: seq<VertexRecord>, probes: seq<Vec>, position: Vec, g: seq<Vec>)
    returns (local: Option<nat>)
    ensures local == NearestIndex(n, list, probes, position, g)
  {
    var minDistance := DOUBLE_MAX;
    local := None;
    var j := 0;
    while j < |g|
      invariant j <= |g|
      invariant local == NearestIndex(n, list, probes, position, g[..j])
      invariant minDistance == if local.Some? then Distance(n, position, g[local.value]) else DOUBLE_MAX
    {
      var w := g[j];
      assert g[..j + 1][..j] == g[..j];
      if Passes(n, list, probes, w) {
        var d := Distance(n, position, w);
        if d < minDistance {
          minDistance := d;
          local := Some(j);
        }
      }
      j := j + 1;
    }
    assert g[..j] == g;
  }

  /** The outer loop: groups from size-1 down to 0, stopping at the first with a choice. */
  method ScanGroups(n: Numerics, list: seq<VertexRecord>, probes: seq<Vec>, position: Vec, rm: RoadMap)
    returns (r: Option<Choice>)
    ensures r == Select(n, list, probes, position, rm)
  {
    var i: int := GroupCount(rm) - 1;
    r := None;
    while i >= 0
      invariant i >= -1
      invariant SelectFrom(n, list, probes, position, rm, i) == Select(n, list, probes, position, rm)
    {
      var local := NearestInGroup(n, list, probes, position, Group(rm, i));
      if local.Some? {
        r := Some(Choice(i, local.value));
        assert r == SelectFrom(n, list, probes, position, rm, i);
        return;
      }
      assert SelectFrom(n, list, probes, position, rm, i) == SelectFrom(n, list, probes, position, rm, i - 1);
      i := i - 1;
    }
  }
}
