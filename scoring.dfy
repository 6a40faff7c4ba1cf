/**
 * The importance score an agent gives each sensed neighbour
 * (RVOAgent.SenseThink.assignDistanceScore): overlapping neighbours score
 * 1.5, others the product of a distance factor and an angle factor.
 */
module Scoring {
  import opened Wrappers
  import opened Geometry

  /** What the perception pass reads of a sensed agent. */
  datatype Neighbour = Neighbour(id: int, pos: Vec, radius: real, vel: Vec)

  /**
   * What it reads of the sensing agent itself: its id, position, velocity
   * and the point getGoal() returns (None where that is null or throws).
   */
  datatype Observer = Observer(id: int, pos: Vec, vel: Vec, goal: Option<Vec>)

  /** The score of a neighbour whose body overlaps the observer's. */
  const OVERLAP_SCORE: real := 1.5

  /** The floor both factors are clamped to. */
  const FACTOR_FLOOR: real := 0.1

  function Max(a: real, b: real): real { if a >= b then a else b }

  function Min(a: real, b: real): real { if a <= b then a else b }

  /**
   * The distance factor max(min(1, expm1(5 / gap) - 0.11), 0.1) for a
   * non-negative surface gap. At gap 0 the quotient 5/0 is +Infinity, so is
   * expm1 of it, and the factor is 1.
   */
  function DistanceFactor(n: Numerics, gap: real): (r: real)
    requires gap >= 0.0
    ensures FACTOR_FLOOR <= r <= 1.0
    ensures gap == 0.0 ==> r == 1.0
  {
    if gap == 0.0 then 1.0
    else Max(Min(1.0, n.expm1(5.0 / gap) - 0.11), FACTOR_FLOOR)
  }

  /**
   * The angle factor from the angle between the direction to the goal and
   * the direction to the neighbour: 1 inside 60 degrees, then a ramp
   * 8.1 * (3a - pi) / pi + 0.1 up to 80 degrees, then 0.1; a neighbour behind
   * (negative dot product) gets 0.1. A zero-length vector makes the cosine
   * 0/0 or x/0, acos of which is NaN, and every comparison with NaN fails.
   */
  function AngleFactor(n: Numerics, toGoal: Vec, toOther: Vec): (r: real)
    ensures FACTOR_FLOOR <= r < 2.8
    ensures Dot(toGoal, toOther) < 0.0 ==> r == FACTOR_FLOOR
  {
    var formed := Dot(toGoal, toOther);
    if formed < 0.0 then FACTOR_FLOOR
    else
      var norms := Length(n, toOther) * Length(n, toGoal);
      if norms == 0.0 then FACTOR_FLOOR
      else
        var a := n.acos(formed / norms);
        if a < PI / 3.0 then 1.0
        else if a < 4.0 * PI / 9.0 then 8.1 * (3.0 * a - PI) / PI + 0.1
        else FACTOR_FLOOR
  }

  /** The free space between the two bodies: centre distance minus both radii. */
  function Gap(n: Numerics, me: Observer, other: Neighbour, radius: real): real
  {
    Length(n, Sub(other.pos, me.pos)) - other.radius - radius
  }

  /**
   * assignDistanceScore. None stands for the NullPointerException (or
   * NoSuchElementException) raised when the observer has no goal and the
   * neighbour does not overlap it.
   */
  function DistanceScore(n: Numerics, me: Observer, other: Neighbour, radius: real): (r: Option<real>)
    ensures r.None? <==> Gap(n, me, other, radius) >= 0.0 && me.goal.None?
    ensures Gap(n, me, other, radius) < 0.0 ==> r == Some(OVERLAP_SCORE)
    ensures r.Some? ==> 0.01 <= r.value < 2.8
  {
    var toOther := Sub(other.pos, me.pos);
    var gap := Gap(n, me, other, radius);
    if gap < 0.0 then Some(OVERLAP_SCORE)
    else match me.goal
      case None => None
      case Some(g) =>
        var ds := DistanceFactor(n, gap);
        var af := AngleFactor(n, Sub(g, me.pos), toOther);
        ProductBounds(ds, af);
        Some(if ds > 1.0 then ds else ds * af)
  }

  lemma ProductBounds(ds: real, af: real)
    requires FACTOR_FLOOR <= ds <= 1.0 && FACTOR_FLOOR <= af < 2.8
    ensures 0.01 <= ds * af < 2.8
  {
    MulMonotonic(FACTOR_FLOOR, ds, af);
    MulMonotonic(ds, 1.0, af);
  }

  /** A neighbour at the far side of the goal direction scores at most its distance factor times 0.1. */
  lemma BehindScoresLow(n: Numerics, me: Observer, other: Neighbour, radius: real)
    requires Gap(n, me, other, radius) >= 0.0 && me.goal.Some?
    requires Dot(Sub(me.goal.value, me.pos), Sub(other.pos, me.pos)) < 0.0
    ensures DistanceScore(n, me, other, radius) == Some(DistanceFactor(n, Gap(n, me, other, radius)) * FACTOR_FLOOR)
    ensures DistanceScore(n, me, other, radius).value <= FACTOR_FLOOR
  {
    var ds := DistanceFactor(n, Gap(n, me, other, radius));
    MulMonotonic(ds, 1.0, FACTOR_FLOOR);
  }

  /** The scores of a whole bag, in bag order; None if any score throws. */
  function ScoreAll(n: Numerics, me: Observer, bag: seq<Neighbour>, radius: real): (r: Option<seq<real>>)
    ensures r.Some? ==> |r.value| == |bag|
    ensures r.Some? ==> forall i :: 0 <= i < |bag| ==> DistanceScore(n, me, bag[i], radius) == Some(r.value[i])
    ensures r.None? <==> exists i :: 0 <= i < |bag| && DistanceScore(n, me, bag[i], radius).None?
    decreases |bag|
  {
    if bag == [] then Some([])
    else
      var front := ScoreAll(n, me, bag[..|bag| - 1], radius);
      var last := DistanceScore(n, me, bag[|bag| - 1], radius);
      if front.None? || last.None? then None
      else Some(front.value + [last.value])
  }
}
