/**
 * Plane vectors over the reals (javax.vecmath Point2d and Vector2d, and the
 * PrecisePoint wrapper), and the floating-point library functions that the
 * model leaves uninterpreted.
 */
module Geometry {

  datatype Vec = Vec(x: real, y: real)

  const Zero: Vec := Vec(0.0, 0.0)

  /** java.lang.Math.PI */
  const PI: real := 3.141592653589793

  /** java.lang.Double.MAX_VALUE, the start value of every running minimum. */
  const DOUBLE_MAX: real := 1.7976931348623157e308

  function Add(a: Vec, b: Vec): Vec { Vec(a.x + b.x, a.y + b.y) }

  function Sub(a: Vec, b: Vec): Vec { Vec(a.x - b.x, a.y - b.y) }

  function Scale(k: real, a: Vec): Vec { Vec(k * a.x, k * a.y) }

  function Dot(a: Vec, b: Vec): real { a.x * b.x + a.y * b.y }

  /** The squared Euclidean length x*x + y*y. */
  function SqLength(a: Vec): (r: real)
    ensures r >= 0.0
  {
    a.x * a.x + a.y * a.y
  }

  /**
   * The library functions the source calls and the model does not define:
   * Math.sqrt, Math.expm1, Math.acos, Math.cos, Math.sin, Vector2d.angle and
   * the helpers of utility.Geometry (leftOf, lineSegmentIntersectionTest,
   * angleBetweenWSign). Each is an arbitrary function of the right type.
   */
  datatype Numerics = Numerics(
    sqrt: real -> real,
    expm1: real -> real,
    acos: real -> real,
    cos: real -> real,
    sin: real -> real,
    angle: (Vec, Vec) -> real,
    angleBetweenWSign: (Vec, Vec) -> real,
    leftOf: (Vec, Vec, Vec) -> bool,
    segmentsIntersect: (Vec, Vec, Vec, Vec) -> bool)

  /** Tuple2d.length(): Math.sqrt(x*x + y*y). */
  function Length(n: Numerics, v: Vec): real
  {
    n.sqrt(SqLength(v))
  }

  /** p.distance(q) of Point2d: the length of p - q. */
  function Distance(n: Numerics, p: Vec, q: Vec): real
  {
    Length(n, Sub(p, q))
  }

  /** The sqrt oracle returns the true square root of a. */
  predicate SqrtSoundAt(n: Numerics, a: real)
  {
    a >= 0.0 ==> n.sqrt(a) >= 0.0 && n.sqrt(a) * n.sqrt(a) == a
  }

  /**
   * Vector2d.normalize(): each component divided by the length. A vector of
   * length 0 is returned unchanged (the guarded call sites never normalise it,
   * and for the unguarded ones javax.vecmath would give NaN).
   */
  function Normalize(n: Numerics, v: Vec): Vec
  {
    var l := Length(n, v);
    if l == 0.0 then v else Scale(1.0 / l, v)
  }

  /** The sqrt oracle is the true square root everywhere. */
  ghost predicate SqrtSound(n: Numerics)
  {
    forall a :: SqrtSoundAt(n, a)
  }

  /** "|v| <= bound", decided exactly on squares. */
  predicate WithinLength(v: Vec, bound: real)
  {
    bound >= 0.0 && SqLength(v) <= bound * bound
  }

  /** "|v| < bound", decided exactly on squares. */
  predicate ShorterThan(v: Vec, bound: real)
  {
    bound > 0.0 && SqLength(v) < bound * bound
  }

  lemma SquareMonotonic(a: real, b: real)
    requires 0.0 <= a <= b
    ensures a * a <= b * b
  {
    calc {
      a * a;
    <= { assert a * (b - a) >= 0.0; }
      a * b;
    <= { assert b * (b - a) >= 0.0; }
      b * b;
    }
  }

  lemma SquareStrictlyMonotonic(a: real, b: real)
    requires 0.0 <= a < b
    ensures a * a < b * b
  {
    assert a * (b - a) >= 0.0;
    assert b * (b - a) > 0.0;
  }

  lemma MulMonotonic(a: real, b: real, c: real)
    requires a <= b && c >= 0.0
    ensures a * c <= b * c
  {
    assert (b - a) * c >= 0.0;
  }

  /** With a sound square root, the exact test agrees with comparing the length. */
  lemma WithinLengthIsLength(n: Numerics, v: Vec, bound: real)
    requires SqrtSoundAt(n, SqLength(v))
    ensures WithinLength(v, bound) <==> Length(n, v) <= bound
  {
    var l := Length(n, v);
    if l <= bound {
      SquareMonotonic(l, bound);
    }
    if WithinLength(v, bound) && l > bound {
      SquareStrictlyMonotonic(bound, l);
    }
  }

  /** With a sound square root, the strict exact test agrees with comparing the length. */
  lemma ShorterThanIsLength(n: Numerics, v: Vec, bound: real)
    requires SqrtSoundAt(n, SqLength(v))
    ensures ShorterThan(v, bound) <==> Length(n, v) < bound
  {
    var l := Length(n, v);
    if l < bound {
      SquareStrictlyMonotonic(l, bound);
    }
    if ShorterThan(v, bound) && l >= bound {
      SquareMonotonic(bound, l);
    }
  }

  lemma SquareNonNegative(a: real)
    ensures a * a >= 0.0
  {
    if a < 0.0 {
      assert a * a == (-a) * (-a);
    }
  }

  /** A square that is not positive is the square of 0. */
  lemma SquareZero(a: real)
    requires a * a <= 0.0
    ensures a == 0.0
  {
    if a > 0.0 {
      SquareStrictlyMonotonic(0.0, a);
    } else if a < 0.0 {
      SquareStrictlyMonotonic(0.0, -a);
    }
  }

  /** Only the zero vector has squared length 0. */
  lemma NonZeroHasLength(v: Vec)
    requires v != Zero
    ensures SqLength(v) > 0.0
  {
    if SqLength(v) <= 0.0 {
      SquareNonNegative(v.x);
      SquareNonNegative(v.y);
      SquareZero(v.x);
      SquareZero(v.y);
    }
  }

  /** Normalising a vector of non-zero length with a sound square root gives a unit vector. */
  lemma NormalizeIsUnit(n: Numerics, v: Vec)
    requires SqrtSoundAt(n, SqLength(v))
    requires SqLength(v) > 0.0
    ensures SqLength(Normalize(n, v)) == 1.0
  {
    var l := Length(n, v);
    var q := SqLength(v);
    assert l * l == q;
    assert l != 0.0;
    var u := Scale(1.0 / l, v);
    calc {
      SqLength(u);
      (1.0 / l) * v.x * ((1.0 / l) * v.x) + (1.0 / l) * v.y * ((1.0 / l) * v.y);
      ((1.0 / l) * (1.0 / l)) * q;
      { assert (1.0 / l) * (1.0 / l) == 1.0 / (l * l); }
      q / (l * l);
      1.0;
    }
  }

  lemma ScaleSqLength(k: real, v: Vec)
    ensures SqLength(Scale(k, v)) == k * k * SqLength(v)
  {
    calc {
      SqLength(Scale(k, v));
      (k * v.x) * (k * v.x) + (k * v.y) * (k * v.y);
      k * k * (v.x * v.x + v.y * v.y);
    }
  }

  /** A normalised vector is a unit vector, or zero for the zero vector. */
  lemma NormalizeUnitOrZero(n: Numerics, v: Vec)
    requires SqrtSound(n)
    ensures v != Zero ==> SqLength(Normalize(n, v)) == 1.0
    ensures v == Zero ==> Normalize(n, v) == Zero
  {
    assert SqrtSoundAt(n, SqLength(v));
    if v != Zero {
      NonZeroHasLength(v);
      NormalizeIsUnit(n, v);
    }
  }
}
