/**
 * Two-dimensional vectors, as every edition of the simulator uses them.
 *
 * The source's Vector is a mutable {x, y} object whose prototype methods
 * (add, sub, mult, div, normalize, limit) change it in place and return it;
 * the static helpers of the seventh tutorial step (VectorAdd, VectorSub, ...)
 * allocate a new vector instead. Both compute the same components, so each
 * operation is one function on a `Vec` value here, and the objects that hold
 * vectors (items, the world) reassign their `Vec` fields.
 *
 * Coordinates are Dafny reals: there is no IEEE rounding, which is what makes
 * the clamp and scaling laws below hold exactly. `Math.sqrt` is a parameter
 * `sqrt` that satisfies `IsSqrt`.
 */
module Vectors {
  import opened Reals

  // ---------------------------------------------------------------------
  // The vector type and its componentwise operations

  datatype Vec = Vec(x: real, y: real)

  /** `new Vector()`: both components default to 0. */
  const Zero := Vec(0.0, 0.0)

  /** `add` and `VectorAdd`. */
  function Add(a: Vec, b: Vec): Vec {
    Vec(a.x + b.x, a.y + b.y)
  }

  /** `sub` and `VectorSub`. */
  function Sub(a: Vec, b: Vec): Vec {
    Vec(a.x - b.x, a.y - b.y)
  }

  /** `mult` and `VectorMult`. */
  function Mult(v: Vec, n: real): Vec {
    Vec(v.x * n, v.y * n)
  }

  /** `div` and `VectorDiv`. The source does not guard against n == 0 (JavaScript would give Infinity or NaN). */
  function Div(v: Vec, n: real): Vec
    requires n != 0.0
  {
    Vec(v.x / n, v.y / n)
  }

  /** The squared magnitude x*x + y*y, which `mag` takes the square root of. */
  function MagSq(v: Vec): (r: real)
    ensures r >= 0.0
    ensures r == 0.0 <==> v == Zero
  {
    Sq(v.x) + Sq(v.y)
  }

  /** What the model assumes of `Math.sqrt`: it returns the non-negative square root. */
  ghost predicate IsSqrt(sqrt: real -> real) {
    forall a: real :: a >= 0.0 ==> sqrt(a) >= 0.0 && Sq(sqrt(a)) == a
  }

  /** `mag()`: the square root of x*x + y*y. */
  function Mag(v: Vec, sqrt: real -> real): real {
    sqrt(MagSq(v))
  }

  /** `normalize()`: divide by the magnitude, unless the magnitude is exactly 0. */
  function Normalize(v: Vec, sqrt: real -> real): Vec {
    var m := Mag(v, sqrt);
    if m != 0.0 then Div(v, m) else v
  }

  /**
   * `limit(opt_high, opt_low)`. An absent bound is passed as 0: the source
   * turns both an absent and a 0 bound into null with `|| null`, and a null
   * bound is skipped. The lower bound is tested against the magnitude after
   * the upper bound has been applied.
   */
  function Limit(v: Vec, high: real, low: real, sqrt: real -> real): Vec {
    RaiseBelow(CapAbove(v, high, sqrt), low, sqrt)
  }

  /** The first step of `limit`: rescale to `high` when the magnitude is above a truthy `high`. */
  function CapAbove(v: Vec, high: real, sqrt: real -> real): Vec {
    if high != 0.0 && Mag(v, sqrt) > high then Mult(Normalize(v, sqrt), high) else v
  }

  /** The second step of `limit`: rescale to `low` when the magnitude is below a truthy `low`. */
  function RaiseBelow(v: Vec, low: real, sqrt: real -> real): Vec {
    if low != 0.0 && Mag(v, sqrt) < low then Mult(Normalize(v, sqrt), low) else v
  }

  /**
   * `dot(vector)`. A vector may carry an extra `z` property; it is passed as
   * `za`/`zb`, with 0 standing for an absent one (both are falsy), and it is
   * used only when both are truthy.
   */
  function Dot(a: Vec, za: real, b: Vec, zb: real): real {
    if za != 0.0 && zb != 0.0 then a.x * b.x + a.y * b.y + za * zb
    else a.x * b.x + a.y * b.y
  }

  /** `VectorMidPoint(v1, v2)` and `v1.midpoint(v2)`: (v1 + v2) / 2. */
  function MidPoint(a: Vec, b: Vec): Vec {
    Div(Add(a, b), 2.0)
  }

  /** `VectorDistance(v1, v2)` and `v1.distance(v2)`: the root of the squared coordinate differences. */
  function Distance(a: Vec, b: Vec, sqrt: real -> real): real {
    sqrt(Sq(b.x - a.x) + Sq(b.y - a.y))
  }

  // ---------------------------------------------------------------------
  // Algebra of the componentwise operations

  /** `VectorSub(VectorAdd(a, b), b)` gives back `a`, and the other way round. */
  lemma SubAddRoundTrip(a: Vec, b: Vec)
    ensures Sub(Add(a, b), b) == a
    ensures Add(Sub(a, b), b) == a
  {
  }

  /** Dividing by n undoes multiplying by n, and the other way round. */
  lemma DivMultRoundTrip(v: Vec, n: real)
    requires n != 0.0
    ensures Div(Mult(v, n), n) == v
    ensures Mult(Div(v, n), n) == v
  {
  }

  /** The midpoint lies halfway between its arguments, in either order. */
  lemma MidPointHalfway(a: Vec, b: Vec)
    ensures Sub(MidPoint(a, b), a) == Sub(b, MidPoint(a, b))
    ensures MidPoint(a, b) == MidPoint(b, a)
    ensures MidPoint(a, a) == a
  {
  }

  /**
   * The dot product is symmetric, the z branch adds exactly za * zb, and a
   * truthy z on only one side is ignored.
   */
  lemma DotProperties(a: Vec, za: real, b: Vec, zb: real)
    ensures Dot(a, za, b, zb) == Dot(b, zb, a, za)
    ensures za != 0.0 && zb != 0.0 ==> Dot(a, za, b, zb) == a.x * b.x + a.y * b.y + za * zb
    ensures Dot(a, za, b, 0.0) == Dot(a, 0.0, b, zb)
    ensures Dot(a, 0.0, a, 0.0) == MagSq(a)
  {
  }

  // ---------------------------------------------------------------------
  // Magnitudes

  lemma MagSqMult(v: Vec, n: real)
    ensures MagSq(Mult(v, n)) == Mul(Sq(n), MagSq(v))
  {
  }

  lemma MagSqDiv(v: Vec, n: real)
    requires n != 0.0
    ensures Mul(MagSq(Div(v, n)), Sq(n)) == MagSq(v)
  {
    DivMultRoundTrip(v, n);
    MagSqMult(Div(v, n), n);
  }

  /** Magnitude and squared magnitude agree: |v| is the non-negative root of x*x + y*y. */
  lemma MagSquared(v: Vec, sqrt: real -> real)
    requires IsSqrt(sqrt)
    ensures Mag(v, sqrt) >= 0.0
    ensures Sq(Mag(v, sqrt)) == MagSq(v)
    ensures Mag(v, sqrt) == 0.0 <==> v == Zero
  {
  }

  /** The magnitude is compared with a non-negative bound exactly as its square is. */
  lemma MagCompare(v: Vec, bound: real, sqrt: real -> real)
    requires IsSqrt(sqrt) && bound >= 0.0
    ensures Mag(v, sqrt) > bound <==> MagSq(v) > Sq(bound)
    ensures Mag(v, sqrt) < bound <==> MagSq(v) < Sq(bound)
    ensures Mag(v, sqrt) == bound <==> MagSq(v) == Sq(bound)
  {
    MagSquared(v, sqrt);
    SqCompare(Mag(v, sqrt), bound);
  }

  /**
   * `normalize` leaves a unit vector pointing the same way, except that the
   * zero vector is left unchanged (no division by zero happens).
   */
  lemma NormalizeUnit(v: Vec, sqrt: real -> real)
    requires IsSqrt(sqrt)
    ensures v == Zero ==> Normalize(v, sqrt) == v
    ensures v != Zero ==> MagSq(Normalize(v, sqrt)) == 1.0 && Mag(Normalize(v, sqrt), sqrt) == 1.0
    ensures v != Zero ==> Normalize(v, sqrt) == Mult(v, 1.0 / Mag(v, sqrt))
  {
    MagSquared(v, sqrt);
    if v != Zero {
      var m := Mag(v, sqrt);
      MagSqDiv(v, m);
      MulOne(MagSq(Normalize(v, sqrt)), Sq(m));
      MagCompare(Normalize(v, sqrt), 1.0, sqrt);
    }
  }

  /** Rescaling a non-zero vector to a length `len >= 0` gives magnitude exactly `len`. */
  lemma RescaledMag(v: Vec, len: real, sqrt: real -> real)
    requires IsSqrt(sqrt) && v != Zero && len >= 0.0
    ensures MagSq(Mult(Normalize(v, sqrt), len)) == Sq(len)
    ensures Mag(Mult(Normalize(v, sqrt), len), sqrt) == len
    ensures Mult(Normalize(v, sqrt), len) == Mult(v, len / Mag(v, sqrt))
  {
    NormalizeUnit(v, sqrt);
    MagSqMult(Normalize(v, sqrt), len);
    MagCompare(Mult(Normalize(v, sqrt), len), len, sqrt);
  }

  /**
   * `limit(high)` with a positive bound and no lower bound: the magnitude ends
   * up at most `high`; a longer vector is rescaled to exactly `high` in the
   * same direction, and any other vector is returned unchanged.
   */
  lemma LimitHigh(v: Vec, high: real, sqrt: real -> real)
    requires IsSqrt(sqrt) && high > 0.0
    ensures Mag(Limit(v, high, 0.0, sqrt), sqrt) <= high
    ensures MagSq(Limit(v, high, 0.0, sqrt)) <= Sq(high)
    ensures Mag(v, sqrt) > high ==>
      Mag(Limit(v, high, 0.0, sqrt), sqrt) == high &&
      Limit(v, high, 0.0, sqrt) == Mult(v, high / Mag(v, sqrt))
    ensures Mag(v, sqrt) <= high ==> Limit(v, high, 0.0, sqrt) == v
  {
    MagCompare(v, high, sqrt);
    if Mag(v, sqrt) > high {
      RescaledMag(v, high, sqrt);
    }
    MagCompare(Limit(v, high, 0.0, sqrt), high, sqrt);
  }

  /**
   * `limit(high, low)` with a positive lower bound and no upper bound: a
   * non-zero vector shorter than `low` is rescaled to exactly `low`, and a
   * vector at least that long is unchanged.
   */
  lemma LimitLow(v: Vec, low: real, sqrt: real -> real)
    requires IsSqrt(sqrt) && low > 0.0
    ensures v != Zero && Mag(v, sqrt) < low ==> Mag(Limit(v, 0.0, low, sqrt), sqrt) == low
    ensures Mag(v, sqrt) >= low ==> Limit(v, 0.0, low, sqrt) == v
  {
    if v != Zero && Mag(v, sqrt) < low {
      RescaledMag(v, low, sqrt);
    }
  }

  /** The zero vector has no direction: whatever the bounds, `limit` leaves it zero. */
  lemma LimitZero(high: real, low: real, sqrt: real -> real)
    requires IsSqrt(sqrt)
    ensures Limit(Zero, high, low, sqrt) == Zero
  {
    NormalizeZero(sqrt);
    CapZero(high, sqrt);
    RaiseZero(low, sqrt);
  }

  lemma CapZero(high: real, sqrt: real -> real)
    requires Normalize(Zero, sqrt) == Zero
    ensures CapAbove(Zero, high, sqrt) == Zero
  {
    ScaleZero(high);
  }

  lemma RaiseZero(low: real, sqrt: real -> real)
    requires Normalize(Zero, sqrt) == Zero
    ensures RaiseBelow(Zero, low, sqrt) == Zero
  {
    ScaleZero(low);
  }

  lemma ScaleZero(n: real)
    ensures Mult(Zero, n) == Zero
  {
  }

  /** The zero vector has magnitude 0, so `normalize` leaves it alone. */
  lemma MagZero(sqrt: real -> real)
    requires IsSqrt(sqrt)
    ensures Mag(Zero, sqrt) == 0.0
  {
    assert Sq(sqrt(0.0)) == 0.0;
  }

  lemma NormalizeZero(sqrt: real -> real)
    requires IsSqrt(sqrt)
    ensures Normalize(Zero, sqrt) == Zero
  {
    MagZero(sqrt);
  }

  /**
   * `limit` rescales only when the magnitude is above a truthy `high` or
   * below a truthy `low`: with both bounds falsy it is the identity, and a
   * vector whose magnitude already lies within [low, high] is untouched.
   */
  lemma LimitWithinBounds(v: Vec, high: real, low: real, sqrt: real -> real)
    ensures Limit(v, 0.0, 0.0, sqrt) == v
    ensures (high == 0.0 || Mag(v, sqrt) <= high) && (low == 0.0 || Mag(v, sqrt) >= low) ==>
      Limit(v, high, low, sqrt) == v
  {
  }

  /** The distance is symmetric. */
  lemma DistanceSymmetric(a: Vec, b: Vec, sqrt: real -> real)
    ensures Distance(a, b, sqrt) == Distance(b, a, sqrt)
  {
    SqNegate(b.x - a.x);
    SqNegate(b.y - a.y);
  }

  /** The distance from a to b is the magnitude of b - a. */
  lemma DistanceIsMag(a: Vec, b: Vec, sqrt: real -> real)
    ensures Distance(a, b, sqrt) == Mag(Sub(b, a), sqrt)
  {
  }

  /** A point is at distance 0 from itself. */
  lemma DistanceToSelf(a: Vec, sqrt: real -> real)
    requires IsSqrt(sqrt)
    ensures Distance(a, a, sqrt) == 0.0
  {
    assert Sub(a, a) == Zero;
    DistanceIsMag(a, a, sqrt);
    MagZero(sqrt);
  }
}
