/**
 * Value types shared by the intrinsics scaler and the plane projector,
 * and the facts about Euclidean distance that both measurement flows use.
 *
 * All arithmetic is over Dafny's exact `real`; floating-point rounding is
 * not modelled.  The square root that the source takes is not computed:
 * a distance is characterised by `IsDistance`, and `DistanceUnique` shows
 * that this characterisation pins down one value.
 */
module Camera {

  /** Pinhole intrinsics: focal lengths and principal point, in pixels. */
  datatype Intrinsics = Intrinsics(fx: real, fy: real, cx: real, cy: real)
  {
    /** The divisions by the focal lengths are defined. */
    predicate Invertible() { fx != 0.0 && fy != 0.0 }

    /** A physically meaningful camera: both focal lengths strictly positive. */
    predicate Valid() { fx > 0.0 && fy > 0.0 }
  }

  /** An image resolution in pixels. */
  datatype Resolution = Resolution(width: nat, height: nat)
  {
    predicate Valid() { width > 0 && height > 0 }
  }

  /** A pixel coordinate (u along the image width, v along the height). */
  datatype PixelPoint = PixelPoint(u: real, v: real)

  /** A coordinate on the object plane, in centimetres. */
  datatype PlanePoint = PlanePoint(x: real, y: real)

  /** The two world-space differences between a pair of measured points. */
  datatype Measurement = Measurement(deltaX: real, deltaY: real)

  /** Python's `abs` on a real. */
  function Abs(x: real): (r: real)
    ensures r >= 0.0
    ensures r == x || r == -x
    ensures r * r == x * x
  {
    if x < 0.0 then -x else x
  }

  /** `d` is what `sqrt(dX**2 + dY**2)` denotes over the reals. */
  predicate IsDistance(d: real, dX: real, dY: real)
  {
    d >= 0.0 && d * d == dX * dX + dY * dY
  }

  /** The squared distance a measurement stands for (the argument of the square root). */
  function SquaredDistance(m: Measurement): (s: real)
    ensures s >= 0.0
    ensures forall d :: IsDistance(d, m.deltaX, m.deltaY) <==> d >= 0.0 && d * d == s
  {
    m.deltaX * m.deltaX + m.deltaY * m.deltaY
  }

  /** A strict product of positives is positive. */
  lemma MulPositive(a: real, b: real)
    requires a > 0.0 && b > 0.0
    ensures a * b > 0.0
  {
  }

  /** Two numbers with equal products by a non-zero factor are equal. */
  lemma CancelNonZero(a: real, b: real, c: real)
    requires c != 0.0 && a * c == b * c
    ensures a == b
  {
    assert (a - b) * c == 0.0;
  }

  /** Multiplying by f and then by g is multiplying by their product h. */
  lemma MulTwice(v: real, f: real, g: real, h: real)
    requires f * g == h
    ensures (v * f) * g == v * h
  {
    assert (v * f) * g == v * (f * g);
  }

  /** Squaring is strictly monotone on the non-negative reals. */
  lemma SquareStrictlyMonotone(a: real, b: real)
    requires 0.0 <= a < b
    ensures a * a < b * b
  {
    MulPositive(b - a, b + a);
    assert (b - a) * (b + a) == b * b - a * a;
  }

  /** Two non-negative roots of the same square are equal. */
  lemma SquareRootUnique(a: real, b: real)
    requires a >= 0.0 && b >= 0.0
    requires a * a == b * b
    ensures a == b
  {
    if a < b {
      SquareStrictlyMonotone(a, b);
    } else if b < a {
      SquareStrictlyMonotone(b, a);
    }
  }

  /** A non-negative number whose square is at least another square dominates its magnitude. */
  lemma SquareDominates(d: real, x: real)
    requires d >= 0.0
    requires d * d >= x * x
    ensures d >= Abs(x)
  {
    if d < Abs(x) {
      SquareStrictlyMonotone(d, Abs(x));
    }
  }

  /** The distance of a pair of deltas is unique, so `IsDistance` determines the square root. */
  lemma DistanceUnique(d1: real, d2: real, dX: real, dY: real)
    requires IsDistance(d1, dX, dY) && IsDistance(d2, dX, dY)
    ensures d1 == d2
  {
    SquareRootUnique(d1, d2);
  }

  /** The diagonal is at least as long as each of its sides. */
  lemma DistanceDominatesDeltas(d: real, dX: real, dY: real)
    requires IsDistance(d, dX, dY)
    ensures d >= Abs(dX) && d >= Abs(dY)
  {
    assert dY * dY >= 0.0 && dX * dX >= 0.0;
    SquareDominates(d, dX);
    SquareDominates(d, dY);
  }

  /** The distance is zero exactly when both deltas are zero. */
  lemma DistanceZeroIff(d: real, dX: real, dY: real)
    requires IsDistance(d, dX, dY)
    ensures d == 0.0 <==> dX == 0.0 && dY == 0.0
  {
    DistanceDominatesDeltas(d, dX, dY);
    if dX == 0.0 && dY == 0.0 {
      SquareRootUnique(d, 0.0);
    }
  }

  /** The distance depends on the deltas only through their magnitudes. */
  lemma DistanceOfMagnitudes(d: real, dX: real, dY: real)
    ensures IsDistance(d, dX, dY) <==> IsDistance(d, Abs(dX), Abs(dY))
  {
  }
}
