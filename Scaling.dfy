/**
 * The intrinsics scaler of the standalone script (A1.py lines 3-28): a
 * camera matrix calibrated at 1280x720 is copied and its focal lengths and
 * principal point are rescaled, axis by axis, to the resolution of the
 * image being measured.
 *
 * `Scale` is the value-level specification; `ScaleCameraMatrix` is the
 * copy-then-multiply-in-place step on a 3x3 array, proved against it.
 */
module Scaling {
  import opened Camera

  /** The calibration of A1.py lines 3-7. */
  const InitialIntrinsics: Intrinsics :=
    Intrinsics(991.3966961255147, 991.6283280689119, 671.2440144735679, 371.28640788315386)

  /** The resolution the camera was calibrated at (A1.py line 10). */
  const CalibrationResolution: Resolution := Resolution(1280, 720)

  /** The resolution of the image being measured (A1.py line 13). */
  const CurrentResolution: Resolution := Resolution(2220, 1480)

  /** The per-axis factors target/calibration, one for the width and one for the height. */
  function ScaleFactors(calib: Resolution, target: Resolution): (r: (real, real))
    requires calib.Valid()
    ensures target.Valid() ==> r.0 > 0.0 && r.1 > 0.0
  {
    (target.width as real / calib.width as real, target.height as real / calib.height as real)
  }

  /**
   * Each factor is the one number that maps the calibration dimension of
   * its own axis onto the target dimension of that axis; the two axes are
   * independent, so no aspect ratio is imposed.
   */
  lemma ScaleFactorsMeaning(calib: Resolution, target: Resolution, f: real, g: real)
    requires calib.Valid()
    ensures ScaleFactors(calib, target).0 * calib.width as real == target.width as real
    ensures ScaleFactors(calib, target).1 * calib.height as real == target.height as real
    ensures f * calib.width as real == target.width as real ==> f == ScaleFactors(calib, target).0
    ensures g * calib.height as real == target.height as real ==> g == ScaleFactors(calib, target).1
  {
    var r := ScaleFactors(calib, target);
    if f * calib.width as real == target.width as real {
      CancelNonZero(f, r.0, calib.width as real);
    }
    if g * calib.height as real == target.height as real {
      CancelNonZero(g, r.1, calib.height as real);
    }
  }

  /** The only factor that maps a positive dimension onto itself is 1. */
  lemma UnitFactor(f: real, w: real)
    requires w > 0.0 && f * w == w
    ensures f == 1.0
  {
    if f > 1.0 {
      MulPositive(f - 1.0, w);
    } else if f < 1.0 {
      MulPositive(1.0 - f, w);
    }
  }

  /**
   * The intrinsics after scaling: fx and cx follow the width, fy and cy
   * follow the height.
   */
  function Scale(k: Intrinsics, calib: Resolution, target: Resolution): (r: Intrinsics)
    requires calib.Valid()
    ensures k.Valid() && target.Valid() ==> r.Valid()
  {
    var (sx, sy) := ScaleFactors(calib, target);
    ScaleBy(k, sx, sy)
  }

  /** fx and cx multiplied by sx, fy and cy by sy. */
  function ScaleBy(k: Intrinsics, sx: real, sy: real): Intrinsics
  {
    Intrinsics(k.fx * sx, k.fy * sy, k.cx * sx, k.cy * sy)
  }

  /**
   * Scaling is linear in the resolution ratio: fx and cx relate to the
   * originals as target width to calibration width, fy and cy as target
   * height to calibration height.
   */
  lemma ScaleLinear(k: Intrinsics, calib: Resolution, target: Resolution)
    requires calib.Valid()
    ensures Scale(k, calib, target).fx * calib.width as real == k.fx * target.width as real
    ensures Scale(k, calib, target).cx * calib.width as real == k.cx * target.width as real
    ensures Scale(k, calib, target).fy * calib.height as real == k.fy * target.height as real
    ensures Scale(k, calib, target).cy * calib.height as real == k.cy * target.height as real
  {
    var (sx, sy) := ScaleFactors(calib, target);
    ScaleFactorsMeaning(calib, target, sx, sy);
    MulTwice(k.fx, sx, calib.width as real, target.width as real);
    MulTwice(k.cx, sx, calib.width as real, target.width as real);
    MulTwice(k.fy, sy, calib.height as real, target.height as real);
    MulTwice(k.cy, sy, calib.height as real, target.height as real);
  }

  /** Scaling a resolution onto itself uses the factors (1, 1). */
  lemma IdentityFactors(r: Resolution)
    requires r.Valid()
    ensures ScaleFactors(r, r) == (1.0, 1.0)
  {
    var (sx, sy) := ScaleFactors(r, r);
    ScaleFactorsMeaning(r, r, sx, sy);
    UnitFactor(sx, r.width as real);
    UnitFactor(sy, r.height as real);
  }

  /** Scaling to the calibration resolution itself changes nothing. */
  lemma ScaleIdentity(k: Intrinsics, r: Resolution)
    requires r.Valid()
    ensures Scale(k, r, r) == k
  {
    IdentityFactors(r);
  }

  /** Factors mapping a onto b and b onto c multiply to the factor mapping a onto c. */
  lemma FactorsCompose(f: real, g: real, h: real, a: real, b: real, c: real)
    requires a > 0.0
    requires f * a == b && g * b == c && h * a == c
    ensures f * g == h
  {
    assert (f * g) * a == g * (f * a);
    CancelNonZero(f * g, h, a);
  }

  /** The factors of a -> b and b -> c multiply to those of a -> c. */
  lemma ComposedFactors(a: Resolution, b: Resolution, c: Resolution)
    requires a.Valid() && b.Valid()
    ensures ScaleFactors(a, b).0 * ScaleFactors(b, c).0 == ScaleFactors(a, c).0
    ensures ScaleFactors(a, b).1 * ScaleFactors(b, c).1 == ScaleFactors(a, c).1
  {
    var ab := ScaleFactors(a, b);
    var bc := ScaleFactors(b, c);
    var ac := ScaleFactors(a, c);
    ScaleFactorsMeaning(a, b, ab.0, ab.1);
    ScaleFactorsMeaning(b, c, bc.0, bc.1);
    ScaleFactorsMeaning(a, c, ac.0, ac.1);
    FactorsCompose(ab.0, bc.0, ac.0, a.width as real, b.width as real, c.width as real);
    FactorsCompose(ab.1, bc.1, ac.1, a.height as real, b.height as real, c.height as real);
  }

  /** Scaling by (f1, g1) and then by (f2, g2) is scaling by the products. */
  lemma ScaleByTwice(k: Intrinsics, f1: real, g1: real, f2: real, g2: real)
    ensures ScaleBy(ScaleBy(k, f1, g1), f2, g2) == ScaleBy(k, f1 * f2, g1 * g2)
  {
    MulTwice(k.fx, f1, f2, f1 * f2);
    MulTwice(k.fy, g1, g2, g1 * g2);
    MulTwice(k.cx, f1, f2, f1 * f2);
    MulTwice(k.cy, g1, g2, g1 * g2);
  }

  /** Scaling a -> b and then b -> c is scaling a -> c: factors compose multiplicatively. */
  lemma ScaleCompose(k: Intrinsics, a: Resolution, b: Resolution, c: Resolution)
    requires a.Valid() && b.Valid()
    ensures Scale(Scale(k, a, b), b, c) == Scale(k, a, c)
  {
    var ab := ScaleFactors(a, b);
    var bc := ScaleFactors(b, c);
    var ac := ScaleFactors(a, c);
    var once := Scale(k, a, b);
    assert once == ScaleBy(k, ab.0, ab.1);
    assert Scale(once, b, c) == ScaleBy(once, bc.0, bc.1);
    assert Scale(k, a, c) == ScaleBy(k, ac.0, ac.1);
    ComposedFactors(a, b, c);
    assert ab.0 * bc.0 == ac.0 && ab.1 * bc.1 == ac.1;
    ScaleByTwice(k, ab.0, ab.1, bc.0, bc.1);
    assert ScaleBy(once, bc.0, bc.1) == ScaleBy(k, ac.0, ac.1);
  }

  /** The script's resolutions change the aspect ratio, so the two factors differ. */
  lemma ScriptFactorsDiffer()
    ensures ScaleFactors(CalibrationResolution, CurrentResolution).0 == 1.734375
    ensures ScaleFactors(CalibrationResolution, CurrentResolution).1 * 9.0 == 18.5
  {
  }

  /** A 3x3 array holding the pinhole structure: zero skew and a bottom row [0, 0, 1]. */
  predicate PinholeShape(m: array2<real>)
    reads m
  {
    && m.Length0 == 3 && m.Length1 == 3
    && m[0, 1] == 0.0 && m[1, 0] == 0.0
    && m[2, 0] == 0.0 && m[2, 1] == 0.0 && m[2, 2] == 1.0
  }

  /** The intrinsics stored in a camera matrix (A1.py lines 4-5 and 44-45). */
  function IntrinsicsOf(m: array2<real>): (k: Intrinsics)
    requires m.Length0 == 3 && m.Length1 == 3
    reads m
    ensures k.fx == m[0, 0] && k.cx == m[0, 2] && k.fy == m[1, 1] && k.cy == m[1, 2]
  {
    Intrinsics(m[0, 0], m[1, 1], m[0, 2], m[1, 2])
  }

  /** Builds the camera matrix [[fx, 0, cx], [0, fy, cy], [0, 0, 1]] (A1.py lines 3-7). */
  method NewCameraMatrix(k: Intrinsics) returns (m: array2<real>)
    ensures fresh(m)
    ensures PinholeShape(m) && IntrinsicsOf(m) == k
  {
    m := new real[3, 3];
    m[0, 0], m[0, 1], m[0, 2] := k.fx, 0.0, k.cx;
    m[1, 0], m[1, 1], m[1, 2] := 0.0, k.fy, k.cy;
    m[2, 0], m[2, 1], m[2, 2] := 0.0, 0.0, 1.0;
  }

  /**
   * Copies the matrix and multiplies [0,0] and [0,2] by the x factor and
   * [1,1] and [1,2] by the y factor (A1.py lines 19-28).  The input matrix
   * is left as it was; every other entry of the copy equals the input's.
   */
  method ScaleCameraMatrix(m: array2<real>, calib: Resolution, target: Resolution)
    returns (s: array2<real>)
    requires m.Length0 == 3 && m.Length1 == 3
    requires calib.Valid()
    ensures fresh(s) && s.Length0 == 3 && s.Length1 == 3
    ensures unchanged(m)
    ensures s[0, 0] == m[0, 0] * ScaleFactors(calib, target).0
    ensures s[0, 2] == m[0, 2] * ScaleFactors(calib, target).0
    ensures s[1, 1] == m[1, 1] * ScaleFactors(calib, target).1
    ensures s[1, 2] == m[1, 2] * ScaleFactors(calib, target).1
    ensures forall i, j :: 0 <= i < 3 && 0 <= j < 3 && (i, j) !in {(0, 0), (0, 2), (1, 1), (1, 2)} ==>
              s[i, j] == m[i, j]
    ensures IntrinsicsOf(s) == Scale(IntrinsicsOf(m), calib, target)
    ensures PinholeShape(m) ==> PinholeShape(s)
  {
    var factors := ScaleFactors(calib, target);
    var sx, sy := factors.0, factors.1;
    s := new real[3, 3]((i: nat, j: nat) reads m requires i < 3 && j < 3 => m[i, j]);
    s[0, 0] := s[0, 0] * sx;
    s[0, 2] := s[0, 2] * sx;
    s[1, 1] := s[1, 1] * sy;
    s[1, 2] := s[1, 2] * sy;
  }

  /**
   * Scaling a matrix to the resolution it was calibrated at yields an
   * identical copy and leaves the input as it was.
   */
  method ScaleCameraMatrixToSelf(m: array2<real>, r: Resolution) returns (s: array2<real>)
    requires m.Length0 == 3 && m.Length1 == 3
    requires r.Valid()
    ensures fresh(s) && s.Length0 == 3 && s.Length1 == 3
    ensures unchanged(m)
    ensures forall i, j :: 0 <= i < 3 && 0 <= j < 3 ==> s[i, j] == m[i, j]
  {
    s := ScaleCameraMatrix(m, r, r);
    ScaleIdentity(IntrinsicsOf(m), r);
  }
}
