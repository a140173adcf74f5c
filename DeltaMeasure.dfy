/**
 * The measurement of the standalone script (A1.py lines 32-57): the pixel
 * differences are taken as magnitudes first, converted to centimetres at
 * the constant depth with the scaled focal lengths, and combined into the
 * diagonal by Pythagoras.
 */
module DeltaMeasure {
  import opened Camera
  import opened Scaling

  /** The two clicked points of A1.py lines 35-36. */
  const ScriptPoint1: PixelPoint := PixelPoint(974.0, 958.0)
  const ScriptPoint2: PixelPoint := PixelPoint(1241.0, 959.0)

  /** The constant camera-to-plane distance in centimetres (A1.py line 39). */
  const ScriptDepth: real := 34.0

  /**
   * World deltas from magnitudes of pixel differences:
   * (|u2 - u1| * z) / fx and (|v2 - v1| * z) / fy  (A1.py lines 48-54).
   */
  function AbsDeltas(p1: PixelPoint, p2: PixelPoint, k: Intrinsics, z: real): (m: Measurement)
    requires k.Invertible()
    ensures m.deltaX * k.fx == Abs(p2.u - p1.u) * z
    ensures m.deltaY * k.fy == Abs(p2.v - p1.v) * z
    ensures k.Valid() && z >= 0.0 ==> m.deltaX >= 0.0 && m.deltaY >= 0.0
  {
    var du := Abs(p2.u - p1.u);
    var dv := Abs(p2.v - p1.v);
    Measurement((du * z) / k.fx, (dv * z) / k.fy)
  }

  /** The deltas do not depend on which point was clicked first. */
  lemma AbsDeltasSymmetric(p1: PixelPoint, p2: PixelPoint, k: Intrinsics, z: real)
    requires k.Invertible()
    ensures AbsDeltas(p1, p2, k, z) == AbsDeltas(p2, p1, k, z)
  {
    assert Abs(p2.u - p1.u) == Abs(p1.u - p2.u);
    assert Abs(p2.v - p1.v) == Abs(p1.v - p2.v);
  }

  /**
   * The diagonal of A1.py line 57 is zero exactly when both pixel
   * differences are zero (for a positive depth and positive focal lengths),
   * and it is never shorter than either world delta.
   */
  lemma DiagonalZeroIff(p1: PixelPoint, p2: PixelPoint, k: Intrinsics, z: real, d: real)
    requires k.Valid() && z > 0.0
    requires IsDistance(d, AbsDeltas(p1, p2, k, z).deltaX, AbsDeltas(p1, p2, k, z).deltaY)
    ensures d == 0.0 <==> p1.u == p2.u && p1.v == p2.v
    ensures d >= AbsDeltas(p1, p2, k, z).deltaX && d >= AbsDeltas(p1, p2, k, z).deltaY
  {
    var m := AbsDeltas(p1, p2, k, z);
    DistanceZeroIff(d, m.deltaX, m.deltaY);
    DistanceDominatesDeltas(d, m.deltaX, m.deltaY);
    ZeroDeltaIff(Abs(p2.u - p1.u), z, k.fx, m.deltaX);
    ZeroDeltaIff(Abs(p2.v - p1.v), z, k.fy, m.deltaY);
  }

  /** With z and f non-zero, a converted delta is zero exactly when the pixel delta is. */
  lemma ZeroDeltaIff(du: real, z: real, f: real, dx: real)
    requires z != 0.0 && f != 0.0
    requires dx * f == du * z
    ensures dx == 0.0 <==> du == 0.0
  {
  }

  /** The intrinsics the script measures with: the calibration scaled to the current image. */
  function ScriptIntrinsics(): (k: Intrinsics)
    ensures k.Valid()
    ensures k.fx * 1280.0 == 991.3966961255147 * 2220.0
    ensures k.fy * 720.0 == 991.6283280689119 * 1480.0
  {
    Scale(InitialIntrinsics, CalibrationResolution, CurrentResolution)
  }

  /**
   * What the script measures for its two points: the horizontal delta is
   * about 5.2796 cm and the vertical one about 0.0167 cm.
   */
  lemma ScriptDeltas()
    ensures 5.2795 < AbsDeltas(ScriptPoint1, ScriptPoint2, ScriptIntrinsics(), ScriptDepth).deltaX < 5.2796
    ensures 0.0166 < AbsDeltas(ScriptPoint1, ScriptPoint2, ScriptIntrinsics(), ScriptDepth).deltaY < 0.0167
  {
  }

  /**
   * The diagonal of A1.py line 57 for the script's two points lies between
   * 5.2795 cm and 5.2797 cm.
   */
  lemma ScriptDiagonal(d: real)
    requires IsDistance(d, AbsDeltas(ScriptPoint1, ScriptPoint2, ScriptIntrinsics(), ScriptDepth).deltaX,
                           AbsDeltas(ScriptPoint1, ScriptPoint2, ScriptIntrinsics(), ScriptDepth).deltaY)
    ensures 5.2795 < d < 5.2797
  {
    var m := AbsDeltas(ScriptPoint1, ScriptPoint2, ScriptIntrinsics(), ScriptDepth);
    ScriptDeltas();
    DistanceDominatesDeltas(d, m.deltaX, m.deltaY);
    SquareStrictlyMonotone(m.deltaX, 5.2796);
    SquareStrictlyMonotone(m.deltaY, 0.0167);
    if d > 5.2797 {
      SquareStrictlyMonotone(5.2797, d);
    }
  }

  /**
   * The script up to its two world deltas (A1.py lines 3-54): build the calibrated matrix,
   * scale a copy of it, read the focal lengths back out of the copy, and
   * convert the pixel differences of the two points.
   */
  method RunScript() returns (m: Measurement)
    ensures m == AbsDeltas(ScriptPoint1, ScriptPoint2, ScriptIntrinsics(), ScriptDepth)
    ensures 5.2795 < m.deltaX < 5.2796 && 0.0166 < m.deltaY < 0.0167
  {
    var initial := NewCameraMatrix(InitialIntrinsics);
    var scaled := ScaleCameraMatrix(initial, CalibrationResolution, CurrentResolution);
    var k := IntrinsicsOf(scaled);
    m := AbsDeltas(ScriptPoint1, ScriptPoint2, k, ScriptDepth);
    ScriptDeltas();
  }
}
