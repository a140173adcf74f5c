/**
 * The plane projector of the web service (app.py lines 9-18 and 37-54):
 * each pixel is unprojected onto the object plane at the known depth, and
 * the two plane points give signed deltas and a Euclidean distance.
 */
module PlaneProjector {
  import opened Camera
  import DeltaMeasure

  /** The service's fixed intrinsics (app.py lines 10-15). */
  const ServiceIntrinsics: Intrinsics := Intrinsics(1667.53, 1983.20, 1073.56, 703.16)

  /** The service's fixed camera-to-plane distance in centimetres (app.py line 18). */
  const PlaneDistanceZ: real := 34.0

  /** The forward pinhole projection u = fx * X / Z + cx, v = fy * Y / Z + cy. */
  function Project(q: PlanePoint, k: Intrinsics, z: real): (p: PixelPoint)
    requires z != 0.0
    ensures (p.u - k.cx) * z == k.fx * q.x
    ensures (p.v - k.cy) * z == k.fy * q.y
  {
    PixelPoint(k.fx * q.x / z + k.cx, k.fy * q.y / z + k.cy)
  }

  /** X = (u - cx) * Z / fx and Y = (v - cy) * Z / fy  (app.py lines 42-47). */
  function Unproject(p: PixelPoint, k: Intrinsics, z: real): (q: PlanePoint)
    requires k.Invertible()
    ensures q.x * k.fx == (p.u - k.cx) * z
    ensures q.y * k.fy == (p.v - k.cy) * z
  {
    PlanePoint((p.u - k.cx) * z / k.fx, (p.v - k.cy) * z / k.fy)
  }

  /** Unprojection undoes projection: a plane point comes back unchanged. */
  lemma UnprojectProject(q: PlanePoint, k: Intrinsics, z: real)
    requires k.Invertible() && z != 0.0
    ensures Unproject(Project(q, k, z), k, z) == q
  {
    var p := Project(q, k, z);
    var r := Unproject(p, k, z);
    assert r.x * k.fx * z == k.fx * q.x * z;
    assert r.y * k.fy * z == k.fy * q.y * z;
    CancelNonZero(r.x, q.x, k.fx * z);
    CancelNonZero(r.y, q.y, k.fy * z);
  }

  /** Projection undoes unprojection: a pixel comes back unchanged. */
  lemma ProjectUnproject(p: PixelPoint, k: Intrinsics, z: real)
    requires k.Invertible() && z != 0.0
    ensures Project(Unproject(p, k, z), k, z) == p
  {
    var q := Unproject(p, k, z);
    var r := Project(q, k, z);
    assert (r.u - k.cx) * z * k.fx == (p.u - k.cx) * z * k.fx;
    assert (r.v - k.cy) * z * k.fy == (p.v - k.cy) * z * k.fy;
    CancelNonZero(r.u - k.cx, p.u - k.cx, z * k.fx);
    CancelNonZero(r.v - k.cy, p.v - k.cy, z * k.fy);
  }

  /** Signed world deltas between the two unprojected points (app.py lines 50-51). */
  function Measure(p1: PixelPoint, p2: PixelPoint, k: Intrinsics, z: real): (m: Measurement)
    requires k.Invertible()
    ensures m.deltaX * k.fx == (p2.u - p1.u) * z
    ensures m.deltaY * k.fy == (p2.v - p1.v) * z
  {
    var w1 := Unproject(p1, k, z);
    var w2 := Unproject(p2, k, z);
    Measurement(w2.x - w1.x, w2.y - w1.y)
  }

  /** The principal point cancels out: it affects neither delta, hence not the distance. */
  lemma MeasureIgnoresPrincipalPoint(p1: PixelPoint, p2: PixelPoint, k: Intrinsics, z: real,
                                     cx: real, cy: real)
    requires k.Invertible()
    ensures Measure(p1, p2, k, z) == Measure(p1, p2, k.(cx := cx, cy := cy), z)
  {
    var m := Measure(p1, p2, k, z);
    var n := Measure(p1, p2, k.(cx := cx, cy := cy), z);
    CancelNonZero(m.deltaX, n.deltaX, k.fx);
    CancelNonZero(m.deltaY, n.deltaY, k.fy);
  }

  /** Swapping the points negates both deltas and leaves the squared distance as it was. */
  lemma MeasureSwap(p1: PixelPoint, p2: PixelPoint, k: Intrinsics, z: real)
    requires k.Invertible()
    ensures Measure(p2, p1, k, z) == Measurement(-Measure(p1, p2, k, z).deltaX, -Measure(p1, p2, k, z).deltaY)
    ensures SquaredDistance(Measure(p2, p1, k, z)) == SquaredDistance(Measure(p1, p2, k, z))
  {
    var m := Measure(p1, p2, k, z);
    var n := Measure(p2, p1, k, z);
    assert -m.deltaX * k.fx == (p1.u - p2.u) * z;
    assert -m.deltaY * k.fy == (p1.v - p2.v) * z;
    CancelNonZero(n.deltaX, -m.deltaX, k.fx);
    CancelNonZero(n.deltaY, -m.deltaY, k.fy);
  }

  /** A distance is the same whichever point comes first. */
  lemma DistanceSymmetric(p1: PixelPoint, p2: PixelPoint, k: Intrinsics, z: real, d: real)
    requires k.Invertible()
    ensures IsDistance(d, Measure(p1, p2, k, z).deltaX, Measure(p1, p2, k, z).deltaY)
        <==> IsDistance(d, Measure(p2, p1, k, z).deltaX, Measure(p2, p1, k, z).deltaY)
  {
    MeasureSwap(p1, p2, k, z);
  }

  /** A point measured against itself gives zero deltas, and only the distance 0 fits them. */
  lemma MeasureSelf(p: PixelPoint, k: Intrinsics, z: real, d: real)
    requires k.Invertible()
    ensures Measure(p, p, k, z) == Measurement(0.0, 0.0)
    ensures IsDistance(d, 0.0, 0.0) <==> d == 0.0
  {
    if IsDistance(d, 0.0, 0.0) {
      DistanceZeroIff(d, 0.0, 0.0);
    }
  }

  /**
   * The two measurement flows agree: the magnitude of the service's signed
   * delta (app.py lines 50-51 and 64-65) equals the script's
   * "magnitude of the pixel difference first" delta (A1.py lines 48-54),
   * whichever sides of the principal point the two points lie on.
   */
  lemma AbsOfSignedEqualsAbsFirst(p1: PixelPoint, p2: PixelPoint, k: Intrinsics, z: real)
    requires k.Valid() && z > 0.0
    ensures Abs(Measure(p1, p2, k, z).deltaX) == DeltaMeasure.AbsDeltas(p1, p2, k, z).deltaX
    ensures Abs(Measure(p1, p2, k, z).deltaY) == DeltaMeasure.AbsDeltas(p1, p2, k, z).deltaY
  {
    var m := Measure(p1, p2, k, z);
    var a := DeltaMeasure.AbsDeltas(p1, p2, k, z);
    AbsScaled(m.deltaX, p2.u - p1.u, z, k.fx, a.deltaX);
    AbsScaled(m.deltaY, p2.v - p1.v, z, k.fy, a.deltaY);
  }

  /** If x * f == d * z and y * f == |d| * z with z, f > 0, then |x| == y. */
  lemma AbsScaled(x: real, d: real, z: real, f: real, y: real)
    requires z > 0.0 && f > 0.0
    requires x * f == d * z && y * f == Abs(d) * z
    ensures Abs(x) == y
  {
    if d >= 0.0 {
      CancelNonZero(x, y, f);
    } else {
      assert (-x) * f == Abs(d) * z;
      CancelNonZero(-x, y, f);
      assert x < 0.0 by {
        assert d * z < 0.0;
      }
    }
  }

  /**
   * With the service's configuration, the points (974, 958) and
   * (1241, 959) are about 5.4440 cm apart horizontally and 0.0171 cm
   * vertically.
   */
  lemma ServiceExample()
    ensures 5.4439 < Measure(PixelPoint(974.0, 958.0), PixelPoint(1241.0, 959.0), ServiceIntrinsics, PlaneDistanceZ).deltaX < 5.4440
    ensures 0.0171 < Measure(PixelPoint(974.0, 958.0), PixelPoint(1241.0, 959.0), ServiceIntrinsics, PlaneDistanceZ).deltaY < 0.0172
  {
  }
}
