/**
 * The arithmetic of the service's `calculate` handler (app.py lines 26-71)
 * on an already-parsed JSON body: the two points are looked up, their
 * coordinates are used as numbers, and the result is the magnitudes of the
 * signed deltas with the squared distance, or the error response the
 * handler's catch-all produces.
 */
module Endpoint {
  import opened Camera
  import opened PlaneProjector
  import DeltaMeasure

  /** A parsed JSON value. */
  datatype Json =
    | JNull
    | JBool(b: bool)
    | JNumber(n: real)
    | JString(s: string)
    | JArray(items: seq<Json>)
    | JObject(fields: map<string, Json>)

  /**
   * Why the handler failed: a dictionary lookup of a missing key (Python's
   * KeyError), or a lookup in a value that is no dictionary, or arithmetic
   * on a value that is no number (Python's TypeError).
   */
  datatype Cause = MissingKey(key: string) | WrongType

  /** The response body: the measurement, or the fixed error text with its cause. */
  datatype Response =
    | Measured(dX: real, dY: real, squaredDistance: real)
    | Failed(error: string, details: Cause)

  /** The fixed error text of app.py line 71. */
  const ErrorText: string := "Invalid input or calculation failure"

  /** `j[key]`: a dictionary lookup that fails like Python's indexing does. */
  function Lookup(j: Json, key: string): (r: Result<Json>)
    ensures r.Ok? <==> j.JObject? && key in j.fields
    ensures r.Ok? ==> r.value == j.fields[key]
    ensures r.Err? ==> r.cause == (if j.JObject? then MissingKey(key) else WrongType)
  {
    match j
    case JObject(fields) => if key in fields then Ok(fields[key]) else Err(MissingKey(key))
    case _ => Err(WrongType)
  }

  /**
   * The value a coordinate contributes to `pixel - CENTER`.  Python's bool
   * is an int, so true and false take part in arithmetic as 1 and 0; every
   * other non-number raises a TypeError.
   */
  function AsNumber(j: Json): (r: Result<real>)
    ensures r.Ok? <==> j.JNumber? || j.JBool?
    ensures j.JNumber? ==> r == Ok(j.n)
    ensures r.Err? ==> r.cause == WrongType
  {
    match j
    case JNumber(n) => Ok(n)
    case JBool(b) => Ok(if b then 1.0 else 0.0)
    case _ => Err(WrongType)
  }

  /** A lookup or conversion that either yields a value or fails with a cause. */
  datatype Result<T> = Ok(value: T) | Err(cause: Cause)
  {
    predicate IsFailure() { Err? }

    function PropagateFailure<U>(): Result<U>
      requires Err?
    {
      Err(cause)
    }

    function Extract(): T
      requires Ok?
    {
      value
    }
  }

  /** The part of a payload the handler reads, when it reads without failing. */
  predicate WellFormed(data: Json)
  {
    && data.JObject? && "p1" in data.fields && "p2" in data.fields
    && IsPoint(data.fields["p1"]) && IsPoint(data.fields["p2"])
  }

  /** A point object whose "x" and "y" are usable as numbers. */
  predicate IsPoint(j: Json)
  {
    && j.JObject? && "x" in j.fields && "y" in j.fields
    && (j.fields["x"].JNumber? || j.fields["x"].JBool?)
    && (j.fields["y"].JNumber? || j.fields["y"].JBool?)
  }

  /** The JSON body a client sends for two points with numeric coordinates. */
  function Payload(p1: PixelPoint, p2: PixelPoint): (j: Json)
    ensures WellFormed(j)
  {
    JObject(map["p1" := PointJson(p1), "p2" := PointJson(p2)])
  }

  function PointJson(p: PixelPoint): (j: Json)
    ensures IsPoint(j)
  {
    JObject(map["x" := JNumber(p.u), "y" := JNumber(p.v)])
  }

  /** The successful response for a measurement (app.py lines 63-67, before rounding). */
  function Respond(m: Measurement): (r: Response)
    ensures r.Measured? && r.dX >= 0.0 && r.dY >= 0.0
    ensures r.dX == Abs(m.deltaX) && r.dY == Abs(m.deltaY)
    ensures r.squaredDistance == r.dX * r.dX + r.dY * r.dY
  {
    Measured(Abs(m.deltaX), Abs(m.deltaY), SquaredDistance(m))
  }

  /**
   * The handler: look up p1 and p2 (lines 30-31), then x and y of each
   * (lines 34-35), use the four coordinates as numbers in the order the
   * unprojection does (lines 42-47), and measure (lines 50-54).  The first
   * failure decides the error response (lines 69-71).
   */
  function Calculate(data: Json, k: Intrinsics, z: real): (r: Response)
    requires k.Invertible()
    ensures r.Measured? <==> WellFormed(data)
    ensures r.Failed? ==> r.error == ErrorText
    ensures r.Measured? ==> r.dX >= 0.0 && r.dY >= 0.0
    ensures r.Measured? ==> r.squaredDistance == r.dX * r.dX + r.dY * r.dY
  {
    var reading: Result<(PixelPoint, PixelPoint)> :=
      var j1 :- Lookup(data, "p1");
      var j2 :- Lookup(data, "p2");
      var x1 :- Lookup(j1, "x");
      var y1 :- Lookup(j1, "y");
      var x2 :- Lookup(j2, "x");
      var y2 :- Lookup(j2, "y");
      var u1 :- AsNumber(x1);
      var v1 :- AsNumber(y1);
      var u2 :- AsNumber(x2);
      var v2 :- AsNumber(y2);
      Ok((PixelPoint(u1, v1), PixelPoint(u2, v2)));
    match reading
    case Ok((p1, p2)) => Respond(Measure(p1, p2, k, z))
    case Err(cause) => Failed(ErrorText, cause)
  }

  /** A well-formed payload is measured exactly as its two points are. */
  lemma CalculatePayload(p1: PixelPoint, p2: PixelPoint, k: Intrinsics, z: real)
    requires k.Invertible()
    ensures Calculate(Payload(p1, p2), k, z) == Respond(Measure(p1, p2, k, z))
  {
  }

  /** A body that is no JSON object fails on the first lookup. */
  lemma NonObjectBody(data: Json, k: Intrinsics, z: real)
    requires k.Invertible() && !data.JObject?
    ensures Calculate(data, k, z) == Failed(ErrorText, WrongType)
  {
  }

  /** A body without "p1" fails on that key, whatever else it holds. */
  lemma MissingFirstPoint(fields: map<string, Json>, k: Intrinsics, z: real)
    requires k.Invertible() && "p1" !in fields
    ensures Calculate(JObject(fields), k, z) == Failed(ErrorText, MissingKey("p1"))
  {
  }

  /** A body with "p1" but without "p2" fails on "p2", before any coordinate is read. */
  lemma MissingSecondPoint(fields: map<string, Json>, k: Intrinsics, z: real)
    requires k.Invertible() && "p1" in fields && "p2" !in fields
    ensures Calculate(JObject(fields), k, z) == Failed(ErrorText, MissingKey("p2"))
  {
  }

  /** A first point without "x" fails on "x" once both points are present. */
  lemma MissingCoordinate(p1fields: map<string, Json>, j2: Json, k: Intrinsics, z: real)
    requires k.Invertible() && "x" !in p1fields
    ensures Calculate(JObject(map["p1" := JObject(p1fields), "p2" := j2]), k, z)
         == Failed(ErrorText, MissingKey("x"))
  {
  }

  /** Swapping p1 and p2 in the body gives the same response. */
  lemma CalculateSwap(p1: PixelPoint, p2: PixelPoint, k: Intrinsics, z: real)
    requires k.Invertible()
    ensures Calculate(Payload(p2, p1), k, z) == Calculate(Payload(p1, p2), k, z)
  {
    MeasureSwap(p1, p2, k, z);
  }

  /**
   * The service's answer for magnitudes agrees with the script's
   * magnitude-first deltas, at the same intrinsics and depth.
   */
  lemma CalculateAgreesWithScript(p1: PixelPoint, p2: PixelPoint, k: Intrinsics, z: real)
    requires k.Valid() && z > 0.0
    ensures Calculate(Payload(p1, p2), k, z).dX == DeltaMeasure.AbsDeltas(p1, p2, k, z).deltaX
    ensures Calculate(Payload(p1, p2), k, z).dY == DeltaMeasure.AbsDeltas(p1, p2, k, z).deltaY
  {
    CalculatePayload(p1, p2, k, z);
    AbsOfSignedEqualsAbsFirst(p1, p2, k, z);
  }

  /**
   * The service with its own configuration (app.py lines 10-18) answers
   * about 5.4440 cm horizontally and 0.0171 cm vertically for the points
   * (974, 958) and (1241, 959).
   */
  lemma ServiceResponse()
    ensures var r := Calculate(Payload(PixelPoint(974.0, 958.0), PixelPoint(1241.0, 959.0)),
                               ServiceIntrinsics, PlaneDistanceZ);
            r.Measured? && 5.4439 < r.dX < 5.4440 && 0.0171 < r.dY < 0.0172
  {
    CalculatePayload(PixelPoint(974.0, 958.0), PixelPoint(1241.0, 959.0), ServiceIntrinsics, PlaneDistanceZ);
    ServiceExample();
  }
}
