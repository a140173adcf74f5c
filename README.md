# Pinhole plane measurement

A model of the measurement core of a small Python project that turns two
clicked pixels into a distance in centimetres on a flat object plane at a
known depth, using the pinhole camera model. The arithmetic appears twice:

- `A1.py`, a standalone script. It copies a camera matrix calibrated at
  1280x720 and rescales fx and cx by the width factor and fy and cy by the
  height factor for a 2220x1480 image. It then converts the magnitudes of
  the pixel differences into centimetres with the scaled focal lengths and
  takes the diagonal by Pythagoras.
- `app.py`, a web service whose `calculate` handler unprojects both pixels with
  X = (u - cx) * Z / fx and Y = (v - cy) * Z / fy. It forms signed deltas
  and the Euclidean distance, and answers with the magnitudes of the deltas,
  or with an error response when the JSON body lacks a point or a coordinate.

Everything is modelled over Dafny's exact `real`, so the algebraic laws hold
exactly. The modules are:

- `Camera`: the value types (intrinsics, resolution, pixel and plane points,
  a measurement) and the facts about a Euclidean distance. A distance is
  characterised by `IsDistance(d, dX, dY)`, meaning d >= 0 and
  d * d == dX * dX + dY * dY, instead of being computed by a square root.
- `Scaling`: the scale factors, the value-level `Scale`, and the in-place
  step on a fresh `array2<real>` copy of the 3x3 matrix.
- `DeltaMeasure`: the script's magnitude-first conversion and its constants.
- `PlaneProjector`: projection, unprojection and signed deltas, plus the lemma
  that the two flows agree.
- `Endpoint`: the handler on a parsed JSON body, with its error path.

Neither file checks its configuration. Focal lengths, resolutions and the
depth are constants in the source, so the model takes what the divisions
need as preconditions (non-zero focal lengths, positive calibration
dimensions) and puts positivity in the lemmas that need it. No error
results are modelled for bad configuration.

The script's comment at `A1.py` line 23 says the scaling updates the initial
matrix in place. The code scales a copy, and `Scaling.ScaleCameraMatrix`
states that its input is unchanged. The script's two points give a
horizontal difference of about 5.2796 cm and a vertical one of about
0.0167 cm (`DeltaMeasure.ScriptDeltas`). The abs-first form of the script and
the subtract-then-abs form of the service agree for every pair of points
when Z > 0 and the focal lengths are positive, whichever side of the
principal point each point lies on. The principal point cancels out of the
deltas.

## Model

| member | source | states |
|---|---|---|
| `Scaling.ScaleFactors` | A1.py:19-20 | both factors are positive when the target resolution is |
| `Scaling.ScaleFactorsMeaning` | A1.py:19-20 | each factor is the unique number that maps its own calibration dimension onto the target dimension (factor * calibration == target), the two axes independently |
| `Scaling.Scale` | A1.py:24-28 | positive focal lengths stay positive under scaling to a positive resolution, so the later divisions are defined |
| `Scaling.ScaleLinear` | A1.py:24-28 | scaled fx and cx relate to the originals as target width to calibration width, fy and cy as target height to calibration height |
| `Scaling.IdentityFactors` | A1.py:19-20 | a resolution scaled onto itself uses the factors (1, 1) |
| `Scaling.ScaleIdentity` | A1.py:19-28 | scaling to the calibration resolution returns the intrinsics unchanged |
| `Scaling.ScaleCompose` | A1.py:19-28 | scaling a to b and then b to c equals scaling a to c, so the factors compose multiplicatively |
| `Scaling.ScriptFactorsDiffer` | A1.py:10-20 | the script's factors are 1.734375 and 18.5/9, so no aspect ratio is kept |
| `Scaling.IntrinsicsOf` | A1.py:44-45 | fx is read from [0,0] and fy from [1,1], as the script reads them back; cx and cy come from [0,2] and [1,2], where the matrix of A1.py lines 4-5 holds them, though the script never reads them back |
| `Scaling.NewCameraMatrix` | A1.py:3-7 | a fresh 3x3 matrix with zero skew, bottom row [0, 0, 1], and the given fx, fy, cx, cy |
| `Scaling.ScaleCameraMatrix` | A1.py:24-28 | a fresh copy whose [0,0] and [0,2] are multiplied by the x factor and [1,1] and [1,2] by the y factor; every other entry is copied; the input matrix is unchanged; the copy holds `Scale` of the input's intrinsics and keeps the pinhole shape |
| `Scaling.ScaleCameraMatrixToSelf` | A1.py:19-28 | scaling a matrix to the resolution it was calibrated at gives a fresh copy equal to the input in all nine entries, and leaves the input unchanged |
| `DeltaMeasure.AbsDeltas` | A1.py:48-54 | deltaX * fx == abs(u2 - u1) * Z and deltaY * fy == abs(v2 - v1) * Z; both are non-negative for positive focal lengths and Z >= 0 |
| `DeltaMeasure.AbsDeltasSymmetric` | A1.py:48-54 | the deltas are the same when the two points are swapped |
| `DeltaMeasure.DiagonalZeroIff` | A1.py:48-57 | for Z > 0 and positive focal lengths, the diagonal is zero exactly when both pixel differences are zero, and it is at least each world delta |
| `DeltaMeasure.ScriptIntrinsics` | A1.py:3-28 | the script's intrinsics are valid, with fx = 991.3966961255147 * 2220 / 1280 and fy = 991.6283280689119 * 1480 / 720 |
| `DeltaMeasure.ScriptDeltas` | A1.py:35-54 | for the script's points and Z = 34, 5.2795 < deltaX < 5.2796 and 0.0166 < deltaY < 0.0167 |
| `DeltaMeasure.RunScript` | A1.py:3-54 | building, copying and scaling the matrix, then reading its focal lengths, gives exactly the value-level deltas for the script's inputs, within the bounds above |
| `DeltaMeasure.ScriptDiagonal` | A1.py:57 | the diagonal of the script's two points lies strictly between 5.2795 cm and 5.2797 cm |
| `Camera.Abs` | A1.py:48-49 | Python's `abs` on a real, here and at app.py lines 64-65: the result is non-negative and is x or -x |
| `Camera.IsDistance` | A1.py:57 | what `sqrt(dX**2 + dY**2)` denotes: d >= 0 and d * d == dX^2 + dY^2 (it fixes one value, by `Camera.DistanceUnique`) |
| `Camera.SquaredDistance` | app.py:54 | the square under the root is non-negative, and a distance of a measurement is exactly a non-negative root of it |
| `Camera.DistanceUnique` | A1.py:57 | two non-negative values whose squares are dX^2 + dY^2 are equal, so the characterisation fixes the square root |
| `Camera.DistanceDominatesDeltas` | A1.py:57 | the diagonal is at least abs(dX) and at least abs(dY) |
| `Camera.DistanceZeroIff` | app.py:54 | the distance is zero exactly when both deltas are zero |
| `Camera.DistanceOfMagnitudes` | app.py:54-66 | a distance of the signed deltas is exactly a distance of their magnitudes |
| `PlaneProjector.Project` | app.py:37-39 | (u - cx) * Z == fx * X and (v - cy) * Z == fy * Y |
| `PlaneProjector.Unproject` | app.py:42-47 | X * fx == (u - cx) * Z and Y * fy == (v - cy) * Z |
| `PlaneProjector.UnprojectProject` | app.py:37-47 | for Z and focal lengths non-zero, unprojecting a projected plane point returns it |
| `PlaneProjector.ProjectUnproject` | app.py:37-47 | for Z and focal lengths non-zero, projecting an unprojected pixel returns it |
| `PlaneProjector.Measure` | app.py:42-51 | delta_x * fx == (u2 - u1) * Z and delta_y * fy == (v2 - v1) * Z, with no principal point in them |
| `PlaneProjector.MeasureIgnoresPrincipalPoint` | app.py:42-51 | replacing cx and cy by any values leaves both deltas unchanged |
| `PlaneProjector.MeasureSwap` | app.py:50-54 | swapping p1 and p2 negates both deltas and keeps the squared distance |
| `PlaneProjector.DistanceSymmetric` | app.py:50-54 | d is a distance of (p1, p2) exactly when it is one of (p2, p1) |
| `PlaneProjector.MeasureSelf` | app.py:50-54 | a point against itself gives zero deltas, and 0 is the only distance of zero deltas |
| `PlaneProjector.AbsOfSignedEqualsAbsFirst` | app.py:50-65 | for Z > 0 and positive focal lengths, abs of the service's signed deltas equals the script's abs-first deltas of A1.py lines 48-54 |
| `PlaneProjector.ServiceExample` | app.py:10-51 | with the service's constants, (974, 958) to (1241, 959) gives 5.4439 < delta_x < 5.4440 and 0.0171 < delta_y < 0.0172 |
| `Endpoint.Lookup` | app.py:30-35 | `j[key]` succeeds exactly on an object holding the key and yields its value; otherwise it fails with a missing key (object) or a type error (not an object) |
| `Endpoint.AsNumber` | app.py:42-47 | a coordinate takes part in the arithmetic exactly when it is a number or a boolean, and fails with a type error otherwise |
| `Endpoint.Payload` | app.py:29-35 | the body built from two points is well formed |
| `Endpoint.Respond` | app.py:63-67 | dX and dY are the magnitudes of the signed deltas, and the squared distance is dX^2 + dY^2 |
| `Endpoint.Calculate` | app.py:27-71 | a measurement is returned exactly when the body is well formed; otherwise the response carries the fixed error text; dX, dY >= 0 and distance^2 == dX^2 + dY^2 |
| `Endpoint.CalculatePayload` | app.py:30-67 | a body built from two points is answered with the response for their measurement |
| `Endpoint.NonObjectBody` | app.py:30 | a body that is not an object fails with a type error |
| `Endpoint.MissingFirstPoint` | app.py:30 | an object body without "p1" fails with a missing "p1", whatever else it holds |
| `Endpoint.MissingSecondPoint` | app.py:30-31 | with "p1" present but "p2" missing, it fails with a missing "p2", before looking inside either point |
| `Endpoint.MissingCoordinate` | app.py:30-35 | with both points present and the first lacking "x", it fails with a missing "x" |
| `Endpoint.CalculateSwap` | app.py:30-67 | swapping the two points in the body gives the same response |
| `Endpoint.CalculateAgreesWithScript` | app.py:50-65 | the service's dX and dY for a body equal the script's abs-first deltas at the same intrinsics and depth, for Z > 0 and positive focal lengths |
| `Endpoint.ServiceResponse` | app.py:10-67 | the service with its own constants answers 5.4439 < dX < 5.4440 and 0.0171 < dY < 0.0172 for (974, 958) to (1241, 959) |

## Left out

- Flask routing, `render_template`, `request.get_json`, `jsonify`, HTTP status codes and `app.run` (app.py lines 3-7, 21-23, 29, 63, 71, 74-76) are web plumbing. The handler is modelled on an already-parsed JSON value.
- All `print` logging (A1.py lines 30 and 61-69; app.py lines 57-60 and 70) produces output only.
- Floating-point behaviour and numpy/math semantics: the model computes over exact reals and says nothing about rounding error.
- `math.sqrt` and `np.sqrt` are not computed. The distance is characterised by `Camera.IsDistance`, and `Camera.DistanceUnique` shows that this determines it.
- Endpoint.Respond: the response holds the squared distance instead of `round(sqrt(...), 4)`, because the model has no square root.
- `round(..., 4)` on the three outputs (app.py lines 64-66) is display formatting and is not modelled. The model returns the exact values.
- The `except Exception` catch-all (app.py line 69) is modelled only for missing keys and type errors. With non-zero focal lengths no other failure arises on reals. The `details` text is modelled as the cause (which key was missing, or a type error), not as Python's exception message.
- Scaling.ScaleCameraMatrix: its own ensures do not state that equal calibration and target resolutions give an identical copy; `Scaling.ScaleCameraMatrixToSelf` states that, from these ensures and `Scaling.ScaleIdentity`.
- Configuration is never validated in the source, so there is no error result for a non-positive focal length, resolution or depth. These are preconditions or lemma hypotheses.
