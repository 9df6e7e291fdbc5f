# gtsam-quadrics core in Dafny

This project models three parts of gtsam-quadrics, a SLAM back end that treats
objects as ellipsoids ("quadrics") seen only through their image bounding boxes:

- **Dual conics** (`dual_conic.dfy`, module `Conics`). A conic is held as its 3x3
  line matrix C*. It is built from a matrix, from a planar pose and two radii, or
  as the default unit circle. The module covers normalisation up to scale, the
  degeneracy and ellipse tests on the determinant, equality after normalisation,
  and the two box extractors. The tangent-line `bounds` and the extremal-point
  `smartBounds` are numeric kernels passed in as parameters.
- **The bounding-box factor** (`bounding_box_factor.dfy`, module `BoxFactor`).
  `evaluateError` projects the quadric through the camera (a kernel parameter)
  and extracts the predicted box in the factor's SIMPLE or COMPLEX mode. It
  returns the residual `predicted - measured` and the chain-rule Jacobians
  `db/dC * dC/dx` and `db/dC * dC/dq`. When a projection exception is raised, it
  returns the sentinel instead: all four residual components are 1000 and the
  Jacobians are zero. A COMPLEX-mode `smartBounds` runtime error is first turned
  into a projection exception. The module also has `evaluateH1`/`evaluateH2`
  (directly and through a Values lookup) and `equals`.
- **Data association** (`data_association.dfy`, module `Association`).
  `ObjectTracker` and `DataAssociation` are classes whose fields the methods
  update in place. A detection is scored against the box predicted for every map
  quadric, then against every live object tracker. Iteration follows the dict's
  insertion order, which the `keyOrder` field records. The detection joins the
  first best candidate when its IoU reaches the threshold. If that candidate is a
  tracker, the detection also gets a new box tracker. Otherwise the detection
  starts a new object under the next key from the counter. The class invariant
  `Valid()` says the dict, its iteration order and the counter stay consistent.

Supporting modules: `wrappers.dfy` (Option, Result), `linear.dfy` (matrices as
sequences of rows, products, tolerance comparison) and `geometry.dfy` (AlignedBox2,
Cal3_S2, poses, quadric values, exception values).

The code returns a different value from `associate_detection` than its own
docstring describes. The code returns the bare object key
(`quadricslam/base/data_association.py:243`, `:249`, `:260`). The docstring
promises a `(key, type)` pair, and the caller at line 162 unpacks three values.
The model follows the code: the method returns the key and records the branch it
took only as a ghost `Decision`. The docstring also lists a `failed` outcome, but
no path of the code produces one. A projection exception in the first loop
(the TODO at line 212) is not caught. It leaves the call with the state
unchanged, which the model shows as `Failure`.

## Model

| member | source | states |
|---|---|---|
| `Conics.DualConic.Normalize` | quadricslam/geometry/DualConic.h:60-61 | the normalised conic is a nonzero multiple of the original |
| `Conics.NormalizeScaled` | quadricslam/geometry/DualConic.h:60-61 | positive multiples of a conic have the same normal form |
| `Conics.NormalizeIdempotent` | quadricslam/geometry/DualConic.h:60-61 | normalising twice equals normalising once |
| `Conics.EqualsScaleInvariant` | quadricslam/geometry/DualConic.h:88-89 | `equals` cannot tell a conic from a positive multiple of it, on either side |
| `Conics.EqualsOwnNormalize` | quadricslam/geometry/DualConic.h:88-89 | a conic equals its own normalised form |
| `Conics.EqualsReflexive` | quadricslam/geometry/DualConic.h:88-89 | every conic equals itself at the default tolerance 1e-9 |
| `Conics.MatrixRoundTrip` | quadricslam/geometry/DualConic.h:47-58 | `matrix()` returns the matrix the conic was built from |
| `Conics.UnitCircle` | quadricslam/geometry/DualConic.h:43-44 | the default conic is the radius-1 ellipse at the identity pose, is not degenerate, and is an ellipse |
| `Conics.EllipseAt` | quadricslam/geometry/DualConic.h:50-51 | the conic built from a pose and radii is symmetric, centred at the pose's translation, with last row (-x, -y, -1) |
| `Conics.EllipseAtQForm` | quadricslam/geometry/DualConic.h:50-51 | a line meets the placed conic as it meets diag(r1^2, r2^2, -1) after moving it into the pose's frame |
| `Conics.EllipseAtFirstAxis` | quadricslam/geometry/DualConic.h:50-51 | the lines perpendicular to the pose's rotated x axis at distance r1 from the centre are tangent: the first radius lies along that axis |
| `Conics.EllipseAtSecondAxis` | quadricslam/geometry/DualConic.h:50-51 | the lines perpendicular to the pose's rotated y axis at distance r2 from the centre are tangent: the second radius lies along that axis |
| `Conics.EllipseAtDet` | quadricslam/geometry/DualConic.h:50-51 | its determinant is -(r1 r2)^2 for every pose |
| `Conics.EllipseAtIsEllipse` | quadricslam/geometry/DualConic.h:69-79 | a conic built from a pose and radii is an ellipse exactly when it is not degenerate, which holds exactly when (r1 r2)^2 reaches the tolerance |
| `Conics.DegenerateIsNotEllipse` | quadricslam/geometry/DualConic.h:69-79 | no degenerate conic is an ellipse |
| `Conics.DualConic.Matrix` | quadricslam/geometry/DualConic.h:58 | the returned matrix rebuilds the same conic |
| `Conics.DualConic.IsDegenerate` | quadricslam/geometry/DualConic.h:69-73 | degenerate exactly when det(C*) lies strictly within the tolerance of 0; every singular conic is degenerate |
| `Conics.DualConic.IsEllipse` | quadricslam/geometry/DualConic.h:75-79 | an ellipse exactly when the conic is not degenerate and C*[2][2] * det(C*) > 0 |
| `Conics.AdjugateCornerMinor` | quadricslam/geometry/DualConic.h:75-79 | the point conic's upper-left 2x2 minor (from the adjugate) equals C*[2][2] * det(C*) |
| `Conics.DualConic.Equals` | quadricslam/geometry/DualConic.h:88-89 | equal exactly when every entry of the other's normal form is within tol of this one's |
| `Conics.DualConic.Bounds` | quadricslam/geometry/DualConic.h:63-67 | bounds fail exactly when the kernel fails; otherwise they return the kernel's box, plus its Jacobian only when one is requested |
| `Conics.DualConic.SmartBounds` | gtsam_quadrics/geometry/BoundingBoxFactor.cpp:66 | as Bounds, for the extremal-point kernel and its runtime error |
| `Conics.BoundsIgnoresJacobianRequest` | quadricslam/geometry/DualConic.h:63-67 | the box does not depend on whether a Jacobian is requested |
| `BoxFactor.Project` | gtsam_quadrics/geometry/BoundingBoxFactor.cpp:43-50 | projection succeeds exactly when the camera kernel does; it returns that conic, and each requested derivative is the kernel's, present exactly when requested |
| `BoxFactor.ExtractBounds` | gtsam_quadrics/geometry/BoundingBoxFactor.cpp:57-81 | SIMPLE mode uses `bounds`; COMPLEX mode uses `smartBounds`, whose every failure becomes the projection exception "smartbounds failed" |
| `BoxFactor.SentinelError` | gtsam_quadrics/geometry/BoundingBoxFactor.cpp:142 | all four components are 1000 |
| `BoxFactor.EvaluateError` | gtsam_quadrics/geometry/BoundingBoxFactor.cpp:31-159 | a Jacobian is returned exactly when requested; on a projection exception the result is the sentinel residual and zero Jacobians; otherwise residual = predicted - measured, H1 = db_dC * dC_dx and H2 = db_dC * dC_dq |
| `BoxFactor.SentinelExactlyOnKernelFailure` | gtsam_quadrics/geometry/BoundingBoxFactor.cpp:61-78 | the sentinel path is taken exactly when projection fails, or the extractor for the factor's mode fails |
| `BoxFactor.SentinelOutcome` | gtsam_quadrics/geometry/BoundingBoxFactor.cpp:137-157 | when a kernel fails, the result is exactly (1000,1000,1000,1000) with zero 4x6 and 4x9 Jacobians for whatever was requested |
| `BoxFactor.ModeSelectsExtractor` | gtsam_quadrics/geometry/BoundingBoxFactor.cpp:61-78 | the predicted box and db_dC come from `bounds` in SIMPLE mode and from `smartBounds` in COMPLEX mode |
| `BoxFactor.ResidualIgnoresRequests` | gtsam_quadrics/geometry/BoundingBoxFactor.cpp:58-92 | the residual is the same whichever Jacobians are requested |
| `BoxFactor.ZeroResidualAtPrediction` | gtsam_quadrics/geometry/BoundingBoxFactor.cpp:92 | a measurement equal to the prediction gives the zero residual |
| `BoxFactor.EvaluateH1` | gtsam_quadrics/geometry/BoundingBoxFactor.cpp:162-166 | the H1 of the full evaluation: zero on the sentinel path, db_dC * dC_dx otherwise |
| `BoxFactor.EvaluateH2` | gtsam_quadrics/geometry/BoundingBoxFactor.cpp:169-173 | the H2 of the full evaluation: zero on the sentinel path, db_dC * dC_dq otherwise |
| `BoxFactor.PoseAt` | gtsam_quadrics/geometry/BoundingBoxFactor.cpp:177 | the lookup succeeds exactly when a pose is stored under the key, and otherwise names the key and why it failed |
| `BoxFactor.QuadricAt` | gtsam_quadrics/geometry/BoundingBoxFactor.cpp:178 | the same, for a quadric |
| `BoxFactor.EvaluateH1At` | gtsam_quadrics/geometry/BoundingBoxFactor.cpp:176-180 | succeeds exactly when both variables are present with the right types; it returns EvaluateH1 there, and otherwise reports the pose key first |
| `BoxFactor.EvaluateH2At` | gtsam_quadrics/geometry/BoundingBoxFactor.cpp:183-187 | the same, for EvaluateH2 |
| `BoxFactor.Predict` | gtsam_quadrics/geometry/BoundingBoxFactor.cpp:43-81 | on failure, the exception is the projection's; else in SIMPLE mode the bounds exception; else "smartbounds failed". On success, the derivatives are the projection's |
| `BoxFactor.Equals` | gtsam_quadrics/geometry/BoundingBoxFactor.cpp:197-203 | equal factors have the same two keys, and their measured boxes, calibrations and noise models agree within tol |
| `BoxFactor.EqualsComparesKeysNotModel` | gtsam_quadrics/geometry/BoundingBoxFactor.cpp:197-203 | equal factors have the same two keys; the measurement model is not compared |
| `Association.ToCvBox` | quadricslam/base/data_association.py:36-37 | the corner is kept as the top-left point, and a well-formed box gets non-negative width and height |
| `Association.FromCvBox` | quadricslam/base/data_association.py:39-41 | converting back to OpenCV form recovers the (x, y, w, h) box |
| `Association.CvBoxRoundTrip` | quadricslam/base/data_association.py:35-41 | from_cvbox(to_cvbox(b)) == b |
| `Association.TrackerReport` | quadricslam/base/data_association.py:63-66 | the ok flag is passed through, and the box converts back to OpenCV's report |
| `Association.LastN` | quadricslam/base/data_association.py:92 | Python's s[-n:]: a suffix of s, of length n, or all of s when n is 0 or at least len(s) |
| `Association.OkBoxes` | quadricslam/base/data_association.py:89-95 | at most one prediction per report, and exactly one per report when all are ok |
| `Association.ArgMax` | quadricslam/base/data_association.py:102 | the index Python's `max` picks: an index of a maximum, with every earlier score strictly smaller |
| `Association.IoUs` | quadricslam/base/data_association.py:101 | one IoU per prediction, in order |
| `Association.OkBoxesFromOkReports` | quadricslam/base/data_association.py:87-95 | there are no more predictions than reports; each comes from an ok report; one per report when all are ok |
| `Association.ObjectTracker.constructor` | quadricslam/base/data_association.py:76-85 | a live tracker with one box tracker on the box and no predictions |
| `Association.ObjectTracker.Update` | quadricslam/base/data_association.py:87-95 | the predictions become the converted ok boxes of the last n_active_trackers box trackers, in order, and there are at most n of them |
| `Association.ObjectTracker.Compatability` | quadricslam/base/data_association.py:97-102 | (0.0, None) without predictions; otherwise a prediction of largest IoU, the first such, with its IoU |
| `Association.ObjectTracker.AddTracker` | quadricslam/base/data_association.py:104-106 | one box tracker is appended, and nothing else changes |
| `Association.DataAssociation.constructor` | quadricslam/base/data_association.py:131-139 | no trackers, counter 0, settings stored, invariant established |
| `Association.MapCandidates` | quadricslam/base/data_association.py:210-222 | succeeds exactly when every map projection succeeds; then there is one candidate per entry in map order, with the detection's IoU against the predicted box |
| `Association.MapCandidatesFirstFailure` | quadricslam/base/data_association.py:210-213 | the first failing projection decides the exception that escapes |
| `Association.DataAssociation.ComputeMapCandidates` | quadricslam/base/data_association.py:210-222 | the loop computes the map candidates, one per map entry in order, or the first projection exception |
| `Association.DataAssociation.TrackerCandidates` | quadricslam/base/data_association.py:224-234 | exactly the live trackers named in `order` contribute, each of kind tracker and scored by its own Compatability against the detection |
| `Association.DataAssociation.ComputeTrackerCandidates` | quadricslam/base/data_association.py:224-234 | the loop computes one candidate per live tracker, in the dict's iteration order |
| `Association.DataAssociation.Candidates` | quadricslam/base/data_association.py:207-234 | fails exactly when the map loop does; otherwise the map candidates form the prefix and the rest is exactly the tracker candidates of every live tracker in insertion order, each naming a stored object |
| `Association.DataAssociation.ComputeCandidates` | quadricslam/base/data_association.py:207-234 | map candidates first, then tracker candidates, or the escaping exception |
| `Association.Select` | quadricslam/base/data_association.py:236-239 | a chosen candidate is in the list and reaches the threshold; when none is chosen, every candidate is below it |
| `Association.SelectChoosesFirstBest` | quadricslam/base/data_association.py:236-239 | a candidate is chosen exactly when one reaches the threshold; the chosen one is the first of the largest |
| `Association.Decide` | quadricslam/base/data_association.py:236-260 | the exception escapes exactly on failure; a join names a candidate of that kind at or above the threshold; a new object is created only when every candidate is below it |
| `Association.DecideByBest` | quadricslam/base/data_association.py:236-249 | the decision is made by the best candidate's score and kind, in the code's order |
| `Association.RegistryAdd` | quadricslam/base/data_association.py:251-258 | storing a new tracker under the counter's value and advancing the counter keeps the dict consistent, and overwrites nothing |
| `Association.DataAssociation.ExtendTracker` | quadricslam/base/data_association.py:246-249 | the chosen object gains one box tracker; no other tracker changes |
| `Association.DataAssociation.AddObject` | quadricslam/base/data_association.py:251-260 | the new key is the old counter, which is not in use; the counter advances; a fresh tracker is stored and nothing else changes |
| `Association.DataAssociation.Resolve` | quadricslam/base/data_association.py:236-260 | acts on the decision: a map hit changes nothing, a tracker hit extends that object, otherwise a new object is added |
| `Association.DataAssociation.AssociateDetection` | quadricslam/base/data_association.py:195-260 | the returned key and the state change match Decide applied to the candidates in the entry state, and the invariant is kept |

## Left out

- The numeric kernels `QuadricCamera::project`, `DualConic::bounds` and `DualConic::smartBounds` are parameters. Their formulas are not part of this model; the other bodies in DualConic.cpp are reconstructed, not copied. The model assumes a kernel returns the same conic or box whichever derivatives are requested.
- `Conics.DualConic.Normalize`: the canonical entry or norm it divides by is not modelled. The contract says only that the result is a nonzero multiple of the input. `IsNormalization` states what the equality lemmas need from the scale factor, and requires that factor to be nonzero for every matrix. A matrix whose canonical entry is zero therefore still gets some nonzero factor. The model does not capture what the implementation does when it divides by zero.
- The degeneracy tolerance (1e-9) and the ellipse test (not degenerate, and the point conic's upper-left 2x2 minor positive) are assumptions of this model; imaginary ellipses (such as C* = I, which has no real tangent lines) are accepted. The bodies in DualConic.cpp are reconstructed, not copied. The header says only that degeneracy uses det(C) and that `isEllipse` checks degeneracy internally. Its only 1e-9 is `equals`' default tolerance.
- `Conics.DualConic.Equals` and `AlignedBox2.Equals` compare entry by entry, each within an absolute tolerance. This is an assumption: the header says only that `equals` accounts for normalisation.
- `Conics.EllipseAt` / `Conics.UnitCircle`: the construction T * diag(r1^2, r2^2, -1) * T^T from the pose's homogeneous matrix T, and its scale C*[2][2] = -1, are assumptions of this model. The absolute threshold on (r1 r2)^2 in `Conics.EllipseAtIsEllipse` depends on that scale.
- `Conics.EllipseAt` takes the rotation as a cosine and a sine, not as an angle, because trigonometry is not modelled.
- The numerical-derivative branch of `evaluateError` (BoundingBoxFactor.cpp:99-107) is off at compile time (`NUMERICAL_DERIVATIVE` is false) and is not modelled. The same goes for the commented-out guards, clamps and caching.
- Only projection exceptions and `smartBounds` runtime errors are modelled. Other C++ exceptions a kernel might throw are not.
- Noise-model equality is a parameter of `BoxFactor.Equals`, because gtsam's noise models are not part of this model. `print` (both files) is output only.
- Doubles are modelled as exact reals: no rounding, NaN or infinity.
- `DataAssociation.associate` (lines 142-194) is not modelled. It is the driver loop, with visualisation and console output, and its three-value unpacking does not match what `associate_detection` returns.
- OpenCV trackers are not modelled. The images, tracker creation (`new_tracker`, including its `ValueError` for an unknown type) and the `exit()` on a failed init are out. A box tracker is its type and initial box, and `update` receives OpenCV's reports as a parameter.
- `box.iou` and the map's box prediction (project, then bounds) are function parameters.
- `object_limit` is stored but never used. Reading a missing config key (`KeyError`) is not modelled.
- The returned `association_type` exists only as the ghost output `Decision`, because the code never returns it.
