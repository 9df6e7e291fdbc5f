/** The bounding-box observation factor between a camera pose and a quadric:
    project the quadric, extract the predicted box in the factor's mode, and
    return the box residual with chain-rule Jacobians, or a fixed sentinel
    residual with zero Jacobians when the geometry cannot be projected. */
module BoxFactor {
  import opened Wrappers
  import opened Linear
  import opened Geometry
  import opened Conics

  /** SIMPLE uses the tangent-line bounds, COMPLEX the extremal-point bounds. */
  datatype MeasurementModel = Simple | Complex

  type Key = nat

  /** The weighting model; the factor only prints and compares it. */
  datatype NoiseModel = Diagonal(sigmas: Vector)

  /** How gtsam compares two noise models within a tolerance; not part of this model. */
  type NoiseModelEquality = (NoiseModel, NoiseModel, real) -> bool

  datatype BoundingBoxFactor = BoundingBoxFactor(
    measured: AlignedBox2,
    calibration: Cal3S2,
    poseKey: Key,
    objectKey: Key,
    noiseModel: NoiseModel,
    errorType: MeasurementModel)

  /** A projected conic with its derivatives over the 6 pose and 9 quadric parameters. */
  datatype Projection = Projection(conic: DualConic, dC_dx: Mat9x6, dC_dq: Mat9x9)

  /** QuadricCamera::project: the silhouette of a quadric seen from a pose. */
  type ProjectKernel = (ConstrainedDualQuadric, Pose3, Cal3S2) -> Result<Projection, QuadricProjectionException>

  /** The numeric kernels the factor composes. */
  datatype Kernels = Kernels(project: ProjectKernel, bounds: BoundsKernel, smartBounds: SmartBoundsKernel)

  /** A projection with only the derivatives the caller asked for. */
  datatype Projected = Projected(conic: DualConic, dC_dx: Option<Mat9x6>, dC_dq: Option<Mat9x9>)

  /** Each residual component on the failure path. */
  const SentinelValue: real := 1000.0

  /** What the factor hands back: the residual and each requested Jacobian. */
  datatype Evaluation = Evaluation(error: Vector4, H1: Option<Mat4x6>, H2: Option<Mat4x9>)

  /** The projection step, asking the kernel only for the requested derivatives. */
  function Project(k: Kernels, quadric: ConstrainedDualQuadric, pose: Pose3, calibration: Cal3S2,
                   wantDq: bool, wantDx: bool): (r: Result<Projected, QuadricProjectionException>)
    ensures r.Success? <==> k.project(quadric, pose, calibration).Success?
    ensures r.Failure? ==> r.error == k.project(quadric, pose, calibration).error
    ensures r.Success? ==> r.value.conic == k.project(quadric, pose, calibration).value.conic
    ensures r.Success? ==> (r.value.dC_dx.Some? <==> wantDx) && (r.value.dC_dq.Some? <==> wantDq)
    ensures r.Success? && wantDx ==> r.value.dC_dx.value == k.project(quadric, pose, calibration).value.dC_dx
    ensures r.Success? && wantDq ==> r.value.dC_dq.value == k.project(quadric, pose, calibration).value.dC_dq
  {
    match k.project(quadric, pose, calibration)
    case Success(p) =>
      Success(Projected(p.conic, if wantDx then Some(p.dC_dx) else None, if wantDq then Some(p.dC_dq) else None))
    case Failure(e) => Failure(e)
  }

  /** Box extraction in the factor's mode. A failure of the extremal-point solve is
      rethrown as a projection exception. */
  function ExtractBounds(mode: MeasurementModel, k: Kernels, conic: DualConic, calibration: Cal3S2,
                         computeJacobians: bool): (r: Result<Bounded, QuadricProjectionException>)
    ensures mode == Simple ==> r == conic.Bounds(k.bounds, computeJacobians)
    ensures mode == Complex ==> (r.Success? <==> conic.SmartBounds(k.smartBounds, calibration, computeJacobians).Success?)
    ensures mode == Complex && r.Success? ==> r.value == conic.SmartBounds(k.smartBounds, calibration, computeJacobians).value
    ensures mode == Complex && r.Failure? ==> r.error == QuadricProjectionException("smartbounds failed")
  {
    match mode
    case Simple => conic.Bounds(k.bounds, computeJacobians)
    case Complex =>
      match conic.SmartBounds(k.smartBounds, calibration, computeJacobians)
      case Success(b) => Success(b)
      case Failure(_) => Failure(QuadricProjectionException("smartbounds failed"))
  }

  /** The residual with all four components equal to the sentinel value. */
  function SentinelError(): (e: Vector4)
    ensures forall i :: 0 <= i < 4 ==> e[i] == SentinelValue
  {
    [SentinelValue, SentinelValue, SentinelValue, SentinelValue]
  }

  /** The predicted box and every derivative, from successful projection and extraction. */
  datatype Prediction = Prediction(box: AlignedBox2, db_dC: Mat4x9, dC_dx: Mat9x6, dC_dq: Mat9x9)

  /** Projection followed by box extraction, with every derivative, or the first
      projection exception either step raises. */
  function Predict(f: BoundingBoxFactor, k: Kernels, pose: Pose3, quadric: ConstrainedDualQuadric): (r: Result<Prediction, QuadricProjectionException>)
    ensures var pr := k.project(quadric, pose, f.calibration);
      r.Failure? && pr.Failure? ==> r.error == pr.error
    ensures var pr := k.project(quadric, pose, f.calibration);
      r.Failure? && pr.Success? && f.errorType == Simple ==>
        k.bounds(pr.value.conic.dC).Failure? && r.error == k.bounds(pr.value.conic.dC).error
    ensures var pr := k.project(quadric, pose, f.calibration);
      r.Failure? && pr.Success? && f.errorType == Complex ==> r.error == QuadricProjectionException("smartbounds failed")
    ensures var pr := k.project(quadric, pose, f.calibration);
      r.Success? ==> pr.Success? && r.value.dC_dx == pr.value.dC_dx && r.value.dC_dq == pr.value.dC_dq
  {
    match k.project(quadric, pose, f.calibration)
    case Failure(e) => Failure(e)
    case Success(p) =>
      match ExtractBounds(f.errorType, k, p.conic, f.calibration, true)
      case Failure(e) => Failure(e)
      case Success(b) => Success(Prediction(b.box, b.jacobian.value, p.dC_dx, p.dC_dq))
  }

  /** BoundingBoxFactor::evaluateError: the residual and each requested Jacobian.
      No projection exception escapes: it becomes the sentinel residual with zero
      Jacobians. */
  function EvaluateError(f: BoundingBoxFactor, k: Kernels, pose: Pose3, quadric: ConstrainedDualQuadric,
                         wantH1: bool, wantH2: bool): (e: Evaluation)
    ensures e.H1.Some? <==> wantH1
    ensures e.H2.Some? <==> wantH2
    ensures Predict(f, k, pose, quadric).Failure? ==>
      e.error == SentinelError() &&
      (wantH1 ==> e.H1.value == Zero(4, 6)) && (wantH2 ==> e.H2.value == Zero(4, 9))
    ensures Predict(f, k, pose, quadric).Success? ==>
      var p := Predict(f, k, pose, quadric).value;
      (forall i :: 0 <= i < 4 ==> e.error[i] == p.box.Vector()[i] - f.measured.Vector()[i]) &&
      (wantH1 ==> e.H1.value == Mul(p.db_dC, p.dC_dx, 4, 9, 6)) &&
      (wantH2 ==> e.H2.value == Mul(p.db_dC, p.dC_dq, 4, 9, 9))
  {
    var computeJacobians := wantH1 || wantH2;
    var outcome: Result<(AlignedBox2, Option<Mat4x6>, Option<Mat4x9>), QuadricProjectionException> :=
      match Project(k, quadric, pose, f.calibration, wantH2, wantH1)
      case Failure(x) => Failure(x)
      case Success(p) =>
        match ExtractBounds(f.errorType, k, p.conic, f.calibration, computeJacobians)
        case Failure(x) => Failure(x)
        case Success(b) =>
          var H1: Option<Mat4x6> := if wantH1 then Some(Mul(b.jacobian.value, p.dC_dx.value, 4, 9, 6)) else None;
          var H2: Option<Mat4x9> := if wantH2 then Some(Mul(b.jacobian.value, p.dC_dq.value, 4, 9, 9)) else None;
          Success((b.box, H1, H2));
    match outcome
    case Success((box, H1, H2)) => Evaluation(Sub(box.Vector(), f.measured.Vector()), H1, H2)
    case Failure(_) =>
      Evaluation(SentinelError(), if wantH1 then Some(Zero(4, 6)) else None, if wantH2 then Some(Zero(4, 9)) else None)
  }

  /** BoundingBoxFactor::evaluateH1: the pose Jacobian of the full evaluation. */
  function EvaluateH1(f: BoundingBoxFactor, k: Kernels, pose: Pose3, quadric: ConstrainedDualQuadric): (H1: Mat4x6)
    ensures H1 == EvaluateError(f, k, pose, quadric, true, true).H1.value
    ensures Predict(f, k, pose, quadric).Failure? ==> H1 == Zero(4, 6)
    ensures Predict(f, k, pose, quadric).Success? ==>
      H1 == Mul(Predict(f, k, pose, quadric).value.db_dC, Predict(f, k, pose, quadric).value.dC_dx, 4, 9, 6)
  {
    EvaluateError(f, k, pose, quadric, true, false).H1.value
  }

  /** BoundingBoxFactor::evaluateH2: the quadric Jacobian of the full evaluation. */
  function EvaluateH2(f: BoundingBoxFactor, k: Kernels, pose: Pose3, quadric: ConstrainedDualQuadric): (H2: Mat4x9)
    ensures H2 == EvaluateError(f, k, pose, quadric, true, true).H2.value
    ensures Predict(f, k, pose, quadric).Failure? ==> H2 == Zero(4, 9)
    ensures Predict(f, k, pose, quadric).Success? ==>
      H2 == Mul(Predict(f, k, pose, quadric).value.db_dC, Predict(f, k, pose, quadric).value.dC_dq, 4, 9, 9)
  {
    EvaluateError(f, k, pose, quadric, false, true).H2.value
  }

  /** One entry of a gtsam Values container: the variables this factor reads. */
  datatype Value = PoseValue(pose: Pose3) | QuadricValue(quadric: ConstrainedDualQuadric)

  type Values = map<Key, Value>

  /** What Values::at throws: no entry under the key, or an entry of another type. */
  datatype ValuesError = KeyDoesNotExist(key: Key) | IncorrectType(key: Key)

  /** Values::at for a pose. */
  function PoseAt(x: Values, key: Key): (r: Result<Pose3, ValuesError>)
    ensures r.Success? <==> key in x && x[key].PoseValue?
    ensures r.Success? ==> x[key] == PoseValue(r.value)
    ensures r.Failure? ==> r.error.key == key && (r.error.KeyDoesNotExist? <==> key !in x)
  {
    if key !in x then Failure(KeyDoesNotExist(key))
    else if x[key].PoseValue? then Success(x[key].pose)
    else Failure(IncorrectType(key))
  }

  /** Values::at for a quadric. */
  function QuadricAt(x: Values, key: Key): (r: Result<ConstrainedDualQuadric, ValuesError>)
    ensures r.Success? <==> key in x && x[key].QuadricValue?
    ensures r.Success? ==> x[key] == QuadricValue(r.value)
    ensures r.Failure? ==> r.error.key == key && (r.error.KeyDoesNotExist? <==> key !in x)
  {
    if key !in x then Failure(KeyDoesNotExist(key))
    else if x[key].QuadricValue? then Success(x[key].quadric)
    else Failure(IncorrectType(key))
  }

  /** BoundingBoxFactor::evaluateH1(Values): look up the pose, then the quadric, and
      evaluate the pose Jacobian there; a failed lookup escapes. */
  function EvaluateH1At(f: BoundingBoxFactor, k: Kernels, x: Values): (r: Result<Mat4x6, ValuesError>)
    ensures r.Success? <==>
      f.poseKey in x && x[f.poseKey].PoseValue? && f.objectKey in x && x[f.objectKey].QuadricValue?
    ensures r.Success? ==> r.value == EvaluateH1(f, k, x[f.poseKey].pose, x[f.objectKey].quadric)
    ensures r.Failure? ==> r.error.key == if PoseAt(x, f.poseKey).Failure? then f.poseKey else f.objectKey
  {
    match PoseAt(x, f.poseKey)
    case Failure(e) => Failure(e)
    case Success(pose) =>
      match QuadricAt(x, f.objectKey)
      case Failure(e) => Failure(e)
      case Success(quadric) => Success(EvaluateH1(f, k, pose, quadric))
  }

  /** BoundingBoxFactor::evaluateH2(Values): as evaluateH1(Values), for the quadric Jacobian. */
  function EvaluateH2At(f: BoundingBoxFactor, k: Kernels, x: Values): (r: Result<Mat4x9, ValuesError>)
    ensures r.Success? <==>
      f.poseKey in x && x[f.poseKey].PoseValue? && f.objectKey in x && x[f.objectKey].QuadricValue?
    ensures r.Success? ==> r.value == EvaluateH2(f, k, x[f.poseKey].pose, x[f.objectKey].quadric)
    ensures r.Failure? ==> r.error.key == if PoseAt(x, f.poseKey).Failure? then f.poseKey else f.objectKey
  {
    match PoseAt(x, f.poseKey)
    case Failure(e) => Failure(e)
    case Success(pose) =>
      match QuadricAt(x, f.objectKey)
      case Failure(e) => Failure(e)
      case Success(quadric) => Success(EvaluateH2(f, k, pose, quadric))
  }

  /** BoundingBoxFactor::equals. The measurement model is not compared. */
  predicate Equals(f: BoundingBoxFactor, other: BoundingBoxFactor, tol: real, noiseEquals: NoiseModelEquality)
    ensures Equals(f, other, tol, noiseEquals) ==> f.poseKey == other.poseKey && f.objectKey == other.objectKey
    ensures Equals(f, other, tol, noiseEquals) ==> f.measured.Equals(other.measured, tol) && f.calibration.Equals(other.calibration, tol)
    ensures Equals(f, other, tol, noiseEquals) ==> noiseEquals(f.noiseModel, other.noiseModel, tol)
  {
    f.measured.Equals(other.measured, tol)
    && f.calibration.Equals(other.calibration, tol)
    && noiseEquals(f.noiseModel, other.noiseModel, tol)
    && f.poseKey == other.poseKey && f.objectKey == other.objectKey
  }

  /** The evaluation takes the sentinel path exactly when the projection fails, or
      the selected extraction fails: bounds in SIMPLE mode, smartBounds (with any
      runtime error) in COMPLEX mode. */
  lemma SentinelExactlyOnKernelFailure(f: BoundingBoxFactor, k: Kernels, pose: Pose3, quadric: ConstrainedDualQuadric)
    ensures Predict(f, k, pose, quadric).Failure? <==>
      (k.project(quadric, pose, f.calibration).Failure? ||
       (var C := k.project(quadric, pose, f.calibration).value.conic.dC;
        (f.errorType == Simple && k.bounds(C).Failure?) ||
        (f.errorType == Complex && k.smartBounds(C, f.calibration).Failure?)))
  {
  }

  /** On the sentinel path every residual component is 1000 and every requested
      Jacobian is zero, whatever was requested. */
  lemma SentinelOutcome(f: BoundingBoxFactor, k: Kernels, pose: Pose3, quadric: ConstrainedDualQuadric, wantH1: bool, wantH2: bool)
    requires k.project(quadric, pose, f.calibration).Failure? ||
      (var C := k.project(quadric, pose, f.calibration).value.conic.dC;
       (f.errorType == Simple && k.bounds(C).Failure?) ||
       (f.errorType == Complex && k.smartBounds(C, f.calibration).Failure?))
    ensures EvaluateError(f, k, pose, quadric, wantH1, wantH2) ==
      Evaluation([1000.0, 1000.0, 1000.0, 1000.0],
                 if wantH1 then Some(Zero(4, 6)) else None,
                 if wantH2 then Some(Zero(4, 9)) else None)
  {
    SentinelExactlyOnKernelFailure(f, k, pose, quadric);
  }

  /** SIMPLE mode predicts the tangent-line box and COMPLEX mode the extremal-point box
      of the projected conic. */
  lemma ModeSelectsExtractor(f: BoundingBoxFactor, k: Kernels, pose: Pose3, quadric: ConstrainedDualQuadric)
    requires Predict(f, k, pose, quadric).Success?
    ensures var C := k.project(quadric, pose, f.calibration).value.conic.dC;
      var p := Predict(f, k, pose, quadric).value;
      && (f.errorType == Simple ==> p.box == k.bounds(C).value.box && p.db_dC == k.bounds(C).value.jacobian)
      && (f.errorType == Complex ==>
            p.box == k.smartBounds(C, f.calibration).value.box &&
            p.db_dC == k.smartBounds(C, f.calibration).value.jacobian)
  {
  }

  /** The residual does not depend on which Jacobians were asked for. */
  lemma ResidualIgnoresRequests(f: BoundingBoxFactor, k: Kernels, pose: Pose3, quadric: ConstrainedDualQuadric,
                                a1: bool, a2: bool, b1: bool, b2: bool)
    ensures EvaluateError(f, k, pose, quadric, a1, a2).error == EvaluateError(f, k, pose, quadric, b1, b2).error
  {
  }

  /** A measurement equal to the predicted box gives the zero residual. */
  lemma ZeroResidualAtPrediction(f: BoundingBoxFactor, k: Kernels, pose: Pose3, quadric: ConstrainedDualQuadric)
    requires Predict(f, k, pose, quadric).Success?
    requires f.measured == Predict(f, k, pose, quadric).value.box
    ensures EvaluateError(f, k, pose, quadric, false, false).error == [0.0, 0.0, 0.0, 0.0]
  {
  }

  /** Factors on different variables are never equal; the measurement model is not
      compared, so factors differing only in it are equal. */
  lemma EqualsComparesKeysNotModel(f: BoundingBoxFactor, g: BoundingBoxFactor, tol: real, noiseEquals: NoiseModelEquality)
    ensures Equals(f, g, tol, noiseEquals) ==> f.poseKey == g.poseKey && f.objectKey == g.objectKey
    ensures tol >= 0.0 && noiseEquals(f.noiseModel, f.noiseModel, tol) ==>
      Equals(f, f.(errorType := Simple), tol, noiseEquals) && Equals(f, f.(errorType := Complex), tol, noiseEquals)
  {
  }
}
