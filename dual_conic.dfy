/** The dual conic: an immutable 3x3 matrix C* whose tangent lines l satisfy
    l^T C* l = 0, compared up to scale, classified by its determinant, and
    turned into an image box by an external bounds kernel. */
module Conics {
  import opened Wrappers
  import opened Linear
  import opened Geometry

  type Matrix33 = m: Matrix | IsMatrix(m, 3, 3)
    witness [[0.0, 0.0, 0.0], [0.0, 0.0, 0.0], [0.0, 0.0, 0.0]]

  /** Below this absolute determinant a conic counts as degenerate. */
  const DegeneracyTolerance: real := 1.0e-9

  /** The tolerance `equals` uses when the caller gives none. */
  const DefaultTolerance: real := 1.0e-9

  /** The determinant of a 3x3 matrix, expanded along its first row. */
  function Det(m: Matrix33): real {
    m[0][0] * (m[1][1] * m[2][2] - m[1][2] * m[2][1])
    - m[0][1] * (m[1][0] * m[2][2] - m[1][2] * m[2][0])
    + m[0][2] * (m[1][0] * m[2][1] - m[1][1] * m[2][0])
  }

  /** The adjugate (transposed cofactor matrix): m * Adjugate(m) == Det(m) * I. */
  function Adjugate(m: Matrix33): Matrix33 {
    [[m[1][1] * m[2][2] - m[1][2] * m[2][1], m[0][2] * m[2][1] - m[0][1] * m[2][2], m[0][1] * m[1][2] - m[0][2] * m[1][1]],
     [m[1][2] * m[2][0] - m[1][0] * m[2][2], m[0][0] * m[2][2] - m[0][2] * m[2][0], m[0][2] * m[1][0] - m[0][0] * m[1][2]],
     [m[1][0] * m[2][1] - m[1][1] * m[2][0], m[0][1] * m[2][0] - m[0][0] * m[2][1], m[0][0] * m[1][1] - m[0][1] * m[1][0]]]
  }

  /** The determinant of the upper-left 2x2 block. */
  function UpperLeftMinor(m: Matrix33): real {
    m[0][0] * m[1][1] - m[0][1] * m[1][0]
  }

  /** l^T * m * l for the line l = (l0, l1, l2): zero exactly when the dual conic m
      is tangent to l. */
  function QForm(m: Matrix33, l0: real, l1: real, l2: real): real {
    l0 * (m[0][0] * l0 + m[0][1] * l1 + m[0][2] * l2)
    + l1 * (m[1][0] * l0 + m[1][1] * l1 + m[1][2] * l2)
    + l2 * (m[2][0] * l0 + m[2][1] * l1 + m[2][2] * l2)
  }

  /** s * m, entry by entry. */
  function Scale(s: real, m: Matrix33): (r: Matrix33)
    ensures forall i, j :: 0 <= i < 3 && 0 <= j < 3 ==> r[i][j] == s * m[i][j]
  {
    seq(3, i requires 0 <= i < 3 => seq(3, j requires 0 <= j < 3 => s * m[i][j]))
  }

  predicate IsZero(m: Matrix33) {
    forall i, j :: 0 <= i < 3 && 0 <= j < 3 ==> m[i][j] == 0.0
  }

  /** The factor by which `normalize` scales a matrix. Which entry or norm the
      implementation divides by is not modelled; IsNormalization states what any
      normalization must satisfy. */
  type NormalizationFactor = Matrix33 -> real

  /** A normalization never scales by zero, gives the same normal form to positive
      multiples of a nonzero matrix, and leaves a normal form as it is. */
  ghost predicate IsNormalization(f: NormalizationFactor) {
    (forall m: Matrix33 :: f(m) != 0.0) &&
    (forall m: Matrix33, s: real :: s > 0.0 && !IsZero(m) ==> f(Scale(s, m)) * s == f(m)) &&
    (forall m: Matrix33 :: f(Scale(f(m), m)) == 1.0)
  }

  /** A box extracted from a conic, with its 4x9 Jacobian over the conic entries. */
  datatype Extent = Extent(box: AlignedBox2, jacobian: Mat4x9)

  /** The tangent-line bounds formula, a function of the conic matrix alone. */
  type BoundsKernel = Matrix33 -> Result<Extent, QuadricProjectionException>

  /** The extremal-point bounds solve, which also uses the calibration and may fail. */
  type SmartBoundsKernel = (Matrix33, Cal3S2) -> Result<Extent, RuntimeError>

  /** A box with the Jacobian the caller asked for, if any. */
  datatype Bounded = Bounded(box: AlignedBox2, jacobian: Option<Mat4x9>)

  datatype DualConic = DualConic(dC: Matrix33) {

    /** The 3x3 conic matrix, from which the conic is rebuilt unchanged. */
    function Matrix(): (m: Matrix33)
      ensures DualConic(m) == this
    {
      dC
    }

    /** This conic scaled by a nonzero normalization factor. */
    function Normalize(f: NormalizationFactor): (r: DualConic)
      requires f(dC) != 0.0
      ensures exists k: real :: k != 0.0 && r.dC == Scale(k, dC)
    {
      DualConic(Scale(f(dC), dC))
    }

    /** Degenerate exactly when |det(C*)| is below the tolerance; in particular
        every singular conic is degenerate. */
    predicate IsDegenerate()
      ensures Det(dC) == 0.0 ==> IsDegenerate()
      ensures IsDegenerate() <==> -DegeneracyTolerance < Det(dC) < DegeneracyTolerance
    {
      Abs(Det(dC)) < DegeneracyTolerance
    }

    /** Non-degenerate, and the point conic (C*)^-1, proportional to the adjugate,
        has a positive upper-left 2x2 minor (imaginary ellipses included). */
    predicate IsEllipse()
      ensures IsEllipse() <==> !IsDegenerate() && dC[2][2] * Det(dC) > 0.0
    {
      AdjugateCornerMinor(dC);
      !IsDegenerate() && UpperLeftMinor(Adjugate(dC)) > 0.0
    }

    /** Equal to `other` after both are normalized, entry by entry within `tol`. */
    predicate Equals(other: DualConic, tol: real, f: NormalizationFactor)
      requires f(dC) != 0.0 && f(other.dC) != 0.0
      ensures Equals(other, tol, f) <==>
        forall i, j :: 0 <= i < 3 && 0 <= j < 3 ==> Close(other.Normalize(f).dC[i][j], Normalize(f).dC[i][j], tol)
    {
      ApproxEqual(Normalize(f).dC, other.Normalize(f).dC, tol)
    }

    /** The tangent-line bounds, with the 4x9 Jacobian when asked for. */
    function Bounds(kernel: BoundsKernel, wantJacobian: bool): (r: Result<Bounded, QuadricProjectionException>)
      ensures r.Success? <==> kernel(dC).Success?
      ensures r.Success? ==> r.value.box == kernel(dC).value.box
      ensures r.Success? ==> (r.value.jacobian.Some? <==> wantJacobian)
      ensures r.Success? && wantJacobian ==> r.value.jacobian.value == kernel(dC).value.jacobian
    {
      match kernel(dC)
      case Success(e) => Success(Bounded(e.box, if wantJacobian then Some(e.jacobian) else None))
      case Failure(x) => Failure(x)
    }

    /** The extremal-point bounds, with the 4x9 Jacobian when asked for. */
    function SmartBounds(kernel: SmartBoundsKernel, calibration: Cal3S2, wantJacobian: bool): (r: Result<Bounded, RuntimeError>)
      ensures r.Success? <==> kernel(dC, calibration).Success?
      ensures r.Success? ==> r.value.box == kernel(dC, calibration).value.box
      ensures r.Success? ==> (r.value.jacobian.Some? <==> wantJacobian)
      ensures r.Success? && wantJacobian ==> r.value.jacobian.value == kernel(dC, calibration).value.jacobian
    {
      match kernel(dC, calibration)
      case Success(e) => Success(Bounded(e.box, if wantJacobian then Some(e.jacobian) else None))
      case Failure(x) => Failure(x)
    }
  }

  /** A planar pose: rotation by cosine and sine, then translation (x, y). */
  datatype Pose2 = Pose2(cos: real, sin: real, x: real, y: real)

  /** The rotation part is a proper rotation. */
  type Rigid2 = p: Pose2 | p.cos * p.cos + p.sin * p.sin == 1.0
    witness Pose2(1.0, 0.0, 0.0, 0.0)

  /** The ellipse with semi-axes r1, r2 placed at `pose`: T * diag(r1^2, r2^2, -1) * T^T,
      where T is the homogeneous matrix of the pose. */
  function EllipseAt(pose: Rigid2, r1: real, r2: real): (c: DualConic)
    ensures c.dC[2][2] == -1.0 && c.dC[0][2] == -pose.x && c.dC[1][2] == -pose.y
    ensures forall i, j :: 0 <= i < 3 && 0 <= j < 3 ==> c.dC[i][j] == c.dC[j][i]
  {
    var a, b := r1 * r1, r2 * r2;
    var co, si, x, y := pose.cos, pose.sin, pose.x, pose.y;
    var m01 := (a - b) * co * si - x * y;
    DualConic([[a * co * co + b * si * si - x * x, m01, -x],
               [m01, a * si * si + b * co * co - y * y, -y],
               [-x, -y, -1.0]])
  }

  /** DualConic(): the dual conic of the unit circle at the origin, the ellipse of
      radii 1 at the identity pose. */
  function UnitCircle(): (c: DualConic)
    ensures c == EllipseAt(Pose2(1.0, 0.0, 0.0, 0.0), 1.0, 1.0)
    ensures !c.IsDegenerate() && c.IsEllipse()
  {
    var c := DualConic([[1.0, 0.0, 0.0], [0.0, 1.0, 0.0], [0.0, 0.0, -1.0]]);
    assert c.IsEllipse() by {
      EllipseAtIsEllipse(Pose2(1.0, 0.0, 0.0, 0.0), 1.0, 1.0);
    }
    c
  }

  /** Reading the matrix back gives the matrix the conic was built from. */
  lemma MatrixRoundTrip(m: Matrix33)
    ensures DualConic(m).Matrix() == m
  {
  }

  /** No degenerate conic is an ellipse. */
  lemma DegenerateIsNotEllipse(c: DualConic)
    ensures c.IsDegenerate() ==> !c.IsEllipse()
  {
  }

  /** Jacobi's identity for the complementary minor: the upper-left 2x2 minor of the
      adjugate is m[2][2] * det(m). */
  lemma AdjugateCornerMinor(m: Matrix33)
    ensures UpperLeftMinor(Adjugate(m)) == m[2][2] * Det(m)
  {
    var a, b, d := m[0][0], m[0][1], m[0][2];
    var e, g, h := m[1][0], m[1][1], m[1][2];
    var p, q, t := m[2][0], m[2][1], m[2][2];
    calc {
      UpperLeftMinor(Adjugate(m));
      (g * t - h * q) * (a * t - d * p) - (d * q - b * t) * (h * p - e * t);
      (a * g * t * t - d * g * p * t - a * h * q * t + d * h * p * q)
        - (d * h * p * q - d * e * q * t - b * h * p * t + b * e * t * t);
      t * (a * g * t - d * g * p - a * h * q + d * e * q + b * h * p - b * e * t);
      t * (a * (g * t - h * q) - b * (e * t - h * p) + d * (e * q - g * p));
      t * Det(m);
    }
  }

  /** The determinant of a symmetric matrix whose last row is (-x, -y, -1). */
  lemma DetOfPlaced(A: real, B: real, C: real, x: real, y: real)
    ensures Det([[A, C, -x], [C, B, -y], [-x, -y, -1.0]]) ==
      -(A * B - C * C) - A * (y * y) - B * (x * x) + 2.0 * C * x * y
  {
    var m: Matrix33 := [[A, C, -x], [C, B, -y], [-x, -y, -1.0]];
    assert Det(m) == A * (B * -1.0 - (-y) * (-y)) - C * (C * -1.0 - (-y) * (-x)) + (-x) * (C * (-y) - B * (-x));
  }

  /** Translating a centred conic by (x, y) leaves that determinant unchanged. */
  lemma TranslationCancels(A0: real, B0: real, C0: real, x: real, y: real)
    ensures var A, B, C := A0 - x * x, B0 - y * y, C0 - x * y;
      -(A * B - C * C) - A * (y * y) - B * (x * x) + 2.0 * C * x * y == -(A0 * B0 - C0 * C0)
  {
    var A, B, C := A0 - x * x, B0 - y * y, C0 - x * y;
    var xx, yy, xy := x * x, y * y, x * y;
    assert xy * xy == xx * yy;
    assert A * B == A0 * B0 - A0 * yy - B0 * xx + xx * yy;
    assert C * C == C0 * C0 - 2.0 * C0 * xy + xx * yy;
    assert C * x * y == C0 * xy - xx * yy;
  }

  /** Rotating diag(a, b) keeps its determinant a * b. */
  lemma RotationKeepsProduct(a: real, b: real, co: real, si: real)
    requires co * co + si * si == 1.0
    ensures (a * co * co + b * si * si) * (a * si * si + b * co * co) - ((a - b) * co * si) * ((a - b) * co * si) == a * b
  {
    var cc, ss := co * co, si * si;
    calc {
      (a * co * co + b * si * si) * (a * si * si + b * co * co) - ((a - b) * co * si) * ((a - b) * co * si);
      (a * cc + b * ss) * (a * ss + b * cc) - (a - b) * (a - b) * (cc * ss);
      a * b * (cc * cc + 2.0 * cc * ss + ss * ss);
      a * b * ((cc + ss) * (cc + ss));
      a * b;
    }
  }

  /** The determinant of the placed ellipse is -(r1 r2)^2: the pose does not change it. */
  lemma EllipseAtDet(pose: Rigid2, r1: real, r2: real)
    ensures Det(EllipseAt(pose, r1, r2).dC) == -(r1 * r1 * (r2 * r2))
  {
    var a, b := r1 * r1, r2 * r2;
    var co, si, x, y := pose.cos, pose.sin, pose.x, pose.y;
    var A0, B0, C0 := a * co * co + b * si * si, a * si * si + b * co * co, (a - b) * co * si;
    var m := EllipseAt(pose, r1, r2).dC;
    assert m[0][0] == A0 - x * x;
    assert m[0][1] == C0 - x * y;
    assert m[1][1] == B0 - y * y;
    assert m[2] == [-x, -y, -1.0];
    assert m == [[A0 - x * x, C0 - x * y, -x], [C0 - x * y, B0 - y * y, -y], [-x, -y, -1.0]];
    DetOfPlaced(A0 - x * x, B0 - y * y, C0 - x * y, x, y);
    TranslationCancels(A0, B0, C0, x, y);
    RotationKeepsProduct(a, b, co, si);
  }

  /** An ellipse built from a pose and radii is an ellipse exactly when it is not
      degenerate, and that happens exactly when (r1 r2)^2 reaches the tolerance. */
  lemma EllipseAtIsEllipse(pose: Rigid2, r1: real, r2: real)
    ensures EllipseAt(pose, r1, r2).IsEllipse() <==> !EllipseAt(pose, r1, r2).IsDegenerate()
    ensures EllipseAt(pose, r1, r2).IsDegenerate() <==> r1 * r1 * (r2 * r2) < DegeneracyTolerance
  {
    var c := EllipseAt(pose, r1, r2);
    EllipseAtDet(pose, r1, r2);
    assert r1 * r1 * (r2 * r2) >= 0.0;
    assert c.dC[2][2] * Det(c.dC) == r1 * r1 * (r2 * r2);
  }

  /** l^T m l for a symmetric matrix whose last row is (-x, -y, -1). */
  lemma QFormOfPlaced(A: real, B: real, C: real, x: real, y: real, l0: real, l1: real, l2: real)
    ensures QForm([[A, C, -x], [C, B, -y], [-x, -y, -1.0]], l0, l1, l2) ==
      A * (l0 * l0) + B * (l1 * l1) + 2.0 * C * (l0 * l1) - 2.0 * x * (l0 * l2) - 2.0 * y * (l1 * l2) - l2 * l2
  {
  }

  /** The three squares of the frame change, expanded. */
  lemma FrameSquares(co: real, si: real, x: real, y: real, l0: real, l1: real, l2: real)
    ensures (co * l0 + si * l1) * (co * l0 + si * l1) == co * co * (l0 * l0) + si * si * (l1 * l1) + 2.0 * (co * si) * (l0 * l1)
    ensures (-si * l0 + co * l1) * (-si * l0 + co * l1) == si * si * (l0 * l0) + co * co * (l1 * l1) - 2.0 * (co * si) * (l0 * l1)
    ensures (x * l0 + y * l1 + l2) * (x * l0 + y * l1 + l2) ==
      x * x * (l0 * l0) + y * y * (l1 * l1) + l2 * l2 + 2.0 * (x * y) * (l0 * l1) + 2.0 * x * (l0 * l2) + 2.0 * y * (l1 * l2)
  {
  }

  /** The placed ellipse against a line l: T^T l in the ellipse's own frame, weighed by
      diag(r1^2, r2^2, -1). */
  lemma EllipseAtQForm(pose: Rigid2, r1: real, r2: real, l0: real, l1: real, l2: real)
    ensures var co, si, x, y := pose.cos, pose.sin, pose.x, pose.y;
      QForm(EllipseAt(pose, r1, r2).dC, l0, l1, l2) ==
        r1 * r1 * ((co * l0 + si * l1) * (co * l0 + si * l1))
        + r2 * r2 * ((-si * l0 + co * l1) * (-si * l0 + co * l1))
        - (x * l0 + y * l1 + l2) * (x * l0 + y * l1 + l2)
  {
    var a, b := r1 * r1, r2 * r2;
    var co, si, x, y := pose.cos, pose.sin, pose.x, pose.y;
    var cc, ss, cs := co * co, si * si, co * si;
    var A, B, C := a * cc + b * ss - x * x, a * ss + b * cc - y * y, (a - b) * cs - x * y;
    var m := EllipseAt(pose, r1, r2).dC;
    assert m[0][0] == A && m[1][1] == B && m[0][1] == C;
    assert m == [[A, C, -x], [C, B, -y], [-x, -y, -1.0]];
    QFormOfPlaced(A, B, C, x, y, l0, l1, l2);
    FrameSquares(co, si, x, y, l0, l1, l2);
    PlacedTerms(a, b, cc, ss, cs, x * x, y * y, x * y, l0 * l0, l1 * l1, l0 * l1);
  }

  /** Regrouping the placed matrix's quadratic form by the two squared radii. */
  lemma PlacedTerms(a: real, b: real, cc: real, ss: real, cs: real, xx: real, yy: real, xy: real, p: real, q: real, r: real)
    ensures (a * cc + b * ss - xx) * p + (a * ss + b * cc - yy) * q + 2.0 * ((a - b) * cs - xy) * r ==
      a * (cc * p + ss * q + 2.0 * cs * r) + b * (ss * p + cc * q - 2.0 * cs * r) - (xx * p + yy * q + 2.0 * xy * r)
  {
  }

  /** A line whose frame coordinates are (1, 0, -d) touches diag(a, b, -1) when d^2 = a. */
  lemma AxisTangent(a: real, b: real, u: real, v: real, w: real, d: real)
    requires u == 1.0 && v == 0.0 && w == -d && d * d == a
    ensures a * (u * u) + b * (v * v) - w * w == 0.0
    ensures b * (v * v) + a * (u * u) - w * w == 0.0
  {
  }

  /** The first axis is r1 long and points along the pose's rotated x axis: the two lines
      perpendicular to it at distance r1 from the centre are tangent. */
  lemma EllipseAtFirstAxis(pose: Rigid2, r1: real, r2: real, d: real)
    requires d * d == r1 * r1
    ensures QForm(EllipseAt(pose, r1, r2).dC, pose.cos, pose.sin, -(pose.cos * pose.x + pose.sin * pose.y) - d) == 0.0
  {
    var co, si, x, y := pose.cos, pose.sin, pose.x, pose.y;
    var l2 := -(co * x + si * y) - d;
    EllipseAtQForm(pose, r1, r2, co, si, l2);
    var u, v, w := co * co + si * si, -si * co + co * si, x * co + y * si + l2;
    AxisTangent(r1 * r1, r2 * r2, u, v, w, d);
  }

  /** The second axis is r2 long and points along the pose's rotated y axis. */
  lemma EllipseAtSecondAxis(pose: Rigid2, r1: real, r2: real, d: real)
    requires d * d == r2 * r2
    ensures QForm(EllipseAt(pose, r1, r2).dC, -pose.sin, pose.cos, -(-pose.sin * pose.x + pose.cos * pose.y) - d) == 0.0
  {
    var co, si, x, y := pose.cos, pose.sin, pose.x, pose.y;
    var l2 := -(-si * x + co * y) - d;
    EllipseAtQForm(pose, r1, r2, -si, co, l2);
    var u, v, w := co * -si + si * co, -si * -si + co * co, x * -si + y * co + l2;
    AxisTangent(r2 * r2, r1 * r1, v, u, w, d);
  }

  /** The box depends on the conic matrix alone, not on whether a Jacobian was asked for. */
  lemma BoundsIgnoresJacobianRequest(c: DualConic, kernel: BoundsKernel)
    ensures c.Bounds(kernel, true).Success? <==> c.Bounds(kernel, false).Success?
    ensures c.Bounds(kernel, true).Success? ==>
      c.Bounds(kernel, true).value.box == c.Bounds(kernel, false).value.box
  {
  }

  lemma ScaleScale(s: real, t: real, m: Matrix33)
    ensures Scale(s, Scale(t, m)) == Scale(s * t, m)
  {
    var l := Scale(s, Scale(t, m));
    var r := Scale(s * t, m);
    forall i | 0 <= i < 3
      ensures l[i] == r[i]
    {
      forall j | 0 <= j < 3
        ensures l[i][j] == r[i][j]
      {
        assert l[i][j] == s * (t * m[i][j]);
      }
    }
  }

  lemma ScaleOne(m: Matrix33)
    ensures Scale(1.0, m) == m
  {
    var r := Scale(1.0, m);
    forall i | 0 <= i < 3
      ensures r[i] == m[i]
    {
      assert |r[i]| == |m[i]| == 3;
      forall j | 0 <= j < 3
        ensures r[i][j] == m[i][j]
      {
      }
    }
  }

  lemma ScaleZero(s: real, m: Matrix33)
    requires IsZero(m)
    ensures Scale(s, m) == m
  {
    var r := Scale(s, m);
    forall i | 0 <= i < 3
      ensures r[i] == m[i]
    {
      assert |r[i]| == |m[i]| == 3;
      forall j | 0 <= j < 3
        ensures r[i][j] == m[i][j]
      {
      }
    }
  }

  /** Normalizing a positive multiple gives the same normal form. */
  lemma NormalizeScaled(c: DualConic, s: real, f: NormalizationFactor)
    requires IsNormalization(f) && s > 0.0
    ensures DualConic(Scale(s, c.dC)).Normalize(f) == c.Normalize(f)
  {
    var m := c.dC;
    if IsZero(m) {
      ScaleZero(s, m);
    } else {
      var k := f(Scale(s, m));
      assert k * s == f(m);
      ScaleScale(k, s, m);
    }
  }

  /** Normalizing twice is normalizing once. */
  lemma NormalizeIdempotent(c: DualConic, f: NormalizationFactor)
    requires IsNormalization(f)
    ensures c.Normalize(f).Normalize(f) == c.Normalize(f)
  {
    ScaleOne(Scale(f(c.dC), c.dC));
  }

  /** `equals` cannot tell a conic from a positive multiple of it, on either side. */
  lemma EqualsScaleInvariant(a: DualConic, b: DualConic, s: real, tol: real, f: NormalizationFactor)
    requires IsNormalization(f) && s > 0.0
    ensures DualConic(Scale(s, a.dC)).Equals(b, tol, f) == a.Equals(b, tol, f)
    ensures b.Equals(DualConic(Scale(s, a.dC)), tol, f) == b.Equals(a, tol, f)
  {
    NormalizeScaled(a, s, f);
  }

  /** A conic equals its own normalized form, at any non-negative tolerance. */
  lemma EqualsOwnNormalize(c: DualConic, tol: real, f: NormalizationFactor)
    requires IsNormalization(f) && tol >= 0.0
    ensures c.Equals(c.Normalize(f), tol, f)
  {
    NormalizeIdempotent(c, f);
  }

  /** Every conic equals itself at the default tolerance. */
  lemma EqualsReflexive(c: DualConic, f: NormalizationFactor)
    requires f(c.dC) != 0.0
    ensures c.Equals(c, DefaultTolerance, f)
  {
    ApproxEqualReflexive(c.Normalize(f).dC, DefaultTolerance);
  }
}
