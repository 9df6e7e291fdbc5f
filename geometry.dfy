/** The value types the core passes between its components: boxes, calibration,
    poses, quadrics and the exceptions the numeric kernels raise. */
module Geometry {
  import opened Linear

  /** An axis-aligned image box, (xmin, ymin, xmax, ymax). No ordering is enforced. */
  datatype AlignedBox2 = AlignedBox2(xmin: real, ymin: real, xmax: real, ymax: real) {

    /** The box as the 4-vector (xmin, ymin, xmax, ymax). */
    function Vector(): (v: Vector4)
      ensures v[0] == xmin && v[1] == ymin && v[2] == xmax && v[3] == ymax
    {
      [xmin, ymin, xmax, ymax]
    }

    /** Every coordinate agrees with `other`'s within `tol`. */
    predicate Equals(other: AlignedBox2, tol: real) {
      Abs(xmin - other.xmin) <= tol && Abs(ymin - other.ymin) <= tol &&
      Abs(xmax - other.xmax) <= tol && Abs(ymax - other.ymax) <= tol
    }
  }

  /** Pinhole intrinsics: focal lengths, skew and principal point. */
  datatype Cal3S2 = Cal3S2(fx: real, fy: real, s: real, u0: real, v0: real) {

    /** Every intrinsic agrees with `other`'s within `tol`. */
    predicate Equals(other: Cal3S2, tol: real) {
      Abs(fx - other.fx) <= tol && Abs(fy - other.fy) <= tol && Abs(s - other.s) <= tol &&
      Abs(u0 - other.u0) <= tol && Abs(v0 - other.v0) <= tol
    }
  }

  /** A rigid camera pose: rotation and translation. Only the projection kernel looks inside. */
  datatype Pose3 = Pose3(rotation: Matrix, translation: Vector)

  /** An ellipsoid given by its pose and its three radii. Only the projection kernel looks inside. */
  datatype ConstrainedDualQuadric = ConstrainedDualQuadric(pose: Pose3, radii: Vector)

  /** The exception the factor turns into its sentinel outcome. */
  datatype QuadricProjectionException = QuadricProjectionException(message: string)

  /** A std::runtime_error, as raised by the tight box extraction. */
  datatype RuntimeError = RuntimeError(message: string)
}
