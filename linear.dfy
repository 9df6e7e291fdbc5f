/** Dense real matrices and vectors, stored row by row. */
module Linear {

  type Vector = seq<real>
  type Matrix = seq<seq<real>>

  /** `m` has `rows` rows of `cols` entries each. */
  predicate IsMatrix(m: Matrix, rows: nat, cols: nat) {
    |m| == rows && forall i :: 0 <= i < rows ==> |m[i]| == cols
  }

  /** The `rows` x `cols` zero matrix (Eigen's Matrix::Zero). */
  function Zero(rows: nat, cols: nat): (z: Matrix)
    ensures IsMatrix(z, rows, cols)
    ensures forall i, j :: 0 <= i < rows && 0 <= j < cols ==> z[i][j] == 0.0
  {
    seq(rows, i => seq(cols, j => 0.0))
  }

  type Vector4 = v: Vector | |v| == 4 witness [0.0, 0.0, 0.0, 0.0]
  type Mat4x6 = m: Matrix | IsMatrix(m, 4, 6) witness Zero(4, 6)
  type Mat4x9 = m: Matrix | IsMatrix(m, 4, 9) witness Zero(4, 9)
  type Mat9x6 = m: Matrix | IsMatrix(m, 9, 6) witness Zero(9, 6)
  type Mat9x9 = m: Matrix | IsMatrix(m, 9, 9) witness Zero(9, 9)

  /** Sum over t < n of a[i][t] * b[t][j]. */
  function Dot(a: Matrix, b: Matrix, i: nat, j: nat, n: nat): real
    requires i < |a| && n <= |a[i]| && n <= |b|
    requires forall t :: 0 <= t < n ==> j < |b[t]|
  {
    if n == 0 then 0.0 else Dot(a, b, i, j, n - 1) + a[i][n - 1] * b[n - 1][j]
  }

  /** The matrix product a * b of a `rows` x `inner` and an `inner` x `cols` matrix. */
  function Mul(a: Matrix, b: Matrix, rows: nat, inner: nat, cols: nat): (c: Matrix)
    requires IsMatrix(a, rows, inner) && IsMatrix(b, inner, cols)
    ensures IsMatrix(c, rows, cols)
  {
    seq(rows, i requires 0 <= i < rows => seq(cols, j requires 0 <= j < cols => Dot(a, b, i, j, inner)))
  }

  /** Componentwise difference u - v. */
  function Sub(u: Vector, v: Vector): (w: Vector)
    requires |u| == |v|
    ensures |w| == |u|
  {
    seq(|u|, i requires 0 <= i < |u| => u[i] - v[i])
  }

  function Abs(x: real): real {
    if x < 0.0 then -x else x
  }

  /** x and y differ by at most tol. */
  predicate Close(x: real, y: real, tol: real) {
    Abs(x - y) <= tol
  }

  /** Entrywise absolute-tolerance comparison: same shape, and no entry differs by more than `tol`. */
  predicate ApproxEqual(a: Matrix, b: Matrix, tol: real) {
    |a| == |b| &&
    forall i :: 0 <= i < |a| ==>
      |a[i]| == |b[i]| && forall j :: 0 <= j < |a[i]| ==> Close(a[i][j], b[i][j], tol)
  }

  lemma ApproxEqualReflexive(a: Matrix, tol: real)
    requires tol >= 0.0
    ensures ApproxEqual(a, a, tol)
  {
    forall i, j | 0 <= i < |a| && 0 <= j < |a[i]|
      ensures Close(a[i][j], a[i][j], tol)
    {
      var x := a[i][j];
      assert x - x == 0.0;
    }
  }
}
