/** Dense real matrices and vectors: the tensor primitives the network engine
    is built on. A matrix is a sequence of rows; arithmetic is exact (`real`),
    so float rounding and accumulation order are not modelled. */
module Matrices {

  type Vector = seq<real>
  type Matrix = seq<seq<real>>

  /** Number of columns of a matrix, read off its first row (none if it has no rows). */
  function Cols(m: Matrix): nat {
    if |m| == 0 then 0 else |m[0]|
  }

  /** `m` has `r` rows, each of length `c`. */
  predicate IsMatrix(m: Matrix, r: nat, c: nat) {
    |m| == r && forall i | 0 <= i < |m| :: |m[i]| == c
  }

  /** Every row of `m` has the same length. */
  predicate Rect(m: Matrix) {
    IsMatrix(m, |m|, Cols(m))
  }

  /** Column `c` of `m`, top to bottom. */
  function Column(m: Matrix, c: nat): Vector
    requires forall i | 0 <= i < |m| :: c < |m[i]|
  {
    seq(|m|, i requires 0 <= i < |m| => m[i][c])
  }

  /** Sum of a vector, accumulated left to right. */
  function Sum(s: Vector): real {
    if |s| == 0 then 0.0 else Sum(s[..|s| - 1]) + s[|s| - 1]
  }

  /** Inner product of two vectors of equal length. */
  function Dot(u: Vector, v: Vector): real
    requires |u| == |v|
  {
    if |u| == 0 then 0.0 else Dot(u[..|u| - 1], v[..|v| - 1]) + u[|u| - 1] * v[|v| - 1]
  }

  function Transpose(m: Matrix): Matrix
    requires Rect(m)
  {
    seq(Cols(m), j requires 0 <= j < Cols(m) => Column(m, j))
  }

  /** Plain product `x·y`: entry (i, j) is the inner product of row i of x and column j of y. */
  function MatMul(x: Matrix, y: Matrix): Matrix
    requires Rect(x) && Rect(y) && Cols(x) == |y|
  {
    seq(|x|, i requires 0 <= i < |x| =>
      seq(Cols(y), j requires 0 <= j < Cols(y) => Dot(x[i], Column(y, j))))
  }

  /** The general product `op(a)·op(b)` of BLAS `sgemm` with scale 1 and no
      accumulation into the target; `op` transposes its operand when the flag
      is set. Operands have at least one row and one column, as every GSL
      matrix does. Entry (i, j) pairs row i of op(a) -- a column of `a` when
      transposed -- with column j of op(b) -- a row of `b` when transposed. */
  method Gemm(transA: bool, transB: bool, a: Matrix, b: Matrix) returns (r: Matrix)
    requires Rect(a) && Rect(b) && |a| > 0 && Cols(a) > 0 && |b| > 0 && Cols(b) > 0
    requires (if transA then |a| else Cols(a)) == (if transB then Cols(b) else |b|)
    ensures IsMatrix(r, if transA then Cols(a) else |a|, if transB then |b| else Cols(b))
    ensures forall i, j | 0 <= i < |r| && 0 <= j < (if transB then |b| else Cols(b)) ::
      r[i][j] == Dot(if transA then Column(a, i) else a[i], if transB then b[j] else Column(b, j))
  {
    var x := if transA then Transpose(a) else a;
    var y := if transB then Transpose(b) else b;
    assert Rect(x) && Rect(y);
    assert Cols(x) == (if transA then |a| else Cols(a));
    assert Cols(y) == (if transB then |b| else Cols(b));
    if transB {
      TransposeColumns(b);
    }
    r := MatMul(x, y);
  }

  lemma ColumnOfTranspose(m: Matrix, j: nat)
    requires Rect(m) && j < |m|
    ensures Column(Transpose(m), j) == m[j]
  {
    var t := Transpose(m);
    assert |Column(t, j)| == Cols(m) == |m[j]|;
    forall k | 0 <= k < Cols(m) ensures Column(t, j)[k] == m[j][k] {
      assert t[k] == Column(m, k);
    }
  }

  /** Column j of the transpose is row j. */
  lemma TransposeColumns(m: Matrix)
    requires Rect(m)
    ensures forall j | 0 <= j < |m| :: Column(Transpose(m), j) == m[j]
  {
    forall j | 0 <= j < |m| ensures Column(Transpose(m), j) == m[j] {
      ColumnOfTranspose(m, j);
    }
  }

  /** `s·m`, entry by entry. */
  function ScaleM(s: real, m: Matrix): (r: Matrix)
    ensures |r| == |m| && forall i | 0 <= i < |m| :: |r[i]| == |m[i]|
    ensures forall i, j | 0 <= i < |m| && 0 <= j < |m[i]| :: r[i][j] == s * m[i][j]
  {
    seq(|m|, i requires 0 <= i < |m| => ScaleV(s, m[i]))
  }

  /** `a - b`, entry by entry; `b` must cover `a`. */
  function SubM(a: Matrix, b: Matrix): (r: Matrix)
    requires |b| == |a| && forall i | 0 <= i < |a| :: |b[i]| == |a[i]|
    ensures |r| == |a| && forall i | 0 <= i < |a| :: |r[i]| == |a[i]|
    ensures forall i, j | 0 <= i < |a| && 0 <= j < |a[i]| :: r[i][j] == a[i][j] - b[i][j]
  {
    seq(|a|, i requires 0 <= i < |a| => SubV(a[i], b[i]))
  }

  function ScaleV(s: real, v: Vector): (r: Vector)
    ensures |r| == |v| && forall i | 0 <= i < |v| :: r[i] == s * v[i]
  {
    seq(|v|, i requires 0 <= i < |v| => s * v[i])
  }

  function SubV(u: Vector, v: Vector): (r: Vector)
    requires |u| == |v|
    ensures |r| == |u| && forall i | 0 <= i < |u| :: r[i] == u[i] - v[i]
  {
    seq(|u|, i requires 0 <= i < |u| => u[i] - v[i])
  }

  /** Two matrices of one shape with the same entries are equal. */
  lemma MatrixEquality(a: Matrix, b: Matrix, r: nat, c: nat)
    requires IsMatrix(a, r, c) && IsMatrix(b, r, c)
    requires forall i, j | 0 <= i < r && 0 <= j < c :: a[i][j] == b[i][j]
    ensures a == b
  {
    forall i | 0 <= i < r ensures a[i] == b[i] {
      assert forall j | 0 <= j < c :: a[i][j] == b[i][j];
    }
  }

  /** An inner product with an all-zero vector is zero. */
  lemma {:induction false} DotZeroLeft(u: Vector, v: Vector)
    requires |u| == |v|
    requires forall i | 0 <= i < |u| :: u[i] == 0.0
    ensures Dot(u, v) == 0.0
  {
    if |u| > 0 {
      DotZeroLeft(u[..|u| - 1], v[..|v| - 1]);
    }
  }

  lemma {:induction false} DotZeroRight(u: Vector, v: Vector)
    requires |u| == |v|
    requires forall i | 0 <= i < |v| :: v[i] == 0.0
    ensures Dot(u, v) == 0.0
  {
    if |u| > 0 {
      DotZeroRight(u[..|u| - 1], v[..|v| - 1]);
    }
  }

  /** The sum of an all-zero vector is zero. */
  lemma {:induction false} SumZero(s: Vector)
    requires forall i | 0 <= i < |s| :: s[i] == 0.0
    ensures Sum(s) == 0.0
  {
    if |s| > 0 {
      SumZero(s[..|s| - 1]);
    }
  }

  /** Extending a prefix by one element adds that element to its sum. */
  lemma SumPrefix(s: Vector, n: nat)
    requires n < |s|
    ensures Sum(s[..n + 1]) == Sum(s[..n]) + s[n]
  {
    assert s[..n + 1][..n] == s[..n];
  }
}
