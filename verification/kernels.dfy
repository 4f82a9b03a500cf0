/** The per-layer numeric kernels of the engine: the elementwise activation,
    the output-layer and propagated error signals, and the bias and weight
    gradients. The activation function is a parameter `sigma`, of which
    nothing is required. */
module Kernels {
  import opened Matrices

  /** Models `applySigmoid`: a fresh matrix of the same shape holding
      `sigma` of each entry. */
  method ApplySigmoid(m: Matrix, sigma: real -> real) returns (r: Matrix)
    requires Rect(m)
    ensures IsMatrix(r, |m|, Cols(m))
    ensures forall i, j | 0 <= i < |m| && 0 <= j < Cols(m) :: r[i][j] == sigma(m[i][j])
  {
    r := [];
    var i := 0;
    while i < |m|
      invariant 0 <= i <= |m|
      invariant IsMatrix(r, i, Cols(m))
      invariant forall i', j | 0 <= i' < i && 0 <= j < Cols(m) :: r[i'][j] == sigma(m[i'][j])
    {
      var row: Vector := [];
      var j := 0;
      while j < Cols(m)
        invariant 0 <= j <= Cols(m) && |row| == j
        invariant forall j' | 0 <= j' < j :: row[j'] == sigma(m[i][j'])
      {
        row := row + [sigma(m[i][j])];
        j := j + 1;
      }
      r := r + [row];
      i := i + 1;
    }
  }

  /** The bias-broadcast step of the forward pass: `b[i]` is added to every
      entry of row i, that is, the bias vector is added to every column. */
  method AddBiasToColumns(z: Matrix, b: Vector) returns (r: Matrix)
    requires Rect(z) && |b| == |z|
    ensures IsMatrix(r, |z|, Cols(z))
    ensures forall i, j | 0 <= i < |z| && 0 <= j < Cols(z) :: r[i][j] == z[i][j] + b[i]
  {
    r := z;
    var j := 0;
    while j < Cols(z)
      invariant 0 <= j <= Cols(z)
      invariant IsMatrix(r, |z|, Cols(z))
      invariant forall i, c | 0 <= i < |z| && 0 <= c < Cols(z) ::
        r[i][c] == if c < j then z[i][c] + b[i] else z[i][c]
    {
      var i := 0;
      while i < |z|
        invariant 0 <= i <= |z|
        invariant IsMatrix(r, |z|, Cols(z))
        invariant forall i', c | 0 <= i' < |z| && 0 <= c < Cols(z) ::
          r[i'][c] == if c < j || (c == j && i' < i) then z[i'][c] + b[i'] else z[i'][c]
      {
        r := r[i := r[i][j := r[i][j] + b[i]]];
        i := i + 1;
      }
      j := j + 1;
    }
  }

  /** The sigmoid derivative written in terms of the activation value:
      `σ'(x) = σ(x) · (1 - σ(x))`. */
  function Derivative(aVal: real): real {
    aVal * (1.0 - aVal)
  }

  /** `y` has at least the rows and columns of an `r × c` matrix. */
  predicate Covers(y: Matrix, r: nat, c: nat) {
    r <= |y| && forall i | 0 <= i < r :: c <= |y[i]|
  }

  /** `e` is the output-layer error for activation `a` and target `y`: the
      squared-error gradient times the sigmoid derivative written in terms
      of the activation, `(a - y) · a · (1 - a)`, entry by entry. */
  predicate IsOutputError(a: Matrix, y: Matrix, e: Matrix) {
    && Rect(a) && Covers(y, |a|, Cols(a))
    && IsMatrix(e, |a|, Cols(a))
    && forall i, j | 0 <= i < |a| && 0 <= j < Cols(a) ::
         e[i][j] == (a[i][j] - y[i][j]) * Derivative(a[i][j])
  }

  /** Models `getOutputError`. The target is read at the activation's
      indices only, so it must be at least that large. */
  method GetOutputError(a: Matrix, y: Matrix) returns (e: Matrix)
    requires Rect(a) && Covers(y, |a|, Cols(a))
    ensures IsOutputError(a, y, e)
  {
    e := [];
    var i := 0;
    while i < |a|
      invariant 0 <= i <= |a|
      invariant IsMatrix(e, i, Cols(a))
      invariant forall i', j | 0 <= i' < i && 0 <= j < Cols(a) ::
        e[i'][j] == (a[i'][j] - y[i'][j]) * Derivative(a[i'][j])
    {
      var row: Vector := [];
      var j := 0;
      while j < Cols(a)
        invariant 0 <= j <= Cols(a) && |row| == j
        invariant forall j' | 0 <= j' < j :: row[j'] == (a[i][j'] - y[i][j']) * Derivative(a[i][j'])
      {
        var aVal := a[i][j];
        row := row + [(aVal - y[i][j]) * Derivative(aVal)];
        j := j + 1;
      }
      e := e + [row];
      i := i + 1;
    }
  }

  /** An output-error entry vanishes exactly when the prediction is right
      or the activation sits at 0 or 1, where the derivative factor is zero. */
  lemma OutputErrorZeroIff(a: Matrix, y: Matrix, e: Matrix, i: int, j: int)
    requires IsOutputError(a, y, e)
    requires 0 <= i < |a| && 0 <= j < Cols(a)
    ensures e[i][j] == 0.0 <==> (a[i][j] == y[i][j] || a[i][j] == 0.0 || a[i][j] == 1.0)
  {
    var x, t := a[i][j], y[i][j];
    assert e[i][j] == (x - t) * (x * (1.0 - x));
    if x != t && x != 0.0 && x != 1.0 {
      ProductNonZero(x, 1.0 - x);
      ProductNonZero(x - t, x * (1.0 - x));
    }
  }

  lemma ProductNonZero(p: real, q: real)
    requires p != 0.0 && q != 0.0
    ensures p * q != 0.0
  {
  }

  /** Shapes that `getPreviousError` needs: `a` is `n × batch`, the next
      layer's weights `w` are `m × n` and its error `err` is `m × batch`. */
  predicate PreviousErrorFits(a: Matrix, w: Matrix, err: Matrix) {
    && Rect(a) && |a| > 0 && Cols(a) > 0
    && Rect(w) && |w| > 0 && Cols(w) == |a|
    && IsMatrix(err, |w|, Cols(a))
  }

  /** `out` is the error propagated back into a layer with activation `a`
      through weights `w` from error `err`: `(wᵀ · err) · a · (1 - a)`,
      entry (i, j) being `(Σ_r w[r][i] · err[r][j]) · a[i][j] · (1 - a[i][j])`. */
  predicate IsPreviousError(a: Matrix, w: Matrix, err: Matrix, out: Matrix) {
    && PreviousErrorFits(a, w, err)
    && IsMatrix(out, |a|, Cols(a))
    && forall i, j | 0 <= i < |a| && 0 <= j < Cols(a) ::
         out[i][j] == Dot(Column(w, i), Column(err, j)) * Derivative(a[i][j])
  }

  /** The elementwise step of `getPreviousError`: entry (i, j) of `t` times
      the derivative factor of `a[i][j]`. */
  method TimesDerivative(t: Matrix, a: Matrix) returns (out: Matrix)
    requires Rect(a) && IsMatrix(t, |a|, Cols(a))
    ensures IsMatrix(out, |a|, Cols(a))
    ensures forall i, j | 0 <= i < |a| && 0 <= j < Cols(a) :: out[i][j] == t[i][j] * Derivative(a[i][j])
  {
    out := [];
    var i := 0;
    while i < |a|
      invariant 0 <= i <= |a|
      invariant IsMatrix(out, i, Cols(a))
      invariant forall i', j | 0 <= i' < i && 0 <= j < Cols(a) :: out[i'][j] == t[i'][j] * Derivative(a[i'][j])
    {
      var row: Vector := [];
      var j := 0;
      while j < Cols(a)
        invariant 0 <= j <= Cols(a) && |row| == j
        invariant forall j' | 0 <= j' < j :: row[j'] == t[i][j'] * Derivative(a[i][j'])
      {
        var aVal := a[i][j];
        row := row + [t[i][j] * Derivative(aVal)];
        j := j + 1;
      }
      out := out + [row];
      i := i + 1;
    }
  }

  /** Models `getPreviousError`: the transposed product `wᵀ · err`, then the
      elementwise derivative factor. */
  method GetPreviousError(a: Matrix, w: Matrix, err: Matrix) returns (out: Matrix)
    requires PreviousErrorFits(a, w, err)
    ensures IsPreviousError(a, w, err, out)
  {
    var temp := Gemm(true, false, w, err);
    out := TimesDerivative(temp, a);
    PreviousErrorFromProduct(a, w, err, temp, out);
  }

  /** `getPreviousError`'s two steps combine: the product `wᵀ · err` followed
      by the derivative factor is the propagated error. */
  lemma PreviousErrorFromProduct(a: Matrix, w: Matrix, err: Matrix, temp: Matrix, out: Matrix)
    requires PreviousErrorFits(a, w, err)
    requires IsMatrix(temp, |a|, Cols(a)) && IsMatrix(out, |a|, Cols(a))
    requires forall i, j | 0 <= i < |a| && 0 <= j < Cols(a) :: temp[i][j] == Dot(Column(w, i), Column(err, j))
    requires forall i, j | 0 <= i < |a| && 0 <= j < Cols(a) :: out[i][j] == temp[i][j] * Derivative(a[i][j])
    ensures IsPreviousError(a, w, err, out)
  {
  }

  /** Models `getBiasError`: entry i is the sum of row i of the error over the
      batch, accumulated left to right as in the source. */
  method GetBiasError(err: Matrix) returns (r: Vector)
    requires Rect(err)
    ensures |r| == |err|
    ensures forall i | 0 <= i < |err| :: r[i] == Sum(err[i])
  {
    r := [];
    var i := 0;
    while i < |err|
      invariant 0 <= i <= |err| && |r| == i
      invariant forall i' | 0 <= i' < i :: r[i'] == Sum(err[i'])
    {
      var sum := 0.0;
      var j := 0;
      while j < Cols(err)
        invariant 0 <= j <= Cols(err)
        invariant sum == Sum(err[i][..j])
      {
        SumPrefix(err[i], j);
        sum := sum + err[i][j];
        j := j + 1;
      }
      assert err[i][..Cols(err)] == err[i];
      r := r + [sum];
      i := i + 1;
    }
  }

  /** Models `getWeightsError`: `err · aᵀ`, shaped like the weight matrix it
      corrects (`rows(err) × rows(a)`); entry (j, k) sums `err[j][c] · a[k][c]`
      over the batch columns c. */
  method GetWeightsError(a: Matrix, err: Matrix) returns (g: Matrix)
    requires Rect(a) && |a| > 0 && Cols(a) > 0
    requires Rect(err) && |err| > 0 && Cols(err) == Cols(a)
    ensures IsMatrix(g, |err|, |a|)
    ensures forall j, k | 0 <= j < |err| && 0 <= k < |a| :: g[j][k] == Dot(err[j], a[k])
  {
    g := Gemm(false, true, err, a);
  }
}
