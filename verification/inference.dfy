/** Classification of a single example: the input vector is run through the
    network as a batch of one, and the answer is the index of the largest
    output, the first one on ties. */
module Inference {
  import opened Matrices
  import opened Net
  import opened Forward

  /** `d` indexes a largest entry of `v`, and no entry before it is as large. */
  predicate IsFirstMax(v: Vector, d: int) {
    && 0 <= d < |v|
    && (forall i | 0 <= i < |v| :: v[i] <= v[d])
    && (forall i | 0 <= i < d :: v[i] < v[d])
  }

  /** At most one index is the first maximum. */
  lemma FirstMaxUnique(v: Vector, d: int, d': int)
    requires IsFirstMax(v, d) && IsFirstMax(v, d')
    ensures d == d'
  {
    assert v[d'] <= v[d] && v[d] <= v[d'];
  }

  /** An output column of [0.1, 0.9, 0.3] is classified as 1. */
  lemma FirstMaxExample()
    ensures IsFirstMax([0.1, 0.9, 0.3], 1)
    ensures forall d | IsFirstMax([0.1, 0.9, 0.3], d) :: d == 1
  {
    forall d | IsFirstMax([0.1, 0.9, 0.3], d) ensures d == 1 {
      FirstMaxUnique([0.1, 0.9, 0.3], d, 1);
    }
  }

  /** The vector `v` as a one-column matrix, the batch of one example. */
  function AsColumn(v: Vector): (m: Matrix)
    ensures IsMatrix(m, |v|, 1) && Column(m, 0) == v
  {
    seq(|v|, i requires 0 <= i < |v| => [v[i]])
  }

  /** The scan of `getDigit` over the first column of `output`: left to
      right, moving to a later entry only when it is strictly larger. */
  method FirstMaxIndex(output: Matrix) returns (d: int)
    requires IsMatrix(output, |output|, 1) && |output| > 0
    ensures IsFirstMax(Column(output, 0), d)
  {
    ghost var out := Column(output, 0);
    d := 0;
    var i := 0;
    while i < |output|
      invariant 0 <= i <= |output|
      invariant 0 <= d < |output| && d <= i
      invariant forall k | 0 <= k < i :: out[k] <= out[d]
      invariant forall k | 0 <= k < d :: out[k] < out[d]
    {
      if output[i][0] > output[d][0] {
        d := i;
      }
      i := i + 1;
    }
  }

  /** `getDigit` with the intended forward pass: the example as a batch of
      one, the pass, then the scan of the output column. */
  method GetDigit(net: Network, input: Vector, sigma: real -> real) returns (d: int, acts: seq<Matrix>)
    requires WellFormed(net) && |input| == InputSize(net)
    ensures IsForward(net, AsColumn(input), sigma, acts)
    ensures IsFirstMax(Column(acts[|net.layers| - 1], 0), d)
    ensures 0 <= d < OutputSize(net)
  {
    acts := Feedforward(net, AsColumn(input), sigma);
    d := FirstMaxIndex(acts[net.numLayers - 1]);
  }

  /** Models `getDigit` as the source writes it: the forward loop of
      `feedforward` exactly as written on the batch of one, then the scan of
      the output column it cached. */
  method GetDigitAsWritten(net: Network, input: Vector, sigma: real -> real)
    returns (d: int, zs: seq<Matrix>, acts: seq<Matrix>)
    requires WellFormed(net) && |input| == InputSize(net)
    ensures ForwardAsWritten(net, AsColumn(input), sigma, zs, acts)
    ensures IsFirstMax(Column(acts[|net.layers| - 1], 0), d)
    ensures 0 <= d < OutputSize(net)
  {
    acts, zs := FeedforwardAsWritten(net, AsColumn(input), sigma);
    AsWrittenActsFit(net, AsColumn(input), sigma, zs, acts);
    d := FirstMaxIndex(acts[net.numLayers - 1]);
  }
}
