/** Forward propagation: layer 0's activation is the input batch, and each
    dense layer i computes `a_i = σ(W_i · a_{i-1} + b_i)`, the same bias
    broadcast to every batch column. */
module Forward {
  import opened Matrices
  import opened Net
  import opened Kernels

  /** `z` is the pre-activation of a layer with weights `w` and biases `b`
      fed with `prev`: `z[j][c] = Σ_k w[j][k] · prev[k][c] + b[j]`, with the
      same bias for every batch column c. */
  predicate Affine(w: Matrix, b: Vector, prev: Matrix, z: Matrix) {
    && Rect(prev)
    && IsMatrix(w, |w|, |prev|) && |b| == |w|
    && IsMatrix(z, |w|, Cols(prev))
    && forall j, c | 0 <= j < |w| && 0 <= c < Cols(prev) ::
         z[j][c] == Dot(w[j], Column(prev, c)) + b[j]
  }

  /** `a` applies `sigma` to every entry of `z`. */
  predicate Activated(z: Matrix, a: Matrix, sigma: real -> real) {
    && Rect(z)
    && IsMatrix(a, |z|, Cols(z))
    && forall j, c | 0 <= j < |z| && 0 <= c < Cols(z) :: a[j][c] == sigma(z[j][c])
  }

  /** `a` is the output of a dense layer fed with `prev`:
      `a[j][c] = σ(Σ_k w[j][k] · prev[k][c] + b[j])`. */
  predicate LayerOutput(w: Matrix, b: Vector, prev: Matrix, a: Matrix, sigma: real -> real) {
    && Rect(prev)
    && IsMatrix(w, |w|, |prev|) && |b| == |w|
    && IsMatrix(a, |w|, Cols(prev))
    && forall j, c | 0 <= j < |w| && 0 <= c < Cols(prev) ::
         a[j][c] == sigma(Dot(w[j], Column(prev, c)) + b[j])
  }

  /** `acts` holds the activations of the first `|acts|` layers of `net` for
      the input batch `input`: layer 0's is the input itself, each later
      one has `Sizes(net)[i]` rows and the batch's columns and is computed
      from the one before. */
  predicate ForwardPrefix(net: Network, input: Matrix, sigma: real -> real, acts: seq<Matrix>)
    requires WellFormed(net)
  {
    && 1 <= |acts| <= |net.layers|
    && acts[0] == input
    && (forall i | 0 <= i < |acts| :: IsMatrix(acts[i], Sizes(net)[i], Cols(input)))
    && (forall i | 1 <= i < |acts| ::
          LayerOutput(Weights(net, i), Biases(net, i), acts[i - 1], acts[i], sigma))
  }

  /** `acts` holds the activation of every layer of `net` for `input`. */
  predicate IsForward(net: Network, input: Matrix, sigma: real -> real, acts: seq<Matrix>)
    requires WellFormed(net)
  {
    ForwardPrefix(net, input, sigma, acts) && |acts| == |net.layers|
  }

  /** `acts` has one matrix per layer, the input first, each of the layer's
      width by the batch's columns: the shape every forward pass leaves in
      the layer caches. */
  predicate ActsFit(net: Network, input: Matrix, acts: seq<Matrix>)
    requires WellFormed(net)
  {
    && |acts| == |net.layers|
    && acts[0] == input
    && forall i | 0 <= i < |acts| :: IsMatrix(acts[i], Sizes(net)[i], Cols(input))
  }

  /** A batch the network accepts: one row per input feature and at least
      one column. */
  predicate InputFits(net: Network, input: Matrix)
    requires WellFormed(net)
  {
    IsMatrix(input, InputSize(net), Cols(input)) && Cols(input) > 0
  }

  /** One dense layer of the forward pass: the product `w · prev`, the bias
      added to every column, then the activation function. */
  method LayerForward(w: Matrix, b: Vector, prev: Matrix, sigma: real -> real) returns (z: Matrix, a: Matrix)
    requires Rect(prev) && |prev| > 0 && Cols(prev) > 0
    requires Rect(w) && |w| > 0 && Cols(w) == |prev| && |b| == |w|
    ensures Affine(w, b, prev, z)
    ensures Activated(z, a, sigma)
    ensures LayerOutput(w, b, prev, a, sigma)
  {
    z := Gemm(false, false, w, prev);
    z := AddBiasToColumns(z, b);
    a := ApplySigmoid(z, sigma);
  }

  /** One more layer of the pass extends the prefix. */
  lemma ForwardExtend(net: Network, input: Matrix, sigma: real -> real, acts: seq<Matrix>, a: Matrix)
    requires WellFormed(net) && InputFits(net, input)
    requires ForwardPrefix(net, input, sigma, acts) && |acts| < |net.layers|
    requires LayerOutput(Weights(net, |acts|), Biases(net, |acts|), acts[|acts| - 1], a, sigma)
    ensures ForwardPrefix(net, input, sigma, acts + [a])
  {
    var i := |acts|;
    var acts' := acts + [a];
    assert IsMatrix(acts[i - 1], Sizes(net)[i - 1], Cols(input));
    forall l | 1 <= l < |acts'|
      ensures LayerOutput(Weights(net, l), Biases(net, l), acts'[l - 1], acts'[l], sigma)
    {
      if l < i {
        assert acts'[l - 1] == acts[l - 1] && acts'[l] == acts[l];
      }
    }
  }

  /** The forward pass with the product taken against the previous layer's
      activation, `z = w * a + b` as the comment at the top of the source's
      layer loop (Network.c:105) says. `FeedforwardAsWritten` is the loop as
      the source writes it; `Backprop` and `GetDigit` come in a version for
      each. */
  method Feedforward(net: Network, input: Matrix, sigma: real -> real) returns (acts: seq<Matrix>)
    requires WellFormed(net) && InputFits(net, input)
    ensures IsForward(net, input, sigma, acts)
  {
    acts := [input];
    var i := 1;
    while i < net.numLayers
      invariant 1 <= i <= net.numLayers
      invariant |acts| == i
      invariant ForwardPrefix(net, input, sigma, acts)
    {
      var _, a := LayerForward(Weights(net, i), Biases(net, i), acts[i - 1], sigma);
      ForwardExtend(net, input, sigma, acts, a);
      acts := acts + [a];
      i := i + 1;
    }
  }

  /** The forward pass as the source writes it, over the first `|zs|`
      layers: `zs[i]` is layer i's pre-activation and the NEXT layer
      multiplies `zs[i]`, not the activation `acts[i]` (zs[0] is the input). */
  predicate AsWrittenPrefix(net: Network, input: Matrix, sigma: real -> real, zs: seq<Matrix>, acts: seq<Matrix>)
    requires WellFormed(net)
  {
    && 1 <= |zs| <= |net.layers| && |acts| == |zs|
    && zs[0] == input && acts[0] == input
    && (forall i | 0 <= i < |zs| :: IsMatrix(zs[i], Sizes(net)[i], Cols(input)))
    && (forall i | 1 <= i < |zs| ::
          && Affine(Weights(net, i), Biases(net, i), zs[i - 1], zs[i])
          && Activated(zs[i], acts[i], sigma))
  }

  predicate ForwardAsWritten(net: Network, input: Matrix, sigma: real -> real, zs: seq<Matrix>, acts: seq<Matrix>)
    requires WellFormed(net)
  {
    AsWrittenPrefix(net, input, sigma, zs, acts) && |zs| == |net.layers|
  }

  /** Models `feedforward` exactly as written: `prev` becomes the
      pre-activation `z` of each layer, and the next layer's product is
      taken against it. Layer activations `acts` are what the layer caches
      hold afterwards; `zs` are the pre-activations. */
  method FeedforwardAsWritten(net: Network, input: Matrix, sigma: real -> real)
    returns (acts: seq<Matrix>, zs: seq<Matrix>)
    requires WellFormed(net) && InputFits(net, input)
    ensures ForwardAsWritten(net, input, sigma, zs, acts)
  {
    var prev := input;
    acts := [input];
    zs := [input];
    var i := 1;
    while i < net.numLayers
      invariant 1 <= i <= net.numLayers
      invariant |zs| == i && zs[i - 1] == prev
      invariant AsWrittenPrefix(net, input, sigma, zs, acts)
    {
      var z, a := LayerForward(Weights(net, i), Biases(net, i), prev, sigma);
      AsWrittenExtend(net, input, sigma, zs, acts, z, a);
      prev := z;
      acts := acts + [a];
      zs := zs + [z];
      i := i + 1;
    }
  }

  /** One more layer of the pass as written extends the prefix. */
  lemma AsWrittenExtend(net: Network, input: Matrix, sigma: real -> real, zs: seq<Matrix>, acts: seq<Matrix>,
                        z: Matrix, a: Matrix)
    requires WellFormed(net) && InputFits(net, input)
    requires AsWrittenPrefix(net, input, sigma, zs, acts) && |zs| < |net.layers|
    requires Affine(Weights(net, |zs|), Biases(net, |zs|), zs[|zs| - 1], z) && Activated(z, a, sigma)
    ensures AsWrittenPrefix(net, input, sigma, zs + [z], acts + [a])
  {
    var i := |zs|;
    var zs', acts' := zs + [z], acts + [a];
    assert IsMatrix(zs[i - 1], Sizes(net)[i - 1], Cols(input));
    assert IsMatrix(z, Sizes(net)[i], Cols(input));
    forall l | 1 <= l < |zs'|
      ensures Affine(Weights(net, l), Biases(net, l), zs'[l - 1], zs'[l]) && Activated(zs'[l], acts'[l], sigma)
    {
      if l < i {
        assert zs'[l - 1] == zs[l - 1] && zs'[l] == zs[l] && acts'[l] == acts[l];
      }
    }
  }

  /** The one-input, one-unit-per-layer, three-layer network with unit weights
      and zero biases, on which the two forward passes differ. */
  function Chain3(): (net: Network)
    ensures WellFormed(net) && Sizes(net) == [1, 1, 1]
  {
    var net := Network([InputLayer, Dense([[1.0]], [0.0], 1), Dense([[1.0]], [0.0], 1)], 0.0, 3);
    assert Shaped(net, [1, 1, 1]);
    ShapedIsWellFormed(net, [1, 1, 1]);
    net
  }

  /** On `Chain3` with input [[1]], the pass as written outputs `σ(1)`: the
      last layer sees the previous pre-activation 1. The intended pass
      outputs `σ(σ(1))`. For the logistic function, which is strictly
      increasing with σ(1) < 1, these differ. */
  lemma ForwardBugWitness(sigma: real -> real, zs: seq<Matrix>, acts: seq<Matrix>, acts': seq<Matrix>)
    requires ForwardAsWritten(Chain3(), [[1.0]], sigma, zs, acts)
    requires IsForward(Chain3(), [[1.0]], sigma, acts')
    ensures acts[2][0][0] == sigma(1.0)
    ensures acts'[2][0][0] == sigma(sigma(1.0))
  {
    var net := Chain3();
    assert Column([[1.0]], 0) == [1.0];
    assert Dot([1.0], [1.0]) == 1.0 by {
      assert [1.0][..0] == [];
    }
    assert zs[1][0][0] == 1.0;
    assert Column(zs[1], 0) == [1.0];
    assert acts'[1][0][0] == sigma(1.0);
    assert Column(acts'[1], 0) == [sigma(1.0)];
    assert Dot([1.0], [sigma(1.0)]) == sigma(1.0) by {
      assert [1.0][..0] == [];
      assert [sigma(1.0)][..0] == [];
    }
  }

  /** The two passes are different functions of the network: on `Chain3`
      with input [[1]] their outputs differ for every one-to-one activation
      that does not fix 1, the logistic function among them. */
  lemma PassesDiffer(sigma: real -> real, zs: seq<Matrix>, acts: seq<Matrix>, acts': seq<Matrix>)
    requires forall x, x' :: sigma(x) == sigma(x') ==> x == x'
    requires sigma(1.0) != 1.0
    requires ForwardAsWritten(Chain3(), [[1.0]], sigma, zs, acts)
    requires IsForward(Chain3(), [[1.0]], sigma, acts')
    ensures acts[2] != acts'[2]
  {
    ForwardBugWitness(sigma, zs, acts, acts');
  }

  /** Both passes leave the layer caches in the same shape. */
  lemma ForwardActsFit(net: Network, input: Matrix, sigma: real -> real, acts: seq<Matrix>)
    requires WellFormed(net)
    requires IsForward(net, input, sigma, acts)
    ensures ActsFit(net, input, acts)
  {
  }

  lemma {:induction false} AsWrittenActsFit(net: Network, input: Matrix, sigma: real -> real,
                                           zs: seq<Matrix>, acts: seq<Matrix>)
    requires WellFormed(net)
    requires ForwardAsWritten(net, input, sigma, zs, acts)
    ensures ActsFit(net, input, acts)
  {
    forall i | 0 <= i < |acts| ensures IsMatrix(acts[i], Sizes(net)[i], Cols(input)) {
      assert IsMatrix(zs[i], Sizes(net)[i], Cols(input));
      if i > 0 {
        assert Activated(zs[i], acts[i], sigma);
      }
    }
  }

  /** Both passes agree on layers 0 and 1, which are fed the input itself; a
      network with a single dense layer is therefore unaffected. */
  lemma {:induction false} AsWrittenAgreesOnFirstLayer(net: Network, input: Matrix, sigma: real -> real,
                                                      zs: seq<Matrix>, acts: seq<Matrix>, acts': seq<Matrix>)
    requires WellFormed(net) && InputFits(net, input)
    requires ForwardAsWritten(net, input, sigma, zs, acts)
    requires IsForward(net, input, sigma, acts')
    ensures acts[..2] == acts'[..2]
    ensures |net.layers| == 2 ==> acts == acts'
  {
    var s := Sizes(net);
    var w := Weights(net, 1);
    var b := Biases(net, 1);
    assert Affine(w, b, input, zs[1]) && Activated(zs[1], acts[1], sigma);
    assert LayerOutput(w, b, input, acts'[1], sigma);
    assert IsMatrix(acts[1], s[1], Cols(input)) && IsMatrix(acts'[1], s[1], Cols(input));
    forall j, c | 0 <= j < s[1] && 0 <= c < Cols(input) ensures acts[1][j][c] == acts'[1][j][c] {
      assert IsMatrix(zs[1], s[1], Cols(input)) && Cols(zs[1]) == Cols(input);
      assert zs[1][j][c] == Dot(w[j], Column(input, c)) + b[j];
      assert acts[1][j][c] == sigma(zs[1][j][c]);
    }
    MatrixEquality(acts[1], acts'[1], s[1], Cols(input));
    assert acts[..2] == [acts[0], acts[1]];
    assert acts'[..2] == [acts'[0], acts'[1]];
  }

  /** With every weight and bias zero, every activation past the input
      equals `σ(0)`, whatever the input. */
  lemma ZeroParametersGiveSigmaZero(net: Network, input: Matrix, sigma: real -> real, acts: seq<Matrix>)
    requires WellFormed(net)
    requires IsForward(net, input, sigma, acts)
    requires forall i, j, k | 1 <= i < |net.layers| && 0 <= j < Sizes(net)[i] && 0 <= k < Sizes(net)[i - 1] ::
      LayerShaped(net.layers[i], Sizes(net)[i], Sizes(net)[i - 1]) && net.layers[i].weights[j][k] == 0.0
    requires forall i, j | 1 <= i < |net.layers| && 0 <= j < Sizes(net)[i] ::
      LayerShaped(net.layers[i], Sizes(net)[i], Sizes(net)[i - 1]) && net.layers[i].biases[j] == 0.0
    ensures forall i, j, c | 1 <= i < |acts| && 0 <= j < |acts[i]| && 0 <= c < |acts[i][j]| ::
      acts[i][j][c] == sigma(0.0)
  {
    var s := Sizes(net);
    forall i, j, c | 1 <= i < |acts| && 0 <= j < |acts[i]| && 0 <= c < |acts[i][j]|
      ensures acts[i][j][c] == sigma(0.0)
    {
      var w := Weights(net, i);
      assert LayerShaped(net.layers[i], s[i], s[i - 1]);
      assert LayerOutput(w, Biases(net, i), acts[i - 1], acts[i], sigma);
      assert IsMatrix(acts[i], s[i], Cols(input)) && IsMatrix(acts[i - 1], s[i - 1], Cols(input));
      assert forall k | 0 <= k < s[i - 1] :: w[j][k] == 0.0;
      DotZeroLeft(w[j], Column(acts[i - 1], c));
    }
  }

  /** The same for the pass as written: with every weight and bias zero,
      every cached activation past the input is `σ(0)`, whatever the input,
      although each layer is fed the previous pre-activation. */
  lemma ZeroParametersGiveSigmaZeroAsWritten(net: Network, input: Matrix, sigma: real -> real,
                                             zs: seq<Matrix>, acts: seq<Matrix>)
    requires WellFormed(net)
    requires ForwardAsWritten(net, input, sigma, zs, acts)
    requires forall i, j, k | 1 <= i < |net.layers| && 0 <= j < Sizes(net)[i] && 0 <= k < Sizes(net)[i - 1] ::
      LayerShaped(net.layers[i], Sizes(net)[i], Sizes(net)[i - 1]) && net.layers[i].weights[j][k] == 0.0
    requires forall i, j | 1 <= i < |net.layers| && 0 <= j < Sizes(net)[i] ::
      LayerShaped(net.layers[i], Sizes(net)[i], Sizes(net)[i - 1]) && net.layers[i].biases[j] == 0.0
    ensures forall i, j, c | 1 <= i < |acts| && 0 <= j < |acts[i]| && 0 <= c < |acts[i][j]| ::
      acts[i][j][c] == sigma(0.0)
  {
    var s := Sizes(net);
    forall i, j, c | 1 <= i < |acts| && 0 <= j < |acts[i]| && 0 <= c < |acts[i][j]|
      ensures acts[i][j][c] == sigma(0.0)
    {
      var w := Weights(net, i);
      assert LayerShaped(net.layers[i], s[i], s[i - 1]);
      assert Affine(w, Biases(net, i), zs[i - 1], zs[i]) && Activated(zs[i], acts[i], sigma);
      assert IsMatrix(zs[i], s[i], Cols(input)) && IsMatrix(zs[i - 1], s[i - 1], Cols(input));
      assert forall k | 0 <= k < s[i - 1] :: w[j][k] == 0.0;
      DotZeroLeft(w[j], Column(zs[i - 1], c));
    }
  }
}
