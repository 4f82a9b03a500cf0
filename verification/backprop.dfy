/** Backpropagation and the training loop: one forward pass, then a sweep
    from the output layer down to layer 1 that updates each layer by plain
    gradient descent and propagates the error to the layer below through
    the weights it has JUST updated. */
module Backprop {
  import opened Matrices
  import opened Net
  import opened Kernels
  import opened Forward

  /** A training batch the network accepts: an input of `InputSize(net)`
      rows and at least one column, and a target covering the output
      layer's rows and the same columns. */
  predicate BatchFits(net: Network, input: Matrix, y: Matrix)
    requires WellFormed(net)
  {
    InputFits(net, input) && Covers(y, OutputSize(net), Cols(input))
  }

  /** The descent step of one batch: the learning rate divided by the batch
      size, that is, the gradient is averaged over the batch. */
  function StepSize(rate: real, input: Matrix): real
    requires Cols(input) > 0
  {
    rate / (Cols(input) as real)
  }

  /** `w'`, `b'` are `w`, `b` after one descent step of size `step` for a
      layer fed with `prev` whose error is `delta`:
      `w'[j][k] = w[j][k] - step · Σ_c delta[j][c] · prev[k][c]` and
      `b'[j] = b[j] - step · Σ_c delta[j][c]`. */
  predicate LayerUpdate(w: Matrix, b: Vector, prev: Matrix, delta: Matrix, step: real, w': Matrix, b': Vector) {
    && Rect(prev)
    && IsMatrix(w, |w|, |prev|) && |b| == |w|
    && IsMatrix(delta, |w|, Cols(prev))
    && IsMatrix(w', |w|, |prev|) && |b'| == |w|
    && (forall j, k | 0 <= j < |w| && 0 <= k < |prev| :: w'[j][k] == w[j][k] - step * Dot(delta[j], prev[k]))
    && (forall j | 0 <= j < |w| :: b'[j] == b[j] - step * Sum(delta[j]))
  }

  /** What the backward sweep of one `backprop` call does to `net` on a
      batch, given the layer activations `acts` the forward pass cached:
      `deltas[i]` is layer i's error, `deltas[L-1]` the output error against
      `y`, and `deltas[i-1]` is propagated from `deltas[i]` through the
      UPDATED weights of layer i. Every dense layer takes one descent step of
      size `rate / batch`; the shapes, the layer count and the rate are kept. */
  predicate SweepSpec(net: Network, input: Matrix, y: Matrix, acts: seq<Matrix>, deltas: seq<Matrix>, net': Network)
    requires WellFormed(net) && BatchFits(net, input, y)
  {
    var L := |net.layers|;
    var s := Sizes(net);
    && ActsFit(net, input, acts)
    && WellFormed(net') && Sizes(net') == s && net'.rate == net.rate
    && |deltas| == L
    && (forall i | 0 <= i < L :: IsMatrix(deltas[i], s[i], Cols(input)))
    && IsOutputError(acts[L - 1], y, deltas[L - 1])
    && (forall i | 1 <= i < L :: IsPreviousError(acts[i - 1], Weights(net', i), deltas[i], deltas[i - 1]))
    && (forall i | 1 <= i < L ::
          LayerUpdate(Weights(net, i), Biases(net, i), acts[i - 1], deltas[i], StepSize(net.rate, input),
                      Weights(net', i), Biases(net', i)))
  }

  /** One `backprop` call with the intended forward pass: `acts` are the
      activations `σ(W_i · a_{i-1} + b_i)`, then the sweep. */
  predicate BackpropSpec(net: Network, input: Matrix, y: Matrix, sigma: real -> real,
                         acts: seq<Matrix>, deltas: seq<Matrix>, net': Network)
    requires WellFormed(net) && BatchFits(net, input, y)
  {
    IsForward(net, input, sigma, acts) && SweepSpec(net, input, y, acts, deltas, net')
  }

  /** One `backprop` call as the source writes it: the forward loop feeds
      each layer the previous pre-activation `zs[i-1]`, and the sweep works
      on the activations that loop cached. */
  predicate BackpropAsWrittenSpec(net: Network, input: Matrix, y: Matrix, sigma: real -> real,
                                  zs: seq<Matrix>, acts: seq<Matrix>, deltas: seq<Matrix>, net': Network)
    requires WellFormed(net) && BatchFits(net, input, y)
  {
    ForwardAsWritten(net, input, sigma, zs, acts) && SweepSpec(net, input, y, acts, deltas, net')
  }

  /** The weight half of one layer's update: the gradient `err · prevᵀ`,
      scaled by `step`, subtracted from `w`. */
  method DescendWeights(w: Matrix, prev: Matrix, err: Matrix, step: real) returns (w': Matrix)
    requires Rect(prev) && |prev| > 0 && Cols(prev) > 0
    requires Rect(w) && |w| > 0 && Cols(w) == |prev|
    requires IsMatrix(err, |w|, Cols(prev))
    ensures IsMatrix(w', |w|, |prev|)
    ensures forall j, k | 0 <= j < |w| && 0 <= k < |prev| :: w'[j][k] == w[j][k] - step * Dot(err[j], prev[k])
  {
    var weightError := GetWeightsError(prev, err);
    var scaled := ScaleM(step, weightError);
    w' := SubM(w, scaled);
  }

  /** The bias half of one layer's update: the row sums of `err`, scaled by
      `step`, subtracted from `b`. */
  method DescendBiases(b: Vector, err: Matrix, step: real) returns (b': Vector)
    requires Rect(err) && |b| == |err|
    ensures |b'| == |b|
    ensures forall j | 0 <= j < |b| :: b'[j] == b[j] - step * Sum(err[j])
  {
    var biasError := GetBiasError(err);
    var scaled := ScaleV(step, biasError);
    b' := SubV(b, scaled);
  }

  /** The body of the backward loop for one layer: bias and weight
      gradients, scaled by `step`, subtracted from the parameters; then the
      error for the layer below, from the new weights. */
  method BackwardStep(w: Matrix, b: Vector, prev: Matrix, err: Matrix, step: real)
    returns (w': Matrix, b': Vector, prevErr: Matrix)
    requires Rect(prev) && |prev| > 0 && Cols(prev) > 0
    requires Rect(w) && |w| > 0 && Cols(w) == |prev| && |b| == |w|
    requires IsMatrix(err, |w|, Cols(prev))
    ensures LayerUpdate(w, b, prev, err, step, w', b')
    ensures IsPreviousError(prev, w', err, prevErr)
  {
    b' := DescendBiases(b, err, step);
    w' := DescendWeights(w, prev, err, step);
    prevErr := GetPreviousError(prev, w', err);
  }

  /** Layer `l` of the sweep is done: `layer` is the layer's updated form,
      `delta` its error and `below` the error propagated into layer l-1
      (whose activation is `prev`) through the updated weights. */
  predicate Swept(net: Network, l: int, prev: Matrix, layer: Layer, delta: Matrix, below: Matrix, step: real)
    requires WellFormed(net) && 1 <= l < |net.layers|
  {
    && LayerShaped(layer, Sizes(net)[l], Sizes(net)[l - 1])
    && IsPreviousError(prev, layer.weights, delta, below)
    && LayerUpdate(Weights(net, l), Biases(net, l), prev, delta, step, layer.weights, layer.biases)
  }

  /** The backward half of `backprop`: the output error from the cached
      output activation, then the sweep from layer L-1 down to 1. */
  method Sweep(net: Network, input: Matrix, y: Matrix, acts: seq<Matrix>)
    returns (net': Network, deltas: seq<Matrix>)
    requires WellFormed(net) && BatchFits(net, input, y)
    requires ActsFit(net, input, acts)
    ensures |deltas| == |net'.layers| == |net.layers| && net'.rate == net.rate
    ensures SweepSpec(net, input, y, acts, deltas, net')
  {
    var L := net.numLayers;
    var s := Sizes(net);
    var error := GetOutputError(acts[L - 1], y);
    deltas := seq(L, _ => [])[L - 1 := error];
    var step := StepSize(net.rate, input);
    var layers := net.layers;
    var i := L - 1;
    while i > 0
      invariant 0 <= i < L
      invariant |layers| == L && |deltas| == L
      invariant error == deltas[i]
      invariant forall l | 0 <= l <= i :: layers[l] == net.layers[l]
      invariant forall l | i <= l < L :: IsMatrix(deltas[l], s[l], Cols(input))
      invariant IsOutputError(acts[L - 1], y, deltas[L - 1])
      invariant forall l | i < l < L :: Swept(net, l, acts[l - 1], layers[l], deltas[l], deltas[l - 1], step)
    {
      var w', b', prevErr := BackwardStep(Weights(net, i), Biases(net, i), acts[i - 1], error, step);
      layers := layers[i := Dense(w', b', s[i])];
      deltas := deltas[i - 1 := prevErr];
      error := prevErr;
      i := i - 1;
    }
    net' := Network(layers, net.rate, net.numLayers);
    SweepMeetsSpec(net, input, y, acts, deltas, layers, step);
  }

  /** A finished sweep: every dense layer swept, the output error in place
      and the layer shapes kept, gives a network that meets `SweepSpec`. */
  lemma SweepMeetsSpec(net: Network, input: Matrix, y: Matrix,
                       acts: seq<Matrix>, deltas: seq<Matrix>, layers: seq<Layer>, step: real)
    requires WellFormed(net) && BatchFits(net, input, y)
    requires ActsFit(net, input, acts)
    requires step == StepSize(net.rate, input)
    requires |layers| == |net.layers| && |deltas| == |net.layers| && layers[0] == net.layers[0]
    requires forall l | 0 <= l < |net.layers| :: IsMatrix(deltas[l], Sizes(net)[l], Cols(input))
    requires IsOutputError(acts[|net.layers| - 1], y, deltas[|net.layers| - 1])
    requires forall l | 0 < l < |net.layers| :: Swept(net, l, acts[l - 1], layers[l], deltas[l], deltas[l - 1], step)
    ensures SweepSpec(net, input, y, acts, deltas, Network(layers, net.rate, net.numLayers))
  {
    var s := Sizes(net);
    var net' := Network(layers, net.rate, net.numLayers);
    assert Shaped(net', s);
    ShapedIsWellFormed(net', s);
    forall i | 1 <= i < |net.layers|
      ensures IsPreviousError(acts[i - 1], Weights(net', i), deltas[i], deltas[i - 1])
      ensures LayerUpdate(Weights(net, i), Biases(net, i), acts[i - 1], deltas[i], step, Weights(net', i), Biases(net', i))
    {
      assert Swept(net, i, acts[i - 1], layers[i], deltas[i], deltas[i - 1], step);
    }
  }

  /** `backprop` with the intended forward pass: the layer caches hold
      `σ(W_i · a_{i-1} + b_i)`, then the sweep. The activations and errors
      are released at the end in the source; here they are returned
      alongside the network and witness the contract. */
  method Backprop(net: Network, input: Matrix, y: Matrix, sigma: real -> real)
    returns (net': Network, acts: seq<Matrix>, deltas: seq<Matrix>)
    requires WellFormed(net) && BatchFits(net, input, y)
    ensures |acts| == |deltas| == |net'.layers| == |net.layers| && net'.rate == net.rate
    ensures BackpropSpec(net, input, y, sigma, acts, deltas, net')
  {
    acts := Feedforward(net, input, sigma);
    ForwardActsFit(net, input, sigma, acts);
    net', deltas := Sweep(net, input, y, acts);
  }

  /** Models `backprop` as the source writes it: the forward loop of
      `feedforward` exactly as written (each layer fed the previous
      pre-activation), then the same sweep over the activations it cached. */
  method BackpropAsWritten(net: Network, input: Matrix, y: Matrix, sigma: real -> real)
    returns (net': Network, zs: seq<Matrix>, acts: seq<Matrix>, deltas: seq<Matrix>)
    requires WellFormed(net) && BatchFits(net, input, y)
    ensures |acts| == |deltas| == |net'.layers| == |net.layers| && net'.rate == net.rate
    ensures BackpropAsWrittenSpec(net, input, y, sigma, zs, acts, deltas, net')
  {
    acts, zs := FeedforwardAsWritten(net, input, sigma);
    AsWrittenActsFit(net, input, sigma, zs, acts);
    net', deltas := Sweep(net, input, y, acts);
  }

  /* ------------------------------------------------------ fixed points */

  /** Every entry of `m` is zero. */
  predicate AllZero(m: Matrix) {
    forall j, c | 0 <= j < |m| && 0 <= c < |m[j]| :: m[j][c] == 0.0
  }

  /** Two well-formed networks with the same widths, rate and parameters are
      the same network. */
  lemma SameParameters(net: Network, net': Network)
    requires WellFormed(net) && WellFormed(net') && Sizes(net') == Sizes(net) && net'.rate == net.rate
    requires forall i | 1 <= i < |net.layers| ::
      Weights(net', i) == Weights(net, i) && Biases(net', i) == Biases(net, i)
    ensures net' == net
  {
    var s := Sizes(net);
    assert |net'.layers| == |s| == |net.layers|;
    forall i | 0 <= i < |net.layers| ensures net'.layers[i] == net.layers[i] {
      if i > 0 {
        assert LayerShaped(net.layers[i], s[i], s[i - 1]);
        assert LayerShaped(net'.layers[i], s[i], s[i - 1]);
        assert Weights(net', i) == Weights(net, i) && Biases(net', i) == Biases(net, i);
      }
    }
  }

  /** A descent step of size zero, or one driven by an all-zero error,
      leaves the layer's parameters as they were. */
  lemma {:induction false} NoGradientNoChange(w: Matrix, b: Vector, prev: Matrix, delta: Matrix, step: real,
                                             w': Matrix, b': Vector)
    requires LayerUpdate(w, b, prev, delta, step, w', b')
    requires step == 0.0 || AllZero(delta)
    ensures w' == w && b' == b
  {
    forall j, k | 0 <= j < |w| && 0 <= k < |prev| ensures w'[j][k] == w[j][k] {
      assert w'[j][k] == w[j][k] - step * Dot(delta[j], prev[k]);
      if step != 0.0 {
        DotZeroLeft(delta[j], prev[k]);
      }
    }
    MatrixEquality(w', w, |w|, |prev|);
    forall j | 0 <= j < |w| ensures b'[j] == b[j] {
      if step != 0.0 {
        SumZero(delta[j]);
      }
    }
  }

  /** With a zero learning rate, `backprop` gives back the network it was
      handed, whatever the batch and whichever forward pass filled the
      caches. */
  lemma RateZeroChangesNothing(net: Network, input: Matrix, y: Matrix,
                               acts: seq<Matrix>, deltas: seq<Matrix>, net': Network)
    requires WellFormed(net) && BatchFits(net, input, y)
    requires SweepSpec(net, input, y, acts, deltas, net')
    requires net.rate == 0.0
    ensures net' == net
  {
    var step := StepSize(net.rate, input);
    assert step == 0.0;
    forall i | 1 <= i < |net.layers| ensures Weights(net', i) == Weights(net, i) && Biases(net', i) == Biases(net, i) {
      NoGradientNoChange(Weights(net, i), Biases(net, i), acts[i - 1], deltas[i], step, Weights(net', i), Biases(net', i));
    }
    SameParameters(net, net');
  }

  /** When the output already equals the target, every layer's error is
      zero: the output error vanishes, and an error propagated from a zero
      error is zero whatever the weights. */
  lemma {:induction false} PerfectPredictionZeroDeltas(net: Network, input: Matrix, y: Matrix,
                                                      acts: seq<Matrix>, deltas: seq<Matrix>, net': Network, l: int)
    requires WellFormed(net) && BatchFits(net, input, y)
    requires SweepSpec(net, input, y, acts, deltas, net')
    requires acts[|net.layers| - 1] == y
    requires 0 <= l < |net.layers|
    ensures AllZero(deltas[l])
    decreases |net.layers| - l
  {
    var L := |net.layers|;
    if l == L - 1 {
      forall j, c | 0 <= j < |deltas[l]| && 0 <= c < |deltas[l][j]| ensures deltas[l][j][c] == 0.0 {
        OutputErrorZeroIff(acts[L - 1], y, deltas[L - 1], j, c);
      }
    } else {
      PerfectPredictionZeroDeltas(net, input, y, acts, deltas, net', l + 1);
      ZeroErrorPropagates(acts[l], Weights(net', l + 1), deltas[l + 1], deltas[l]);
    }
  }

  /** An error propagated back from an all-zero error is all zero. */
  lemma ZeroErrorPropagates(a: Matrix, w: Matrix, err: Matrix, out: Matrix)
    requires IsPreviousError(a, w, err, out) && AllZero(err)
    ensures AllZero(out)
  {
    forall i, j | 0 <= i < |out| && 0 <= j < |out[i]| ensures out[i][j] == 0.0 {
      DotZeroRight(Column(w, i), Column(err, j));
    }
  }

  /** A batch the network already fits exactly leaves it unchanged, whichever
      forward pass produced the output. */
  lemma PerfectPredictionChangesNothing(net: Network, input: Matrix, y: Matrix,
                                        acts: seq<Matrix>, deltas: seq<Matrix>, net': Network)
    requires WellFormed(net) && BatchFits(net, input, y)
    requires SweepSpec(net, input, y, acts, deltas, net')
    requires acts[|net.layers| - 1] == y
    ensures net' == net
  {
    var step := StepSize(net.rate, input);
    forall i | 1 <= i < |net.layers| ensures Weights(net', i) == Weights(net, i) && Biases(net', i) == Biases(net, i) {
      PerfectPredictionZeroDeltas(net, input, y, acts, deltas, net', i);
      NoGradientNoChange(Weights(net, i), Biases(net, i), acts[i - 1], deltas[i], step, Weights(net', i), Biases(net', i));
    }
    SameParameters(net, net');
  }

  /* ---------------------------------------------------------- training */

  /** `0, 1, …, n-1`. */
  function Upto(n: nat): (r: seq<nat>)
    ensures |r| == n && forall k | 0 <= k < n :: r[k] == k
  {
    seq(n, k requires 0 <= k < n => k)
  }

  lemma UptoSnoc(n: nat)
    ensures Upto(n + 1) == Upto(n) + [n]
  {
    assert forall k | 0 <= k < n + 1 :: Upto(n + 1)[k] == (Upto(n) + [n])[k];
  }

  /** The order in which training visits the batches: epoch after epoch,
      batches 0 to `batches - 1` each time; nothing for a non-positive epoch
      count. */
  function Schedule(epochs: int, batches: nat): (order: seq<nat>)
    ensures forall t | 0 <= t < |order| :: order[t] < batches
    decreases epochs
  {
    if epochs <= 0 then [] else Schedule(epochs - 1, batches) + Upto(batches)
  }

  /** The schedule has `epochs · batches` steps, none for a non-positive
      epoch count. */
  lemma {:induction false} ScheduleLength(epochs: int, batches: nat)
    ensures |Schedule(epochs, batches)| == (if epochs > 0 then epochs else 0) * batches
    decreases epochs
  {
    if epochs > 0 {
      ScheduleLength(epochs - 1, batches);
      assert (epochs - 1) * batches + batches == epochs * batches;
    }
  }

  /** Step `e · batches + j` of the schedule trains on batch j. */
  lemma {:induction false} ScheduleEntry(epochs: int, batches: nat, e: nat, j: nat)
    requires e < epochs && j < batches
    ensures e * batches + j < |Schedule(epochs, batches)|
    ensures Schedule(epochs, batches)[e * batches + j] == j
    decreases epochs
  {
    var prefix := Schedule(epochs - 1, batches);
    ScheduleLength(epochs - 1, batches);
    if e == epochs - 1 {
      assert |prefix| == e * batches;
    } else {
      ScheduleEntry(epochs - 1, batches, e, j);
      assert (e + 1) * batches <= (epochs - 1) * batches;
    }
  }

  /** Which forward pass a `backprop` call runs: the intended one, or the
      loop as the source writes it. */
  datatype Pass = Intended | AsWritten

  /** `acts` are the layer activations `pass` caches for `input`. */
  ghost predicate ForwardBy(pass: Pass, net: Network, input: Matrix, sigma: real -> real, acts: seq<Matrix>)
    requires WellFormed(net)
  {
    match pass
    case Intended => IsForward(net, input, sigma, acts)
    case AsWritten => exists zs :: ForwardAsWritten(net, input, sigma, zs, acts)
  }

  /** `net'` is what one `backprop` call with the forward pass `pass` makes
      of `net` on this batch. */
  ghost predicate StepsTo(pass: Pass, net: Network, input: Matrix, y: Matrix, sigma: real -> real, net': Network) {
    && WellFormed(net) && BatchFits(net, input, y)
    && exists acts, deltas :: ForwardBy(pass, net, input, sigma, acts) && SweepSpec(net, input, y, acts, deltas, net')
  }

  /** `trace` is the succession of networks produced by training on the
      batches in `order`: each is one `backprop` call away from the one
      before, on the batch `order` names at that step. */
  ghost predicate Follows(pass: Pass, trace: seq<Network>, order: seq<nat>, inputs: seq<Matrix>, ys: seq<Matrix>,
                          sigma: real -> real) {
    && |trace| == |order| + 1
    && forall t | 0 <= t < |order| ::
         order[t] < |inputs| && order[t] < |ys| && StepsTo(pass, trace[t], inputs[order[t]], ys[order[t]], sigma, trace[t + 1])
  }

  lemma FollowsExtend(pass: Pass, trace: seq<Network>, order: seq<nat>, inputs: seq<Matrix>, ys: seq<Matrix>,
                      sigma: real -> real, j: nat, next: Network)
    requires Follows(pass, trace, order, inputs, ys, sigma)
    requires j < |inputs| && j < |ys|
    requires StepsTo(pass, trace[|trace| - 1], inputs[j], ys[j], sigma, next)
    ensures Follows(pass, trace + [next], order + [j], inputs, ys, sigma)
  {
    var trace', order' := trace + [next], order + [j];
    forall t | 0 <= t < |order'|
      ensures order'[t] < |inputs| && order'[t] < |ys| && StepsTo(pass, trace'[t], inputs[order'[t]], ys[order'[t]], sigma, trace'[t + 1])
    {
      if t < |order| {
        assert order'[t] == order[t] && order[t] < |inputs| && order[t] < |ys|;
        assert StepsTo(pass, trace[t], inputs[order[t]], ys[order[t]], sigma, trace[t + 1]);
        assert trace'[t] == trace[t] && trace'[t + 1] == trace[t + 1];
      } else {
        assert t == |order| && order'[t] == j && trace'[t] == trace[|trace| - 1] && trace'[t + 1] == next;
      }
    }
  }

  /** Training on batch j after batches 0 to j-1 of an epoch extends the
      epoch's prefix of the schedule by j. */
  lemma FollowsNextBatch(pass: Pass, trace: seq<Network>, order: seq<nat>, inputs: seq<Matrix>, ys: seq<Matrix>,
                         sigma: real -> real, j: nat, next: Network)
    requires Follows(pass, trace, order + Upto(j), inputs, ys, sigma)
    requires j < |inputs| && j < |ys|
    requires StepsTo(pass, trace[|trace| - 1], inputs[j], ys[j], sigma, next)
    ensures Follows(pass, trace + [next], order + Upto(j + 1), inputs, ys, sigma)
  {
    FollowsExtend(pass, trace, order + Upto(j), inputs, ys, sigma, j, next);
    UptoSnoc(j);
    assert order + Upto(j) + [j] == order + Upto(j + 1);
  }

  /** A network a sweep produced after the forward pass `pass` is one step
      from its input and has the same widths and rate. */
  lemma SweepSteps(pass: Pass, net: Network, input: Matrix, y: Matrix, sigma: real -> real,
                   acts: seq<Matrix>, deltas: seq<Matrix>, net': Network)
    requires WellFormed(net) && BatchFits(net, input, y)
    requires ForwardBy(pass, net, input, sigma, acts) && SweepSpec(net, input, y, acts, deltas, net')
    ensures |net'.layers| == |net.layers| && net'.rate == net.rate
    ensures WellFormed(net') && Sizes(net') == Sizes(net)
    ensures StepsTo(pass, net, input, y, sigma, net')
  {
  }

  /** A batch that fits a network fits every network of the same widths. */
  lemma FitsSameSizes(net: Network, net': Network, input: Matrix, y: Matrix)
    requires WellFormed(net) && WellFormed(net') && Sizes(net') == Sizes(net)
    requires BatchFits(net, input, y)
    ensures BatchFits(net', input, y)
  {
    assert |net'.layers| == |Sizes(net)| == |net.layers|;
  }

  /** One `backprop` call of the training loop with the forward pass
      `pass`, seen through the step relation. */
  method TrainStep(pass: Pass, net: Network, input: Matrix, y: Matrix, sigma: real -> real) returns (net': Network)
    requires WellFormed(net) && BatchFits(net, input, y)
    ensures |net'.layers| == |net.layers| && net'.rate == net.rate
    ensures WellFormed(net') && Sizes(net') == Sizes(net)
    ensures StepsTo(pass, net, input, y, sigma, net')
  {
    var acts, deltas;
    match pass {
      case Intended =>
        net', acts, deltas := Backprop(net, input, y, sigma);
      case AsWritten =>
        var zs;
        net', zs, acts, deltas := BackpropAsWritten(net, input, y, sigma);
        assert ForwardAsWritten(net, input, sigma, zs, acts);
    }
    SweepSteps(pass, net, input, y, sigma, acts, deltas, net');
  }

  /** One epoch of `train`: a `backprop` call on each of the batches 0 to
      `batches - 1` in turn, starting from `net`, the last network of
      `trace`; the networks it produces are appended to `trace`. The batches
      fit `origin`, the network training started from, which has the same
      widths. */
  method Epoch(pass: Pass, origin: Network, net: Network, inputs: seq<Matrix>, ys: seq<Matrix>, batches: nat,
               sigma: real -> real, ghost trace: seq<Network>, ghost order: seq<nat>)
    returns (net': Network, ghost trace': seq<Network>)
    requires WellFormed(origin) && WellFormed(net) && Sizes(net) == Sizes(origin)
    requires batches <= |inputs| && batches <= |ys|
    requires forall j | 0 <= j < batches :: BatchFits(origin, inputs[j], ys[j])
    requires Follows(pass, trace, order, inputs, ys, sigma) && trace[|trace| - 1] == net
    ensures WellFormed(net') && Sizes(net') == Sizes(net) && net'.rate == net.rate
    ensures Follows(pass, trace', order + Upto(batches), inputs, ys, sigma)
    ensures trace'[0] == trace[0] && trace'[|trace'| - 1] == net'
  {
    net' := net;
    trace' := trace;
    var j := 0;
    while j < batches
      invariant 0 <= j <= batches
      invariant Follows(pass, trace', order + Upto(j), inputs, ys, sigma)
      invariant trace'[0] == trace[0] && trace'[|trace'| - 1] == net'
      invariant WellFormed(net') && Sizes(net') == Sizes(net) && net'.rate == net.rate
    {
      FitsSameSizes(origin, net', inputs[j], ys[j]);
      var next := TrainStep(pass, net', inputs[j], ys[j], sigma);
      FollowsNextBatch(pass, trace', order, inputs, ys, sigma, j, next);
      trace' := trace' + [next];
      net' := next;
      j := j + 1;
    }
  }

  /** Models `train`: for each epoch, one `backprop` call per batch, in
      order, each running the forward pass `pass` (`AsWritten` is the
      source's). `trace` lists the network after every call; the widths and
      the rate never change. */
  method Train(pass: Pass, net: Network, inputs: seq<Matrix>, ys: seq<Matrix>, epochs: int, batches: int,
               sigma: real -> real)
    returns (net': Network, ghost trace: seq<Network>)
    requires WellFormed(net)
    requires batches <= |inputs| && batches <= |ys|
    requires forall j | 0 <= j < batches :: BatchFits(net, inputs[j], ys[j])
    ensures WellFormed(net') && Sizes(net') == Sizes(net) && net'.rate == net.rate
    ensures Follows(pass, trace, Schedule(epochs, if batches > 0 then batches else 0), inputs, ys, sigma)
    ensures trace[0] == net && trace[|trace| - 1] == net'
  {
    var nb: nat := if batches > 0 then batches else 0;
    net' := net;
    trace := [net];
    var e := 0;
    while e < epochs
      invariant 0 <= e <= (if epochs > 0 then epochs else 0)
      invariant Follows(pass, trace, Schedule(e, nb), inputs, ys, sigma)
      invariant trace[0] == net && trace[|trace| - 1] == net'
      invariant WellFormed(net') && Sizes(net') == Sizes(net) && net'.rate == net.rate
    {
      net', trace := Epoch(pass, net, net', inputs, ys, nb, sigma, trace, Schedule(e, nb));
      e := e + 1;
    }
    assert Schedule(e, nb) == Schedule(epochs, nb);
  }

  /** Training at a zero learning rate never moves the network: every
      network along the trace is the first one. */
  lemma RateZeroTrainingChangesNothing(pass: Pass, trace: seq<Network>, order: seq<nat>, inputs: seq<Matrix>,
                                       ys: seq<Matrix>, sigma: real -> real)
    requires Follows(pass, trace, order, inputs, ys, sigma)
    requires trace[0].rate == 0.0
    ensures forall t | 0 <= t < |trace| :: trace[t] == trace[0]
  {
    RateZeroStepsAreStill(pass, trace, order, inputs, ys, sigma);
    forall t | 0 <= t < |trace| ensures trace[t] == trace[0] {
      StillFromStart(trace, t);
    }
  }

  /** Each zero-rate step along a trace leaves the network as it was. */
  lemma RateZeroStepsAreStill(pass: Pass, trace: seq<Network>, order: seq<nat>, inputs: seq<Matrix>,
                              ys: seq<Matrix>, sigma: real -> real)
    requires Follows(pass, trace, order, inputs, ys, sigma)
    ensures forall t | 0 <= t < |trace| - 1 :: trace[t].rate == 0.0 ==> trace[t + 1] == trace[t]
  {
    forall t | 0 <= t < |trace| - 1 && trace[t].rate == 0.0 ensures trace[t + 1] == trace[t] {
      FollowsStep(pass, trace, order, inputs, ys, sigma, t);
      RateZeroStepChangesNothing(pass, trace[t], inputs[order[t]], ys[order[t]], sigma, trace[t + 1]);
    }
  }

  /** If zero-rate steps keep the network and the first network has rate
      zero, the whole trace is that network. */
  lemma {:induction false} StillFromStart(trace: seq<Network>, t: int)
    requires forall t' | 0 <= t' < |trace| - 1 :: trace[t'].rate == 0.0 ==> trace[t' + 1] == trace[t']
    requires 0 <= t < |trace| && trace[0].rate == 0.0
    ensures trace[t] == trace[0]
  {
    if t > 0 {
      StillFromStart(trace, t - 1);
    }
  }

  lemma FollowsStep(pass: Pass, trace: seq<Network>, order: seq<nat>, inputs: seq<Matrix>, ys: seq<Matrix>,
                    sigma: real -> real, t: int)
    requires Follows(pass, trace, order, inputs, ys, sigma) && 0 <= t < |order|
    ensures order[t] < |inputs| && order[t] < |ys|
    ensures StepsTo(pass, trace[t], inputs[order[t]], ys[order[t]], sigma, trace[t + 1])
  {
  }

  lemma RateZeroStepChangesNothing(pass: Pass, net: Network, input: Matrix, y: Matrix, sigma: real -> real,
                                   net': Network)
    requires StepsTo(pass, net, input, y, sigma, net') && net.rate == 0.0
    ensures net' == net
  {
    var acts, deltas :| ForwardBy(pass, net, input, sigma, acts) && SweepSpec(net, input, y, acts, deltas, net');
    RateZeroChangesNothing(net, input, y, acts, deltas, net');
  }
}
