/** The network: an ordered sequence of layers with a learning rate, its
    construction from a list of layer widths, and the seeding of every weight
    and bias from a stream of uniform draws. */
module Net {
  import opened Matrices

  /** Layer 0 stands for the raw input and never receives parameters; every
      other layer is dense, with a `numNeurons × previous width` weight
      matrix and one bias per neuron. */
  datatype Layer =
    | InputLayer
    | Dense(weights: Matrix, biases: Vector, numNeurons: int)

  datatype Network = Network(layers: seq<Layer>, rate: real, numLayers: int)

  /** Layer `l` is dense with `rows` neurons fed by `cols` inputs. */
  predicate LayerShaped(l: Layer, rows: int, cols: int) {
    && l.Dense?
    && rows >= 0 && cols >= 0
    && l.numNeurons == rows
    && IsMatrix(l.weights, rows, cols)
    && |l.biases| == rows
  }

  /** `net` has the layer widths `sizes`: as many layers as widths (at least
      two), layer 0 the input placeholder, and layer i (i >= 1) a
      `sizes[i] × sizes[i-1]` weight matrix with `sizes[i]` biases, so that
      consecutive layers fit together. Every width is positive. */
  predicate Shaped(net: Network, sizes: seq<int>) {
    && net.numLayers == |net.layers| == |sizes|
    && |sizes| >= 2
    && net.layers[0].InputLayer?
    && (forall i | 0 <= i < |sizes| :: sizes[i] >= 1)
    && (forall i | 1 <= i < |sizes| :: LayerShaped(net.layers[i], sizes[i], sizes[i - 1]))
  }

  /** The layer widths read off the parameters: the input width (columns of
      layer 1's weights), then each dense layer's neuron count. */
  function Sizes(net: Network): seq<int>
    requires |net.layers| >= 2 && net.layers[1].Dense?
  {
    [Cols(net.layers[1].weights)]
      + seq(|net.layers| - 1, i requires 0 <= i < |net.layers| - 1 =>
              if net.layers[i + 1].Dense? then net.layers[i + 1].numNeurons else 0)
  }

  predicate WellFormed(net: Network) {
    |net.layers| >= 2 && net.layers[1].Dense? && Shaped(net, Sizes(net))
  }

  function InputSize(net: Network): int
    requires WellFormed(net)
  {
    Sizes(net)[0]
  }

  function OutputSize(net: Network): int
    requires WellFormed(net)
  {
    Sizes(net)[|net.layers| - 1]
  }

  /** The weights of dense layer i, a `Sizes(net)[i] × Sizes(net)[i-1]` matrix. */
  function Weights(net: Network, i: nat): (w: Matrix)
    requires WellFormed(net) && 1 <= i < |net.layers|
    ensures IsMatrix(w, Sizes(net)[i], Sizes(net)[i - 1])
    ensures |w| > 0 && Cols(w) == Sizes(net)[i - 1] > 0
  {
    assert LayerShaped(net.layers[i], Sizes(net)[i], Sizes(net)[i - 1]);
    net.layers[i].weights
  }

  /** The biases of dense layer i, one per neuron. */
  function Biases(net: Network, i: nat): (b: Vector)
    requires WellFormed(net) && 1 <= i < |net.layers|
    ensures |b| == Sizes(net)[i]
  {
    assert LayerShaped(net.layers[i], Sizes(net)[i], Sizes(net)[i - 1]);
    net.layers[i].biases
  }

  /** A network with the widths `sizes` is well formed and reports exactly
      those widths. */
  lemma ShapedIsWellFormed(net: Network, sizes: seq<int>)
    requires Shaped(net, sizes)
    ensures WellFormed(net) && Sizes(net) == sizes
  {
    assert LayerShaped(net.layers[1], sizes[1], sizes[0]);
    assert Cols(net.layers[1].weights) == sizes[0];
    var s := Sizes(net);
    forall i | 1 <= i < |sizes| ensures s[i] == sizes[i] {
      assert LayerShaped(net.layers[i], sizes[i], sizes[i - 1]);
    }
  }

  /* ---------------------------------------------------------------- seeding */

  /** Draw position where row `j` of a layer starts, the layer's rows of
      `cols` weights plus one bias each being laid out from `base`. Written
      by repeated addition; `RowStartClosedForm` gives `base + j * (cols + 1)`. */
  function RowStart(base: int, j: nat, cols: int): int {
    if j == 0 then base else RowStart(base, j - 1, cols) + cols + 1
  }

  /** Index of the first draw that layer `i` consumes (1 <= i <= |sizes|):
      each earlier layer l takes a row of `sizes[l-1]` weights and one bias
      for each of its `sizes[l]` neurons. */
  function Offset(sizes: seq<int>, i: nat): int
    requires 1 <= i <= |sizes|
    requires forall l | 0 <= l < |sizes| :: sizes[l] >= 1
  {
    if i == 1 then 0 else RowStart(Offset(sizes, i - 1), sizes[i - 1], sizes[i - 2])
  }

  /** Number of draws seeding a network with the widths `sizes`. */
  function DrawCount(sizes: seq<int>): int
    requires |sizes| >= 1
    requires forall l | 0 <= l < |sizes| :: sizes[l] >= 1
  {
    Offset(sizes, |sizes|)
  }

  lemma {:induction false} RowStartClosedForm(base: int, j: nat, cols: int)
    ensures RowStart(base, j, cols) == base + j * (cols + 1)
  {
    if j > 0 {
      RowStartClosedForm(base, j - 1, cols);
    }
  }

  /** Row starts grow with the row index, by at least one row per step. */
  lemma {:induction false} RowStartMonotone(base: int, j: nat, j': nat, cols: int)
    requires j <= j' && cols >= 0
    ensures RowStart(base, j, cols) + (j' - j) * (cols + 1) == RowStart(base, j', cols)
    ensures base <= RowStart(base, j, cols) <= RowStart(base, j', cols)
  {
    RowStartClosedForm(base, j, cols);
    RowStartClosedForm(base, j', cols);
    assert j' * (cols + 1) == j * (cols + 1) + (j' - j) * (cols + 1);
    assert (j' - j) * (cols + 1) >= 0;
    assert j * (cols + 1) >= 0;
  }

  lemma {:induction false} OffsetMonotone(sizes: seq<int>, i: nat, i': nat)
    requires 1 <= i <= i' <= |sizes|
    requires forall l | 0 <= l < |sizes| :: sizes[l] >= 1
    ensures 0 <= Offset(sizes, i) <= Offset(sizes, i')
  {
    if i < i' {
      OffsetMonotone(sizes, i, i' - 1);
      RowStartMonotone(Offset(sizes, i' - 1), 0, sizes[i' - 1], sizes[i' - 2]);
    } else if i > 1 {
      OffsetMonotone(sizes, 1, i);
    }
  }

  /** A weight is a uniform draw u mapped to `(u - 0.5) / 2`. */
  function WeightOf(u: real): real {
    (u - 0.5) / 2.0
  }

  /** A bias is a uniform draw u mapped to `(u - 0.5) / 1.2`. */
  function BiasOf(u: real): real {
    (u - 0.5) / 1.2
  }

  /** One row of weights: `cols` consecutive draws from `start`, mapped to weights. */
  method SeedRow(draws: seq<real>, start: int, cols: int) returns (row: Vector)
    requires 0 <= start && 0 <= cols && start + cols <= |draws|
    ensures |row| == cols
    ensures forall k | 0 <= k < cols :: row[k] == WeightOf(draws[start + k])
  {
    row := [];
    var k := 0;
    while k < cols
      invariant 0 <= k <= cols && |row| == k
      invariant forall k' | 0 <= k' < k :: row[k'] == WeightOf(draws[start + k'])
    {
      row := row + [WeightOf(draws[start + k])];
      k := k + 1;
    }
  }

  /** `row` holds the weights made from the `cols` draws at `start` on, and
      `bias` the bias made from the draw right after them. */
  predicate RowSeeded(row: Vector, bias: real, draws: seq<real>, start: int, cols: int) {
    && 0 <= start && 0 <= cols && start + cols < |draws|
    && |row| == cols
    && (forall k | 0 <= k < cols :: row[k] == WeightOf(draws[start + k]))
    && bias == BiasOf(draws[start + cols])
  }

  /** Row j of `w` and entry j of `b` are seeded from the draws at
      `RowStart(base, j, cols)` on, for every row present. */
  predicate RowsSeeded(w: Matrix, b: Vector, draws: seq<real>, base: int, cols: int) {
    && |w| == |b|
    && forall j: nat | j < |w| :: RowSeeded(w[j], b[j], draws, RowStart(base, j, cols), cols)
  }

  /** Appending a row seeded at the next row start keeps the rows seeded. */
  lemma RowsSeededExtend(w: Matrix, b: Vector, draws: seq<real>, base: int, cols: int, row: Vector, bias: real)
    requires RowsSeeded(w, b, draws, base, cols)
    requires RowSeeded(row, bias, draws, RowStart(base, |w|, cols), cols)
    ensures RowsSeeded(w + [row], b + [bias], draws, base, cols)
  {
    var w', b' := w + [row], b + [bias];
    forall j: nat | j < |w'|
      ensures RowSeeded(w'[j], b'[j], draws, RowStart(base, j, cols), cols)
    {
      if j < |w| {
        assert w'[j] == w[j] && b'[j] == b[j];
      }
    }
  }

  /** The parameters of one layer of `rows × cols` weights, drawn from `base`
      on: each row's `cols` weights, then that row's bias. */
  method SeedLayer(draws: seq<real>, base: int, rows: nat, cols: int) returns (w: Matrix, b: Vector)
    requires 0 <= base && 0 <= cols
    requires RowStart(base, rows, cols) <= |draws|
    ensures IsMatrix(w, rows, cols) && |b| == rows
    ensures forall j: nat | j < rows :: RowSeeded(w[j], b[j], draws, RowStart(base, j, cols), cols)
  {
    w, b := [], [];
    var pos := base;
    var j: nat := 0;
    while j < rows
      invariant j <= rows
      invariant pos == RowStart(base, j, cols)
      invariant |w| == j && |b| == j
      invariant RowsSeeded(w, b, draws, base, cols)
    {
      RowStartMonotone(base, j, j + 1, cols);
      RowStartMonotone(base, j + 1, rows, cols);
      var row := SeedRow(draws, pos, cols);
      var bias := BiasOf(draws[pos + cols]);
      RowsSeededExtend(w, b, draws, base, cols, row, bias);
      w, b := w + [row], b + [bias];
      pos := pos + cols + 1;
      j := j + 1;
    }
  }

  /** Layer `l` has `rows × cols` weights and `rows` biases, and row j of it
      is seeded from the draws at `RowStart(base, j, cols)` on. */
  predicate LayerSeeded(l: Layer, draws: seq<real>, base: int, rows: int, cols: int) {
    && LayerShaped(l, rows, cols)
    && forall j: nat | j < rows :: RowSeeded(l.weights[j], l.biases[j], draws, RowStart(base, j, cols), cols)
  }

  /** `layer` is layer i (i >= 1) of a network of widths `sizes` seeded from
      `draws`: its draws start at `Offset(sizes, i)`. */
  predicate LayerSeededAt(sizes: seq<int>, draws: seq<real>, i: nat, layer: Layer)
    requires 1 <= i < |sizes|
    requires forall l | 0 <= l < |sizes| :: sizes[l] >= 1
  {
    LayerSeeded(layer, draws, Offset(sizes, i), sizes[i], sizes[i - 1])
  }

  /** `net` has the widths `sizes` and learning rate `rate`, and every
      parameter is the scaled draw of `draws` at the position the seeding
      order gives it: layer i's draws start at `Offset(sizes, i)`. */
  predicate SeededFrom(sizes: seq<int>, rate: real, draws: seq<real>, net: Network) {
    && Shaped(net, sizes)
    && net.rate == rate
    && forall i | 1 <= i < |sizes| :: LayerSeededAt(sizes, draws, i, net.layers[i])
  }

  /** Layer i of a network of widths `sizes`, seeded from its share of the
      draws, which starts at `Offset(sizes, i)`. */
  method SeedLayerAt(sizes: seq<int>, draws: seq<real>, i: nat) returns (layer: Layer)
    requires 1 <= i < |sizes|
    requires forall l | 0 <= l < |sizes| :: sizes[l] >= 1
    requires |draws| >= DrawCount(sizes)
    ensures LayerSeededAt(sizes, draws, i, layer)
  {
    OffsetMonotone(sizes, 1, i);
    OffsetMonotone(sizes, i + 1, |sizes|);
    var w, b := SeedLayer(draws, Offset(sizes, i), sizes[i], sizes[i - 1]);
    layer := Dense(w, b, sizes[i]);
  }

  /** Models `seed_network`: fills every weight and bias of each dense layer
      from the draw stream, which stands for the seeded uniform generator.
      The loops consume draws in the order of the source; the contract says
      which draw each parameter received. */
  method SeedNetwork(net: Network, draws: seq<real>) returns (net': Network)
    requires WellFormed(net)
    requires |draws| >= DrawCount(Sizes(net))
    ensures SeededFrom(Sizes(net), net.rate, draws, net')
  {
    var layers := SeedLayers(Sizes(net), draws, net.layers);
    net' := Network(layers, net.rate, net.numLayers);
    SeededLayersMeetSpec(Sizes(net), net.rate, draws, layers);
  }

  /** Layers 1 .. |prefix|-1 of `prefix` are seeded from their shares of the draws. */
  predicate SeededPrefix(sizes: seq<int>, draws: seq<real>, prefix: seq<Layer>)
    requires |prefix| <= |sizes|
    requires forall l | 0 <= l < |sizes| :: sizes[l] >= 1
  {
    forall l | 1 <= l < |prefix| :: LayerSeededAt(sizes, draws, l, prefix[l])
  }

  /** Appending the seeded layer |prefix| keeps the prefix seeded. */
  lemma SeededPrefixExtend(sizes: seq<int>, draws: seq<real>, prefix: seq<Layer>, layer: Layer)
    requires 1 <= |prefix| < |sizes|
    requires forall l | 0 <= l < |sizes| :: sizes[l] >= 1
    requires SeededPrefix(sizes, draws, prefix)
    requires LayerSeededAt(sizes, draws, |prefix|, layer)
    ensures SeededPrefix(sizes, draws, prefix + [layer])
  {
    var p := prefix + [layer];
    forall l | 1 <= l < |p|
      ensures LayerSeededAt(sizes, draws, l, p[l])
    {
      if l < |prefix| {
        assert p[l] == prefix[l];
      }
    }
  }

  /** One pass of the outer loop of `seed_network`: the next layer is seeded
      from its share of the draws and appended. */
  method SeedNextLayer(sizes: seq<int>, draws: seq<real>, prefix: seq<Layer>) returns (prefix': seq<Layer>)
    requires 1 <= |prefix| < |sizes|
    requires forall l | 0 <= l < |sizes| :: sizes[l] >= 1
    requires |draws| >= DrawCount(sizes)
    requires SeededPrefix(sizes, draws, prefix)
    ensures |prefix'| == |prefix| + 1 && prefix'[0] == prefix[0]
    ensures SeededPrefix(sizes, draws, prefix')
  {
    var layer := SeedLayerAt(sizes, draws, |prefix|);
    SeededPrefixExtend(sizes, draws, prefix, layer);
    prefix' := prefix + [layer];
  }

  /** The loops of `seed_network` over the layers: layer 0 is kept as it is
      and every later layer is replaced by its seeded form. */
  method SeedLayers(sizes: seq<int>, draws: seq<real>, layers: seq<Layer>) returns (layers': seq<Layer>)
    requires |sizes| >= 2 && |layers| == |sizes|
    requires forall l | 0 <= l < |sizes| :: sizes[l] >= 1
    requires |draws| >= DrawCount(sizes)
    ensures |layers'| == |layers| && layers'[0] == layers[0]
    ensures forall l | 1 <= l < |sizes| :: LayerSeededAt(sizes, draws, l, layers'[l])
  {
    layers' := [layers[0]];
    while |layers'| < |sizes|
      invariant 1 <= |layers'| <= |sizes| && layers'[0] == layers[0]
      invariant SeededPrefix(sizes, draws, layers')
    {
      layers' := SeedNextLayer(sizes, draws, layers');
    }
  }

  /** Seeded dense layers on top of an input placeholder make a network
      seeded from `draws`. */
  lemma SeededLayersMeetSpec(sizes: seq<int>, rate: real, draws: seq<real>, layers: seq<Layer>)
    requires |layers| == |sizes| >= 2 && layers[0].InputLayer?
    requires forall l | 0 <= l < |sizes| :: sizes[l] >= 1
    requires forall l | 1 <= l < |sizes| :: LayerSeededAt(sizes, draws, l, layers[l])
    ensures SeededFrom(sizes, rate, draws, Network(layers, rate, |layers|))
  {
    forall l | 1 <= l < |sizes|
      ensures LayerShaped(layers[l], sizes[l], sizes[l - 1])
    {
      assert LayerSeededAt(sizes, draws, l, layers[l]);
    }
  }

  /** The draw order in closed form: weight (j, k) of layer i is made from
      draw `Offset(sizes, i) + j * (sizes[i-1] + 1) + k`. */
  lemma SeededWeightDraw(sizes: seq<int>, rate: real, draws: seq<real>, net: Network, i: nat, j: nat, k: nat)
    requires SeededFrom(sizes, rate, draws, net)
    requires 1 <= i < |sizes| && j < sizes[i] && k < sizes[i - 1]
    ensures LayerShaped(net.layers[i], sizes[i], sizes[i - 1])
    ensures 0 <= Offset(sizes, i) + j * (sizes[i - 1] + 1) + k < |draws|
    ensures net.layers[i].weights[j][k] == WeightOf(draws[Offset(sizes, i) + j * (sizes[i - 1] + 1) + k])
  {
    assert LayerSeeded(net.layers[i], draws, Offset(sizes, i), sizes[i], sizes[i - 1]);
    RowStartClosedForm(Offset(sizes, i), j, sizes[i - 1]);
    assert RowSeeded(net.layers[i].weights[j], net.layers[i].biases[j], draws,
                     Offset(sizes, i) + j * (sizes[i - 1] + 1), sizes[i - 1]);
  }

  /** Bias j of layer i is made from the draw right after row j's weights,
      `Offset(sizes, i) + j * (sizes[i-1] + 1) + sizes[i-1]`. */
  lemma SeededBiasDraw(sizes: seq<int>, rate: real, draws: seq<real>, net: Network, i: nat, j: nat)
    requires SeededFrom(sizes, rate, draws, net)
    requires 1 <= i < |sizes| && j < sizes[i]
    ensures LayerShaped(net.layers[i], sizes[i], sizes[i - 1])
    ensures 0 <= Offset(sizes, i) + j * (sizes[i - 1] + 1) + sizes[i - 1] < |draws|
    ensures net.layers[i].biases[j] == BiasOf(draws[Offset(sizes, i) + j * (sizes[i - 1] + 1) + sizes[i - 1]])
  {
    assert LayerSeeded(net.layers[i], draws, Offset(sizes, i), sizes[i], sizes[i - 1]);
    RowStartClosedForm(Offset(sizes, i), j, sizes[i - 1]);
    assert RowSeeded(net.layers[i].weights[j], net.layers[i].biases[j], draws,
                     Offset(sizes, i) + j * (sizes[i - 1] + 1), sizes[i - 1]);
  }

  /** A matrix of the given shape; its entries stand for the uninitialised
      memory of a fresh allocation and are all overwritten by seeding. */
  function Blank(rows: nat, cols: nat): (m: Matrix)
    ensures IsMatrix(m, rows, cols)
  {
    seq(rows, _ => seq(cols, _ => 0.0))
  }

  /** The allocation loop of `init_network`: layer i (i >= 1) gets a
      `sizes[i] × sizes[i-1]` weight matrix, `sizes[i]` biases and
      `num_neurons = sizes[i]`; layer 0 gets nothing. */
  method AllocateNetwork(rate: real, sizes: seq<int>) returns (net: Network)
    requires |sizes| >= 2
    requires forall i | 0 <= i < |sizes| :: sizes[i] >= 1
    ensures Shaped(net, sizes) && net.rate == rate
  {
    var ls: seq<Layer> := [InputLayer];
    var i := 1;
    while i < |sizes|
      invariant 1 <= i <= |sizes| && |ls| == i && ls[0] == InputLayer
      invariant forall l | 1 <= l < i :: LayerShaped(ls[l], sizes[l], sizes[l - 1])
    {
      ls := ls + [Dense(Blank(sizes[i], sizes[i - 1]), seq(sizes[i], _ => 0.0), sizes[i])];
      i := i + 1;
    }
    net := Network(ls, rate, |sizes|);
  }

  /** Models `init_network`: builds `layers` layers whose widths are the first
      `layers` entries of `layerSz`, then seeds them. `batchSz` is accepted
      and ignored, as in the source. */
  method InitNetwork(layers: int, rate: real, layerSz: seq<int>, batchSz: int, draws: seq<real>)
    returns (net: Network)
    requires 2 <= layers <= |layerSz|
    requires forall i | 0 <= i < layers :: layerSz[i] >= 1
    requires |draws| >= DrawCount(layerSz[..layers])
    ensures WellFormed(net) && Sizes(net) == layerSz[..layers]
    ensures net.numLayers == layers && net.rate == rate
    ensures forall i | 1 <= i < layers :: LayerShaped(net.layers[i], layerSz[i], layerSz[i - 1])
    ensures SeededFrom(layerSz[..layers], rate, draws, net)
  {
    var sizes := layerSz[..layers];
    var blank := AllocateNetwork(rate, sizes);
    ShapedIsWellFormed(blank, sizes);
    net := SeedNetwork(blank, draws);
    ShapedIsWellFormed(net, sizes);
    forall i | 1 <= i < layers ensures LayerShaped(net.layers[i], layerSz[i], layerSz[i - 1]) {
      assert sizes[i] == layerSz[i] && sizes[i - 1] == layerSz[i - 1];
    }
  }

  /** Every seeded weight lies in [-1/4, 1/4) and every seeded bias in
      [-5/12, 5/12) when the draws lie in [0, 1), the range of the uniform
      generator. */
  lemma SeededRanges(sizes: seq<int>, rate: real, draws: seq<real>, net: Network)
    requires SeededFrom(sizes, rate, draws, net)
    requires forall n | 0 <= n < |draws| :: 0.0 <= draws[n] < 1.0
    ensures forall i, j, k | 1 <= i < |sizes| && 0 <= j < sizes[i] && 0 <= k < sizes[i - 1] ::
      LayerShaped(net.layers[i], sizes[i], sizes[i - 1]) &&
      -0.25 <= net.layers[i].weights[j][k] < 0.25
    ensures forall i, j | 1 <= i < |sizes| && 0 <= j < sizes[i] ::
      LayerShaped(net.layers[i], sizes[i], sizes[i - 1]) &&
      -5.0 / 12.0 <= net.layers[i].biases[j] < 5.0 / 12.0
  {
    forall i, j: nat | 1 <= i < |sizes| && j < sizes[i]
      ensures LayerShaped(net.layers[i], sizes[i], sizes[i - 1])
      ensures RowSeeded(net.layers[i].weights[j], net.layers[i].biases[j], draws,
                        RowStart(Offset(sizes, i), j, sizes[i - 1]), sizes[i - 1])
    {
      assert LayerSeeded(net.layers[i], draws, Offset(sizes, i), sizes[i], sizes[i - 1]);
    }
  }

  /** Seeding is a function of the widths, the rate and the draws: two
      networks seeded from the same draws are the same network, whatever
      their parameters held before. */
  lemma SeededFromUnique(sizes: seq<int>, rate: real, draws: seq<real>, net: Network, net': Network)
    requires SeededFrom(sizes, rate, draws, net) && SeededFrom(sizes, rate, draws, net')
    ensures net == net'
  {
    forall i | 0 <= i < |sizes| ensures net.layers[i] == net'.layers[i] {
      if i > 0 {
        var l, l' := net.layers[i], net'.layers[i];
        assert LayerSeeded(l, draws, Offset(sizes, i), sizes[i], sizes[i - 1]);
        assert LayerSeeded(l', draws, Offset(sizes, i), sizes[i], sizes[i - 1]);
        forall j: nat | j < sizes[i] ensures l.weights[j] == l'.weights[j] && l.biases[j] == l'.biases[j] {
          var start := RowStart(Offset(sizes, i), j, sizes[i - 1]);
          assert RowSeeded(l.weights[j], l.biases[j], draws, start, sizes[i - 1]);
          assert RowSeeded(l'.weights[j], l'.biases[j], draws, start, sizes[i - 1]);
        }
        assert l.weights == l'.weights && l.biases == l'.biases;
      }
    }
  }
}
