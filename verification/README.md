# Backprop network engine in Dafny

This project models the numeric engine of a small C neural-network library
(`Network.c`). The engine is a fully connected multilayer perceptron with
sigmoid units. It is trained by mini-batch gradient descent with
backpropagation, and it classifies a feature vector by the index of its
largest output. The model works on exact `real` arithmetic over matrices
written as sequences of rows (`seq<seq<real>>`). Batches are matrices with
one column per example.

Modules, one per file, following the source's structure:

- `Matrices` (matrices.dfy) holds the shape predicates and the sums and inner
  products. `Gemm` stands in for the BLAS `sgemm` calls, with its
  transpose flags.
- `Net` (net.dfy) holds the `Layer` and `Network` datatypes. It models
  `init_network` and `seed_network`. The random generator is replaced by a
  sequence of uniform draws, and the contracts say which draw each weight and
  bias receives.
- `Kernels` (kernels.dfy) models `applySigmoid`, the bias broadcast,
  `getOutputError`, `getPreviousError`, `getBiasError` and
  `getWeightsError`. Each loop mirrors the C loop. Each contract gives the
  closed index formula.
- `Forward` (forward.dfy) models `feedforward`, in two versions. One is the
  intended pass, `z = w * a + b` as the comment at Network.c:105 puts it
  (`W_i · a_{i-1} + b_i`, then σ). The other is the loop exactly as written,
  which differs (see Findings).
- `Backprop` (backprop.dfy) models `backprop` and `train`. The backward
  sweep of one call is characterised layer by layer by `SweepSpec`, for
  whatever activations the forward pass cached. A training run is a trace
  of such calls following a batch schedule.
- `Inference` (inference.dfy) models `getDigit`.

The sigmoid is a parameter `sigma: real -> real` of every member that uses
it. The model requires nothing of it beyond being a function. Derivatives are
written in terms of the activation, `a · (1 - a)`, as the source does.

The forward pass as written disagrees with the comment at Network.c:105
that states its intent, so it is modelled both ways. Everything downstream
of it comes in both versions too: `Backprop.BackpropAsWritten` and
`Inference.GetDigitAsWritten` run the loop as written, and
`Backprop.Backprop` and `Inference.GetDigit` run the intended pass.
`Backprop.Train` takes the pass as a parameter, and its `AsWritten` value
is the program's. Both versions share the same backward sweep and the same
output scan. The facts about the sweep (`RateZeroChangesNothing`,
`PerfectPredictionChangesNothing`) hold for either pass.

## Model

| member | source | states |
|---|---|---|
| Net.AllocateNetwork | Network.c:38-45 | Layer i >= 1 gets a `sizes[i] × sizes[i-1]` weight matrix, `sizes[i]` biases and `num_neurons = sizes[i]`; layer 0 gets no parameters; so consecutive layers fit together |
| Net.InitNetwork | Network.c:22-51 | The network has `layers` layers whose widths are the first `layers` entries of `layerSz`, keeps the rate, and is seeded from the draws in the source's order |
| Net.SeedRow | Network.c:59-62 | A weight row holds `cols` consecutive draws from its start position, each mapped by `(u - 0.5) / 2` |
| Net.SeedLayer | Network.c:58-65 | Row j of a layer takes its draws from position `RowStart(base, j)`: its weights, column by column, then one draw for its bias |
| Net.SeedLayers | Network.c:57-67 | Layer 0 is kept, the layer count is kept, and every layer i >= 1 is seeded from its share of the draws, starting at `Offset(sizes, i)` |
| Net.SeedNetwork | Network.c:52-68 | Every weight and bias of every dense layer is the scaled draw at the position the layer-row-column order assigns, and the shapes and rate are kept |
| Net.RowStartClosedForm | Network.c:57-65 | The position where row j starts is `base + j · (cols + 1)`: each row consumes its weights plus one bias |
| Net.SeededWeightDraw | Network.c:57-62 | Weight (j, k) of layer i comes from draw `Offset(i) + j · (cols + 1) + k`, and that draw exists |
| Net.SeededBiasDraw | Network.c:57-65 | Bias j of layer i comes from draw `Offset(i) + j · (cols + 1) + cols`, right after row j's weights |
| Net.SeededRanges | Network.c:57-65 | With draws in [0, 1), every weight is in [-1/4, 1/4) and every bias in [-5/12, 5/12) |
| Net.SeededFromUnique | Network.c:52-68 | Seeding depends only on the widths, the rate and the draws: two networks seeded from the same draws are equal, whatever their earlier contents |
| Kernels.ApplySigmoid | Network.c:70-79 | The result has the input's shape and holds σ of each entry |
| Kernels.AddBiasToColumns | Network.c:108-111 | `b[i]` is added to every entry of row i, that is, the bias vector is added to every batch column |
| Matrices.Gemm | Network.c:107 | The product `op(a) · op(b)` has shape `rows(op a) × cols(op b)`, and entry (i, j) is the inner product of row i of op(a) with column j of op(b), transposes taken as the flags say; it stands for this `sgemm` call and the ones at Network.c:140 (`wᵀ · err`) and Network.c:165 (`err · aᵀ`) |
| Forward.LayerForward | Network.c:104-115 | One layer gives `z = W · prev + b` (bias per row, every column) and `a = σ(z)`, so `a[j][c] = σ(Σ_k W[j][k] · prev[k][c] + b[j])` |
| Forward.Feedforward | Network.c:97-119 | The activations satisfy `IsForward`: layer 0's is the input, and layer i's is `rows(W_i) × cols(input)` with `a_i[j][c] = σ(Σ_k W_i[j][k] · a_{i-1}[k][c] + b_i[j])` |
| Forward.FeedforwardAsWritten | Network.c:97-119 | As the loop is written, layer i multiplies the previous layer's pre-activation `z_{i-1}` (the input for i = 1), and caches `σ(z_i)` |
| Forward.PassesDiffer | Network.c:112-115 | For every one-to-one σ with σ(1) ≠ 1, the two passes give different outputs on the three-layer unit chain with input [[1]] |
| Forward.ForwardBugWitness | Network.c:112-115 | On the three-layer unit chain with input [[1]], the as-written pass outputs σ(1) and the intended pass outputs σ(σ(1)) |
| Forward.AsWrittenAgreesOnFirstLayer | Network.c:99-115 | Both passes agree on layers 0 and 1, and entirely on a network with one dense layer |
| Forward.ZeroParametersGiveSigmaZero | Network.c:99-116 | With all weights and biases zero, every activation past the input is σ(0), whatever the input |
| Forward.ZeroParametersGiveSigmaZeroAsWritten | Network.c:99-116 | The same for the loop as written: with all weights and biases zero, every cached activation past the input is σ(0), whatever the input |
| Kernels.GetOutputError | Network.c:121-134 | The output error has the activation's shape, with entry `(a - y) · a · (1 - a)`; the target is read only at the activation's indices |
| Kernels.OutputErrorZeroIff | Network.c:126-131 | An output error entry is zero exactly when `a = y` or `a` is 0 or 1; in particular a perfect prediction gives zero error |
| Kernels.TimesDerivative | Network.c:141-146 | Entry (i, j) of the product is multiplied by `a[i][j] · (1 - a[i][j])` |
| Kernels.GetPreviousError | Network.c:135-149 | The propagated error has the shape of `a`, with entry `(Σ_r W[r][i] · err[r][j]) · a[i][j] · (1 - a[i][j])` |
| Kernels.GetBiasError | Network.c:150-161 | Entry i is the sum of row i of the error over the batch, and there are `rows(error)` entries |
| Kernels.GetWeightsError | Network.c:162-167 | The weight gradient is `rows(err) × rows(a)`, the weight matrix's shape, with entry (j, k) `Σ_c err[j][c] · a[k][c]` |
| Backprop.DescendWeights | Network.c:194-202 | `W' = W - step · err · aᵀ`, entry by entry |
| Backprop.DescendBiases | Network.c:190-201 | `b' = b - step · (row sums of err)`, entry by entry |
| Backprop.BackwardStep | Network.c:189-210 | One layer of the sweep: the descent step on both parameters, then the error for the layer below, computed from the updated weights |
| Backprop.Sweep | Network.c:177-211 | Given the cached activations, the result meets `SweepSpec`: the output error against `y`; for each layer i, `W_i' = W_i - (rate / batch) · δ_i · a_{i-1}ᵀ` and `b_i' = b_i - (rate / batch) · rowsum(δ_i)`; `δ_{i-1}` propagated through the UPDATED `W_i'`; widths, layer count, rate and layer 0 unchanged |
| Backprop.BackpropAsWritten | Network.c:168-214 | The caches hold the forward pass as written (`ForwardAsWritten`, each layer fed the previous pre-activation), and the network is updated from them as `SweepSpec` states |
| Backprop.Backprop | Network.c:168-214 | The same call with the intended forward pass: the caches satisfy `IsForward`, and the network is updated from them as `SweepSpec` states |
| Backprop.NoGradientNoChange | Network.c:198-202 | A zero step size, or an all-zero error, leaves a layer's weights and biases unchanged |
| Backprop.RateZeroChangesNothing | Network.c:198-202 | With learning rate 0, the sweep returns the network unchanged, whatever the batch and whichever forward pass filled the caches |
| Backprop.PerfectPredictionZeroDeltas | Network.c:177-210 | When the cached output equals the target, every layer's error is all zero, down to layer 0 |
| Backprop.PerfectPredictionChangesNothing | Network.c:177-211 | A batch whose cached output already equals the target leaves the network unchanged, for either forward pass |
| Backprop.Schedule | Network.c:223-227 | Every step of the visit order names a batch below `batches` |
| Backprop.ScheduleLength | Network.c:223-227 | The visit order has `epochs × batches` steps, and none when `epochs` is not positive, since the outer loop then does not run |
| Backprop.ScheduleEntry | Network.c:223-227 | Step `e · batches + j` of the schedule trains on batch j: epochs in order, batches in order within each |
| Backprop.Epoch | Network.c:225-227 | One epoch applies `backprop` to batches 0 .. batches-1 in turn; the trace grows by one step per batch; the widths and rate are kept |
| Backprop.Train | Network.c:221-229 | The trace starts at the given network, ends at the result, and each step is one `backprop` call, with the chosen forward pass, on the batch the schedule names; the widths and rate never change |
| Backprop.RateZeroTrainingChangesNothing | Network.c:221-229 | Training at learning rate 0 leaves every network along the trace equal to the first, for either forward pass |
| Inference.AsColumn | Network.c:241-244 | The example becomes a one-column batch whose single column is the example |
| Inference.FirstMaxIndex | Network.c:246-252 | The scan returns the first index of a largest entry of the output column: in range, at least every entry, and strictly greater than every entry before it |
| Inference.GetDigitAsWritten | Network.c:239-255 | The caches hold the forward pass as written on the example, and the result is the first index of a largest entry of its output column |
| Inference.GetDigit | Network.c:239-255 | The same with the intended forward pass: the caches satisfy `IsForward` on the example, and the result is the first maximum of the output column |
| Inference.FirstMaxUnique | Network.c:247-252 | At most one index satisfies the first-maximum property, so ties go to the earliest index |
| Inference.FirstMaxExample | Network.c:247-252 | The output column [0.1, 0.9, 0.3] is classified as 1, and as nothing else |

## Left out

- Floating point: the source computes in 32-bit floats with `exp`. The model uses exact reals and leaves rounding and summation order out.
- The sigmoid's body (`1 / (1 + e^-x)`, Network.c:12) is not modelled. It is the parameter `sigma`, because `exp` has no exact real counterpart here.
- The GSL MT19937 generator and its fixed seed 89712349 (Network.c:54-55) are a foreign library. The model takes the stream of uniform draws as an input sequence, so the determinism of the seed appears as `Net.SeededFromUnique`.
- Net.InitNetwork: requires `2 <= layers <= |layerSz|` and positive widths. With one layer, `feedforward` frees the caller's input batch, and GSL refuses zero-sized matrices.
- Net.InitNetwork: the `batchSz` argument is accepted and ignored, as in the source.
- Memory management is left out: allocation, the NULL returns on allocation failure (Network.c:31-32, 43-44), `freeOutputs` and the release of the caches at the end of `backprop`. The activation caches are returned values (results of the forward-pass, `backprop` and `getDigit` methods) instead of layer fields.
- `deleteNetwork` is left out. It frees layer 0's parameters, which were never set, and it is only memory release.
- `printMatrix`, `printVector`, the `DEBUG` prints and the epoch `printf` in `train` are output only.
- `sgemm` is modelled with scale factor 1 and zero accumulation, the only values the source passes.
- Kernels.GetOutputError: requires the target to cover the activation's rows and columns, since the source reads it at those indices and GSL would abort otherwise.
- Backprop.Train: requires every batch it visits to fit the network's widths. The caller in `Runner.c` is not part of this model; it passes the batch size where the batch count is expected.

## Findings

| source | as written | input that shows it | evidently intended | confidence | as-written member | corrected member |
|---|---|---|---|---|---|---|
| Network.c:112-115 | `prev = z` then `curr->a = applySigmoid(prev)`: the next layer's product `W_{i+1} · prev` uses the pre-activation `z_i`, so no sigmoid sits between hidden layers | the three-layer chain of single units with weight 1 and bias 0, input [[1]]: the output is σ(1), which differs from the intended σ(σ(1)) for every one-to-one σ with σ(1) ≠ 1, the logistic function among them | `W_{i+1} · a_i` with `a_i = σ(z_i)`, as the comment `z = w * a + b` at line 105 says, giving σ(σ(1)) | high, not executed | Forward.FeedforwardAsWritten, Forward.ForwardBugWitness, Forward.PassesDiffer | Forward.Feedforward |
