# A verified model of the `Net` class of `mnist/FullConnected/net.py`

`Net` is a small fully connected feed-forward network trained by mini-batch
stochastic gradient descent on MNIST digit images. This project models its
structural, discrete core in Dafny over exact `real` arithmetic:

- the parameter shape schedule: one `shape[i+1]` by `shape[i]` weight matrix
  and one bias vector of length `shape[i+1]` per layer transition;
- the one-hot label encoding (`_y2i`, `_labels_2_activations`);
- the forward pass as a builder of the index-aligned `activations` / `zs`
  trace, with the empty placeholder `z` for the input layer;
- back-propagation: the errors built by prepending while walking the weights
  and zs in reverse, the weight gradients as outer products and the bias
  gradients as the errors;
- the batch partition of the shuffled training pairs;
- the averaged SGD update and the training fold over batches and epochs;
- the quadratic cost, argmax prediction and the cost / accuracy summary of
  `evaluate`.

Layout:

- `wrappers.dfy` (`Wrappers`): `Option`; `None` stands for a call that raises.
- `seqs.dfy` (`Seqs`): flattening (`Concat`) and the two reversed slices of
  the backward walk.
- `linalg.dfy` (`LinAlg`): vectors and matrices over `real` with the NumPy
  operations used (element-wise arithmetic, `dot`, transpose, outer product,
  sums and means).
- `labels.dfy` (`Labels`): Python index resolution, eye vectors, argmax and
  the accuracy count.
- `batching.dfy` (`Batching`): the batch partition for every integer batch
  size, and the partition as line 108 is written (see Findings).
- `network.dfy` (`Network`): the value-level definitions used as
  specifications: shapes, initial parameters, the forward trace, the errors
  and gradients, the update, `RunBatches` / `RunEpochs`, cost and evaluation.
- `net.dfy` (`NeuralNet`): the class `Net`. Its fields `weights`, `bias`,
  `activations` and `zs` are updated in place. The loops of `_feed_forward`,
  `_back_propagate`, `SGD`, `evaluate` and `_y2i`'s single array write are
  imperative methods, each proved against the definitions in `Network`.

The activation function, its `prime` and the normalizer are function-typed
parameters of the class. The model assumes only that they preserve vector
length.

`Net.SGD` takes the already shuffled pairs as an input. It requires that
input to be a permutation of `zip(images, ys)`. The random initial draws are
the inputs `wSample` and `bSample` of the constructor.

Where the code and the written description of the program differ, the model
follows the code:

- Construction does not reject zero layer sizes: a layer of zero units gives
  weight matrices and a bias vector with no entries along that dimension.
- `zip(images, ys)` silently drops unpaired items. It raises no mismatch
  error.
- `_labels_2_activations` raises on an empty label list, because NumPy's
  `apply_along_axis` refuses an axis with no iterations.
- Negative labels in [-10, -1] are accepted, because Python's negative
  indexing resolves them from the end.
- The accuracy divides by the number of zipped pairs, but the cost divides
  by the number of labels.

## Model

| member | source | states |
|---|---|---|
| `Network.InitParams` | mnist/FullConnected/net.py:32-33 | exactly one weight matrix and one bias vector per transition; weight i is `shape[i+1]` by `shape[i]` and bias i has length `shape[i+1]`; each entry is the corresponding draw |
| `NeuralNet.Net.constructor` | mnist/FullConnected/net.py:27-33 | the layer sizes default to `[784, 16, 10]`; the normalizer and activation are stored; the parameters are `InitParams` of the sizes; the network is valid |
| `Labels.PyIndex` | mnist/FullConnected/net.py:42 | index `i` into `n` entries resolves exactly when `-n <= i < n`, to `i` or `i + n`, below `n` |
| `NeuralNet.Net.Y2i` | mnist/FullConnected/net.py:36-43 | succeeds exactly when `y` is non-empty and `y[0]` is a valid index into ten entries; the result is the eye vector at the resolved index, and at `y[0]` itself for `y[0] >= 0` |
| `Labels.Eye` | mnist/FullConnected/net.py:41-42 | the eye vector at k has n entries, 1 at k and 0 at every other index |
| `Labels.OneHot` | mnist/FullConnected/net.py:41-43 | for `y` in [0, 9] the encoding has length 10, is 1 at `y` and 0 elsewhere, sums to 1, and no other label has the same encoding |
| `Labels.EyeSumsToOne` | mnist/FullConnected/net.py:41-43 | every eye vector sums to exactly 1 |
| `Labels.LabelsToActivations` | mnist/FullConnected/net.py:45-50 | succeeds exactly when the list is non-empty and every label is a valid index into ten entries; then row i is the eye vector of label i, in order |
| `Labels.LabelsRoundTrip` | mnist/FullConnected/net.py:50 | for labels in [0, 9] there is one row per label, in order, and argmax of each row gives its label back |
| `Network.Cost` | mnist/FullConnected/net.py:52-59 | `_cost(y, r)`, half the summed squared difference, is non-negative and is zero exactly when `r == y` |
| `Network.Forward` | mnist/FullConnected/net.py:68-76 | after k layers both lists have k + 1 entries; `acts[0]` is the input and `zs[0]` is empty; every later entry has its layer's width; each step has `z = W·a + b` and `a' = f(z)` |
| `Network.ForwardStep` | mnist/FullConnected/net.py:72-76 | one more loop iteration appends `W_k·a_k + b_k` to the zs and its image under `f` to the activations |
| `Seqs.Concat` | mnist/FullConnected/net.py:66 | row-major flattening of a list of rows, the `reshape` of an image; it has no contract of its own, and `Network.FullTrace` states that the flattened image heads the trace |
| `Network.FullTrace` | mnist/FullConnected/net.py:66-79 | the full trace has one activation and one z per layer; `acts[0]` is the normalized flattened image and `zs[0]` is empty |
| `Network.Output` | mnist/FullConnected/net.py:79 | the returned activation has the output width `shape[-1]` |
| `NeuralNet.Net.FeedForward` | mnist/FullConnected/net.py:61-79 | the fields `activations` and `zs` become the full forward trace; the result is `activations[-1]`, the network output; the parameters do not change |
| `Network.TopError` | mnist/FullConnected/net.py:83 | the output error has the output width |
| `Network.BackStep` | mnist/FullConnected/net.py:86 | `Wᵀ·e ⊙ f'(z)` has the width of the layer below |
| `Network.Delta` | mnist/FullConnected/net.py:83-87 | the error of transition k has length `shape[k+1]` |
| `Network.Errors` | mnist/FullConnected/net.py:84-87 | the errors of transitions k and above: one per transition, lowest first |
| `Network.ErrorsTop` | mnist/FullConnected/net.py:83-84 | the walk starts from the list holding only the top error |
| `Network.ErrorsStep` | mnist/FullConnected/net.py:85-87 | prepending `W_mᵀ·errors[0] ⊙ f'(zs[m])` to the errors from m on gives the errors from m - 1 on, and the shapes fit |
| `Seqs.FromLastDownToSecond` | mnist/FullConnected/net.py:85 | Python's `w[-1:0:-1]`: every entry but the first, last to first; its entries are stated by `Seqs.ReversedSlicesAlign` |
| `Seqs.FromPenultimateDownToSecond` | mnist/FullConnected/net.py:85 | Python's `zs[-2:0:-1]`: every entry but the first and last, last to first; its entries are stated by `Seqs.ReversedSlicesAlign` |
| `Seqs.ReversedSlicesAlign` | mnist/FullConnected/net.py:85 | `w[-1:0:-1]` and `zs[-2:0:-1]` both have `len(w) - 1` entries, and entry j of each belongs to layer `len(w) - 1 - j` |
| `Network.ReversedStep` | mnist/FullConnected/net.py:85-87 | pair j of the zip of `w[-1:0:-1]` and `zs[-2:0:-1]` is layer `n - 1 - j`'s weights and z, and prepending the error it yields to the errors from that layer on gives the errors one layer lower |
| `NeuralNet.Net.Backward` | mnist/FullConnected/net.py:83-87 | the loop over the zipped reversed slices, prepending each error, builds exactly `Errors(0)`, so `errors[k]` is the error of transition k, in forward order |
| `Network.Gradients` | mnist/FullConnected/net.py:88-89 | one gradient per transition, of the shape of its parameter; `dc_over_dw[k]` is the outer product of error k with `activations[k]` and `dc_over_db[k]` is error k |
| `Network.Backprop` | mnist/FullConnected/net.py:81-90 | the gradients of one sample have the shape of the parameters |
| `NeuralNet.Net.BackPropagate` | mnist/FullConnected/net.py:81-90 | leaves the full forward trace in the fields; returns exactly `Backprop` of the image and target; the parameters do not change |
| `Batching.StartIndices` | mnist/FullConnected/net.py:103 | `range(0, n, b)` has `ceil(n / b)` entries; entry k is `k * b` and lies below n |
| `Batching.SplitStarts` | mnist/FullConnected/net.py:103-106 | when b divides n, all of `range(0, n, b)` is kept and `last_batch` is None; otherwise the last start index is popped and `last_batch` is the non-empty slice from it to the end |
| `Batching.Slices` | mnist/FullConnected/net.py:107 | one slice `data[i:i+b]` per remaining start index, in order |
| `Batching.Batches` | mnist/FullConnected/net.py:103-109 | the intended partition: the slices of line 107 followed by `last_batch` whenever there is one; it has no contract of its own, and its properties are the lemmas below |
| `Batching.BatchCount` | mnist/FullConnected/net.py:103-109 | there are `ceil(n / b)` batches |
| `Batching.FullBatchAt` | mnist/FullConnected/net.py:107 | every batch before the remainder is the full slice `data[k*b : k*b + b]` |
| `Batching.RemainderBatchAt` | mnist/FullConnected/net.py:105-106 | when b does not divide n, batch `n / b` is the remainder `data[(n/b)*b:]` |
| `Batching.BatchAt` | mnist/FullConnected/net.py:103-109 | batch k is `data[k*b : min(k*b + b, n)]` and starts inside the data |
| `Batching.ConcatPrefix` | mnist/FullConnected/net.py:103-109 | the first m batches concatenate to the first `min(m*b, n)` items |
| `Batching.BatchesConcat` | mnist/FullConnected/net.py:103-109 | the batches concatenate, in order, to the input exactly: nothing is dropped or repeated |
| `Batching.BatchSizes` | mnist/FullConnected/net.py:103-109 | every batch is non-empty with at most b items, and all but the last hold exactly b |
| `Batching.BatchMembers` | mnist/FullConnected/net.py:103-109 | every item of every batch is an item of the input |
| `Batching.LastBatch` | mnist/FullConnected/net.py:105-109 | the last batch holds `n mod b` items when that is nonzero, and b items otherwise |
| `Batching.BatchesEmpty` | mnist/FullConnected/net.py:103-109 | there are no batches exactly when there are no pairs |
| `Batching.OneBatch` | mnist/FullConnected/net.py:103-109 | a batch size equal to n gives the single batch `[data]` |
| `Batching.SingletonBatches` | mnist/FullConnected/net.py:103-109 | a batch size of 1 gives n batches `[data[k]]`, in order |
| `Batching.MakeBatches` | mnist/FullConnected/net.py:103-109 | a positive size gives the partition; 0 raises in `range`; a negative size gives no start indices, so `pop()` raises unless the Python remainder is 0, and then there are no batches |
| `Batching.PairRowsTruth` | mnist/FullConnected/net.py:100-108 | the truth value of a slice of the two-column pair array: false when empty, a raise (None) otherwise, since it then holds at least two entries |
| `Batching.LastBatchTruth` | mnist/FullConnected/net.py:108 | `if last_batch:` is false for None and is the array truth test for a slice |
| `Batching.BatchesAsWritten` | mnist/FullConnected/net.py:103-109 | lines 103-109 as written: the same start indices, `last_batch` and slices as `Batches`, with the remainder appended only after the truth test of line 108, which raises on any slice; its properties are the two lemmas below |
| `Batching.AsWrittenRaisesOnRemainder` | mnist/FullConnected/net.py:108 | as written, three items in batches of two raise, where the intended partition is `[[1, 2], [3]]` |
| `Batching.AsWrittenAgreesWhenDivisible` | mnist/FullConnected/net.py:103-109 | derived from the pieces: as written, batching succeeds exactly when b divides n, since otherwise `last_batch` is a non-empty slice whose truth test raises, and on success it equals the intended partition |
| `Network.Pairs` | mnist/FullConnected/net.py:100 | `zip(images, ys)` has `min(len(images), len(ys))` pairs, pair i being `(images[i], ys[i])` |
| `Network.BatchesTrainable` | mnist/FullConnected/net.py:103-109 | batching valid samples gives non-empty batches of valid samples |
| `Network.LayerWeights` | mnist/FullConnected/net.py:122-125 | layer i of `dws`: the i-th weight gradient of each sample, in order, each of layer i's shape |
| `Network.LayerBias` | mnist/FullConnected/net.py:123-126 | layer i of `dbs`: the i-th bias gradient of each sample, in order, each of layer i's length |
| `Network.MoveWeights` | mnist/FullConnected/net.py:125 | entry (r, c) becomes `w[r][c] - η·mean(gs)[r][c]`, and the shape is kept |
| `Network.MoveBias` | mnist/FullConnected/net.py:126 | entry r becomes `b[r] - η·mean(gs)[r]`, and the length is kept |
| `Network.NewWeights` | mnist/FullConnected/net.py:125 | each weight matrix is moved against the mean of its own layer's gradients |
| `Network.NewBias` | mnist/FullConnected/net.py:126 | each bias vector is moved against the mean of its own layer's gradients |
| `Network.UpdateStep` | mnist/FullConnected/net.py:125-126 | the update keeps every parameter shape |
| `Network.UpdateSingleton` | mnist/FullConnected/net.py:125-126 | with a batch of one the update is exactly `W - η·dW` and `b - η·db` |
| `Network.UpdateZeroRate` | mnist/FullConnected/net.py:125-126 | a learning rate of zero leaves every parameter unchanged |
| `Network.Target` | mnist/FullConnected/net.py:119 | the target `_y2i([y])` has ten entries |
| `Network.BatchGradients` | mnist/FullConnected/net.py:118-121 | one gradient per sample, in order, each the back-propagation of that sample at the same parameters |
| `Network.BatchGradientsSnoc` | mnist/FullConnected/net.py:118-121 | one more sample appends its own gradient and changes none of the earlier ones |
| `NeuralNet.Net.BatchBackPropagate` | mnist/FullConnected/net.py:116-123 | the gradients collected by the loop are exactly `BatchGradients` at the parameters before the batch, which do not change; the fields hold the forward trace of the batch's last image, or are untouched for an empty batch |
| `Network.BatchStep` | mnist/FullConnected/net.py:116-126 | one batch step keeps every parameter shape |
| `NeuralNet.Net.Update` | mnist/FullConnected/net.py:125-126 | the parameters become `UpdateStep` of the old ones and the batch's gradients; the trace fields are outside its frame |
| `NeuralNet.Net.TrainBatch` | mnist/FullConnected/net.py:116-126 | the new parameters are the averaged update of the batch's gradients, all taken at the old parameters; the fields hold the forward trace of the batch's last image at the old parameters |
| `Network.RunBatches` | mnist/FullConnected/net.py:115-126 | one step per batch, in order, keeping every parameter shape |
| `Network.RunBatchesSnoc` | mnist/FullConnected/net.py:115-126 | running one more batch is one more step after the batches before it |
| `Network.RunBatchesAppend` | mnist/FullConnected/net.py:114-126 | running `xs + ys` is running `xs`, then `ys` from where `xs` ended |
| `Network.Schedule` | mnist/FullConnected/net.py:100-115 | the batches visited in `epochs` epochs: `epochs * len(batches)` of them |
| `Network.ScheduleTrainable` | mnist/FullConnected/net.py:100-115 | repeating trainable batches keeps them trainable |
| `Network.RunEpochs` | mnist/FullConnected/net.py:114-126 | `epochs` passes over the same batches, keeping every parameter shape |
| `Network.RunEpochsSchedule` | mnist/FullConnected/net.py:100-126 | since the batches are built once, before the epoch loop, `epochs` passes are a single run over the batch list repeated `epochs` times |
| `Network.RunEpochsNoBatches` | mnist/FullConnected/net.py:114-126 | no batches leave the parameters unchanged, whatever the number of epochs |
| `Network.OneMoreEpoch` | mnist/FullConnected/net.py:114-126 | one more epoch is one more run over the batches appended to the schedule |
| `NeuralNet.Net.CheckPoint` | mnist/FullConnected/net.py:128-129 | the evaluation of evaluable cross data does not raise, returns `Evaluation`'s score, leaves the parameters as they are and the forward trace of the last cross image in the fields |
| `NeuralNet.Net.EpochStep` | mnist/FullConnected/net.py:116-129 | batch i of a pass advances the parameters from `RunBatches` of the first i batches to that of the first i + 1, evaluating without a raise when i is a multiple of 50 |
| `NeuralNet.Net.Epoch` | mnist/FullConnected/net.py:115-129 | one pass updates the parameters to `RunBatches` over the batches; it requires cross data that evaluates without raising whenever an evaluation happens, and the evaluations change no parameter |
| `NeuralNet.Net.NextEpoch` | mnist/FullConnected/net.py:114-129 | from the parameters after e epochs, one pass gives those after e + 1 |
| `NeuralNet.Net.Train` | mnist/FullConnected/net.py:114-131 | the parameters after the epoch loop are `RunEpochs` of the starting parameters |
| `NeuralNet.Net.SGD` | mnist/FullConnected/net.py:92-131 | returns the batches of the shuffled pairs (None when batching raises); with no batch or no positive `epoch` the parameters are unchanged, whatever the pairs and cross data; otherwise the batches are trainable and the parameters are `RunEpochs` over them |
| `NeuralNet.Net.BatchedSamplesTrainable` | mnist/FullConnected/net.py:100-109 | the batches of a permutation of valid training pairs are trainable |
| `NeuralNet.Net.SamplesValid` | mnist/FullConnected/net.py:100-101 | every shuffled pair is one of the zipped pairs |
| `NeuralNet.Net.CrossData` | mnist/FullConnected/net.py:111-112 | the cross-validation data is the given list, or the training list when none is given |
| `Labels.ArgMax` | mnist/FullConnected/net.py:139 | argmax returns an index of the vector whose entry is maximal and is the first such index |
| `Labels.ArgMaxOfEye` | mnist/FullConnected/net.py:139 | argmax of the eye vector at k is k |
| `NeuralNet.Net.Predict` | mnist/FullConnected/net.py:133-146 | the prediction is the first maximal index of the network output, and None exactly when the output layer is empty; the forward trace is left in the fields |
| `Network.Predictions` | mnist/FullConnected/net.py:154 | one network output per image, in order, each of the output width |
| `NeuralNet.Net.PredictAll` | mnist/FullConnected/net.py:154 | the loop's outputs are exactly `Predictions`; the parameters do not change; the fields hold the forward trace of the last image, or are untouched for no image |
| `Network.Classify` | mnist/FullConnected/net.py:162 | one argmax per output, in order |
| `Labels.CountCorrect` | mnist/FullConnected/net.py:163-164 | the count of correct predictions is at most m; it is 0 exactly when no prediction matches and m exactly when all do |
| `Labels.Accuracy` | mnist/FullConnected/net.py:163-164 | the accuracy lies in [0, 1]; it is 1 exactly when every prediction matches and 0 exactly when none does |
| `Network.TotalCost` | mnist/FullConnected/net.py:156-158 | the summed cost is non-negative and zero exactly when every prediction equals its target |
| `Network.MeanCost` | mnist/FullConnected/net.py:159 | the summed cost divided by the number of labels is non-negative and zero exactly when every prediction equals its target |
| `Network.Summarize` | mnist/FullConnected/net.py:156-164 | None exactly when there is no pair; otherwise the cost and accuracy bounds and both directions of their zero and one cases |
| `NeuralNet.Net.Summary` | mnist/FullConnected/net.py:156-164 | the accumulating loop and the divisions give exactly `Summarize` |
| `Network.Evaluation` | mnist/FullConnected/net.py:148-167 | succeeds exactly when the labels encode and there is an image; then it is the summary of the outputs against the encoded labels |
| `NeuralNet.Net.Evaluate` | mnist/FullConnected/net.py:148-167 | returns exactly `Evaluation` at the current parameters, which do not change; the fields hold the forward trace of the last image, or are untouched for no image |

## Left out

- Random initialisation and shuffling are not modelled. `np.random.randn` becomes the sample functions `wSample` and `bSample`. `np.random.shuffle` becomes the input `shuffled`, a permutation of the zipped pairs.
- The bodies of `Sigmoid`, its `prime` and `gaussian` live in modules that are not part of this model. They are function parameters that preserve vector length.
- Floating point is not modelled; all arithmetic is exact `real`. The model makes no claim about numerical gradient accuracy.
- `image.reshape` is modelled as row-major flattening (`Concat`), under a precondition that the image has `shape[0]` elements. The error NumPy raises on a mismatch is not modelled.
- NeuralNet.Net.constructor: requires at least two layer sizes. A single size, which the source accepts, is excluded with everything built on it: back-propagation would read the empty placeholder `zs[-1]`, while `predict` runs and returns the argmax of the normalized input.
- NeuralNet.Net.SGD: when some batch is run (a positive `epoch`, a positive batch size and at least one pair), it requires every training pair to flatten to the input width with a label that indexes ten entries, ten output units, and, when `evaluate` holds, cross data that `evaluate` accepts. The source behaves in several ways on the excluded inputs, and none of them is modelled. A pair whose image does not flatten to the input width, or whose label indexes no entry of ten, raises at lines 119-120 in the first batch that holds it, after the updates of the earlier batches. A one-unit output behind a hidden layer raises at line 86, in the first batch, before any update. Shape `[k, 1]` with valid pairs does not raise: line 125 broadcasts the ten-row gradient and silently widens the output layer to ten units, and the evaluation at line 129 then succeeds.
- NeuralNet.Net.SGD: the defaults `batch_size=10`, `learning_rate=1`, `epoch=1` and `evaluate=True` are not modelled; every argument is explicit.
- NeuralNet.Net.Epoch: requires cross data that evaluates without raising whenever an evaluation happens. In the source a raise at line 129 aborts the loop after the first batch's update, which the model does not represent. `NeuralNet.Net.NextEpoch` and `NeuralNet.Net.Train` share this precondition.
- NeuralNet.Net.Epoch: the score of each cadence evaluation is discarded, as in the source. Its printed cost and accuracy are not modelled.
- NeuralNet.Net.Epoch: leaves the trace fields `activations` and `zs` unspecified, and so do `NeuralNet.Net.EpochStep`, `NeuralNet.Net.NextEpoch`, `NeuralNet.Net.Train` and `NeuralNet.Net.SGD`. The source leaves there the trace of the last forward pass: the last training image, or the last cross image when an evaluation came last.
- NeuralNet.Net.constructor: the defaults `gaussian` and `Sigmoid` for a missing normalizer or activation are not modelled; both are parameters. Negative layer sizes, for which `np.random.randn` raises, cannot be written down, because the sizes are natural numbers.
- NeuralNet.Net.BackPropagate: requires the target to have the output width. In the source, a one-entry target broadcasts at line 83 to the output width. A one-unit output with a hidden layer raises at line 86, where a ten-entry error meets a one-column matrix. A one-unit output without a hidden layer yields a ten-row gradient. None of these cases is modelled.
- NeuralNet.Net.Evaluate: requires ten output units, as `Network.Evaluation` does, since the encoded labels have ten entries. NumPy raises in `_cost` on other widths, except that a one-unit output broadcasts without error.
- Printing, the image display of `predict` (`show_img`), `save`/`load` (pickle and file I/O), the `__main__` block and the MNIST loaders are left out. They are I/O.
- NumPy object-array behaviour is not modelled: `np.array` of ragged lists, and the whole-list arithmetic `self.weights - learning_rate * np.average(dws, 0)`. The model uses its per-layer meaning. The model follows NumPy before 1.24, where line 100 builds an (N, 2) object array of pairs; later versions refuse that ragged array at line 100, which is not modelled. Even before 1.24, `np.array(dws)` at line 121 raises when the weight matrices share their row count but not their column count, as for shape `[784, 10, 10]`. The constructor accepts such a shape, and the model then trains where the source raises.
- `labels[:, newaxis]` needs a NumPy array; the model takes a sequence of integers. Non-integer labels and non-integer batch sizes are out of scope.
- The fields `activations` and `zs` hold lists. NumPy's conversion of them to arrays is not modelled.

## Findings

| source | as written | input that shows it | evidently intended | confidence | as-written member | corrected member |
|---|---|---|---|---|---|---|
| mnist/FullConnected/net.py:108 | `if last_batch:` tests the truth value of the remainder slice of the two-column pair array, which has at least two elements, so NumPy raises ValueError whenever the batch size does not divide the number of pairs | three pairs in batches of two | append the remainder batch, as lines 103-107 prepare | not executed | `Batching.AsWrittenRaisesOnRemainder` | `Batching.BatchesConcat` |
