/**
 * The `Net` class of net.py: a network whose layer sizes, normalizer and
 * activation are fixed at construction and whose weights, biases and last
 * forward trace are fields that the methods update in place. Every method is
 * proved against the value-level definitions of module Network.
 */
module NeuralNet {
  import opened LinAlg
  import opened Seqs
  import opened Wrappers
  import opened Labels
  import opened Batching
  import opened Network

  class Net {
    const shape: seq<nat>
    const normalizer: Vector -> Vector
    const activation: Activation
    var weights: seq<Matrix>
    var bias: seq<Vector>
    /** The forward trace left by the last `FeedForward`, empty before the first one. */
    var activations: seq<Vector>
    var zs: seq<Vector>

    function Setup(): Config
    {
      Config(normalizer, activation)
    }

    function Parameters(): Params
      reads this`weights, this`bias
    {
      Params(weights, bias)
    }

    ghost predicate Valid()
      reads this`weights, this`bias
    {
      Ready(shape, Parameters(), Setup())
    }

    /**
     * `Net(shape, normalizer, activation_func)` (lines 27-33): the layer
     * sizes default to `[784, 16, 10]`; the parameters are drawn from the
     * sample functions, one weight matrix and one bias vector per transition.
     */
    constructor (sizes: Option<seq<nat>>, normalizer: Vector -> Vector, activation: Activation,
                 wSample: (nat, nat, nat) -> real, bSample: (nat, nat) -> real)
      requires sizes.None? || |sizes.value| >= 2
      requires WellFormed(Config(normalizer, activation))
      ensures shape == (if sizes.None? then DefaultShape else sizes.value)
      ensures this.normalizer == normalizer && this.activation == activation
      ensures Parameters() == InitParams(shape, wSample, bSample)
      ensures activations == [] && zs == []
      ensures Valid()
    {
      shape := if sizes.None? then DefaultShape else sizes.value;
      this.normalizer := normalizer;
      this.activation := activation;
      var p := InitParams(if sizes.None? then DefaultShape else sizes.value, wSample, bSample);
      weights := p.weights;
      bias := p.bias;
      activations := [];
      zs := [];
    }

    /**
     * `_y2i(y)` (lines 36-43): a zero array of ten entries with a 1 written
     * at index `y[0]`; it raises when `y` is empty or `y[0]` is no valid
     * Python index into ten entries.
     */
    static method Y2i(y: seq<int>) returns (r: Option<Vector>)
      ensures r.Some? <==> |y| > 0 && -(Classes as int) <= y[0] < Classes
      ensures r.Some? ==> r.value == Target(y[0])
      ensures r.Some? ==> 0 <= y[0] ==> r.value == Eye(y[0], Classes)
    {
      if |y| == 0 {
        return None;
      }
      var index := PyIndex(y[0], Classes);
      if index.None? {
        return None;
      }
      var eye := new real[Classes](_ => 0.0);
      eye[index.value] := 1.0;
      assert eye[..] == Eye(index.value, Classes);
      return Some(eye[..]);
    }

    /**
     * `_feed_forward(image)` (lines 61-79): flatten and normalize the image,
     * then per layer `z = w·a + b` and `a = f(z)`, collecting both lists;
     * they become the fields `activations` and `zs`, and the last activation
     * is returned.
     */
    method FeedForward(image: Matrix) returns (a: Vector)
      requires Valid() && |Concat(image)| == shape[0]
      modifies this
      ensures Valid() && weights == old(weights) && bias == old(bias)
      ensures Trace(activations, zs) == FullTrace(shape, Parameters(), Setup(), image)
      ensures a == activations[|activations| - 1] && a == Output(shape, Parameters(), Setup(), image)
    {
      ghost var p := Parameters();
      ghost var a0 := normalizer(Concat(image));
      a := normalizer(Concat(image));
      var acts := [a];
      var zz: seq<Vector> := [[]];
      var k := 0;
      while k < |weights|
        invariant 0 <= k <= |weights| && p == Parameters()
        invariant Trace(acts, zz) == Forward(shape, p, activation.fn, a0, k)
        invariant a == acts[k]
      {
        ForwardStep(shape, p, activation.fn, a0, k, Trace(acts, zz));
        var z := Add(MatVec(weights[k], a), bias[k]);
        a := activation.fn(z);
        acts := acts + [a];
        zz := zz + [z];
        k := k + 1;
      }
      activations := acts;
      zs := zz;
    }

    /**
     * `_back_propagate(image, yeye)` (lines 81-90): a forward pass, the top
     * error, then one error per lower layer, walking the weights and zs in
     * reverse and prepending each new error; the gradients pair the errors
     * with the activations below them.
     */
    method BackPropagate(image: Matrix, yeye: Vector) returns (dw: seq<Matrix>, db: seq<Vector>)
      requires Valid() && |Concat(image)| == shape[0] && |yeye| == shape[|shape| - 1]
      modifies this
      ensures Valid() && weights == old(weights) && bias == old(bias)
      ensures Trace(activations, zs) == FullTrace(shape, Parameters(), Setup(), image)
      ensures Params(dw, db) == Backprop(shape, Parameters(), Setup(), image, yeye)
    {
      var _ := FeedForward(image);
      var acts := activations;
      FullTraceShaped(shape, Parameters(), Setup(), image);
      var errors := Backward(shape, Parameters(), activation.prime, Trace(acts, zs), yeye);
      var n := |weights|;
      dw := seq(n, k requires 0 <= k < n => Outer(errors[k], acts[k]));
      db := errors;
    }

    /**
     * The backward walk of lines 83-87: the top error from the last
     * activation and z, then one step per pair of `w[-1:0:-1]` zipped with
     * `zs[-2:0:-1]`, each prepending the next lower error. Pair j belongs
     * to layer n - 1 - j (Seqs.ReversedSlicesAlign).
     */
    static method Backward(shape: seq<nat>, p: Params, prime: Vector -> Vector, t: Trace, yeye: Vector)
      returns (errors: seq<Vector>)
      requires |shape| >= 2 && Shaped(shape, p) && LengthPreserving(prime) && TraceShaped(shape, t)
      requires |yeye| == shape[|shape| - 1]
      ensures errors == Errors(shape, p, prime, t, yeye, 0)
    {
      var n := |p.weights|;
      var lastError := TopError(t.acts[n], yeye, prime, t.zs[n]);
      errors := [lastError];
      ErrorsTop(shape, p, prime, t, yeye);
      var ws := FromLastDownToSecond(p.weights);
      var zr := FromPenultimateDownToSecond(t.zs);
      ReversedSlicesAlign(p.weights, t.zs);
      var j := 0;
      while j < |ws|
        invariant 0 <= j <= n - 1
        invariant errors == Errors(shape, p, prime, t, yeye, n - 1 - j) && errors[0] == lastError
      {
        ReversedStep(shape, p, prime, t, yeye, j, errors);
        var w, z := ws[j], zr[j];
        lastError := BackStep(w, |z|, lastError, prime, z);
        errors := [lastError] + errors;
        j := j + 1;
      }
    }

    /**
     * One mini-batch (lines 116-126): the gradients of every sample, in
     * order, all at the parameters before the batch, then the averaged update.
     */
    method TrainBatch(batch: seq<Sample>, learningRate: real)
      requires Valid() && shape[|shape| - 1] == Classes && |batch| > 0
      requires forall j :: 0 <= j < |batch| ==> ValidSample(shape, batch[j])
      modifies this
      ensures Valid()
      ensures Parameters() == BatchStep(shape, old(Parameters()), Setup(), batch, learningRate)
      ensures Trace(activations, zs) == FullTrace(shape, old(Parameters()), Setup(), batch[|batch| - 1].image)
    {
      var grads := BatchBackPropagate(batch);
      Update(grads, learningRate);
    }

    /** Lines 125-126: every parameter moves against the mean of its layer's gradients; the trace stays. */
    method Update(grads: seq<Params>, learningRate: real)
      requires Valid() && |grads| > 0
      requires forall j :: 0 <= j < |grads| ==> Shaped(shape, grads[j])
      modifies this`weights, this`bias
      ensures Valid()
      ensures Parameters() == UpdateStep(shape, old(Parameters()), grads, learningRate)
    {
      var next := UpdateStep(shape, Parameters(), grads, learningRate);
      weights := next.weights;
      bias := next.bias;
    }

    /**
     * The loop of lines 118-122: one back-propagation per sample of the
     * batch, in order, each at the parameters before the batch.
     */
    method BatchBackPropagate(batch: seq<Sample>) returns (grads: seq<Params>)
      requires Valid() && shape[|shape| - 1] == Classes
      requires forall j :: 0 <= j < |batch| ==> ValidSample(shape, batch[j])
      modifies this
      ensures Valid() && weights == old(weights) && bias == old(bias)
      ensures grads == BatchGradients(shape, Parameters(), Setup(), batch)
      ensures |batch| > 0 ==> Trace(activations, zs) == FullTrace(shape, Parameters(), Setup(), batch[|batch| - 1].image)
      ensures |batch| == 0 ==> activations == old(activations) && zs == old(zs)
    {
      ghost var p0 := Parameters();
      grads := [];
      var j := 0;
      while j < |batch|
        invariant 0 <= j <= |batch|
        invariant Valid() && weights == old(weights) && bias == old(bias)
        invariant grads == BatchGradients(shape, p0, Setup(), batch[..j])
        invariant j > 0 ==> Trace(activations, zs) == FullTrace(shape, p0, Setup(), batch[j - 1].image)
        invariant j == 0 ==> activations == old(activations) && zs == old(zs)
      {
        var sample := batch[j];
        BatchGradientsSnoc(shape, p0, Setup(), batch, j);
        var yeye := Y2i([sample.y]);
        assert [sample.y][0] == sample.y;
        var dw, db := BackPropagate(sample.image, yeye.value);
        grads := grads + [Params(dw, db)];
        j := j + 1;
      }
      assert batch[..|batch|] == batch;
    }

    /**
     * `SGD` (lines 92-131). The zipped and shuffled training pairs are the
     * input `shuffled`. The batches are built once; each epoch runs every
     * batch in order and, when `evaluate` holds, evaluates after every batch
     * whose index within the epoch is a multiple of 50. The batches are
     * returned; None stands for the exceptions the batching raises, before
     * any parameter changes. The pairs, the output width and the cross data
     * matter only when some batch is run: with no batch or no epoch the
     * loops of lines 114-129 do nothing.
     */
    method SGD(images: seq<Matrix>, ys: seq<int>, shuffled: seq<Sample>, batchSize: int, learningRate: real,
               epoch: int, evaluate: bool, crossImages: Option<seq<Matrix>>, crossYs: Option<seq<int>>)
      returns (batches: Option<seq<seq<Sample>>>)
      requires Valid()
      requires multiset(shuffled) == multiset(Pairs(images, ys))
      requires epoch > 0 && batchSize > 0 && |shuffled| > 0 ==>
                 shape[|shape| - 1] == Classes &&
                 (forall i :: 0 <= i < Min(|images|, |ys|) ==> ValidSample(shape, Sample(images[i], ys[i]))) &&
                 (evaluate ==> Evaluable(shape, CrossData(images, crossImages), CrossData(ys, crossYs)))
      modifies this
      ensures Valid()
      ensures batches == MakeBatches(shuffled, batchSize)
      ensures batches.None? || |batches.value| == 0 || epoch <= 0 ==> weights == old(weights) && bias == old(bias)
      ensures batches.Some? && |batches.value| > 0 && epoch > 0 ==>
                shape[|shape| - 1] == Classes && Trainable(shape, batches.value) &&
                Parameters() == RunEpochs(shape, old(Parameters()), Setup(), batches.value, learningRate, epoch)
    {
      batches := MakeBatches(shuffled, batchSize);
      if batches.None? {
        return;
      }
      var crossImgs := CrossData(images, crossImages);
      var crossLabels := CrossData(ys, crossYs);
      if epoch <= 0 || |batches.value| == 0 {
        return;
      }
      if batchSize > 0 {
        BatchesEmpty(shuffled, batchSize);
      }
      BatchedSamplesTrainable(shape, images, ys, shuffled, batchSize);
      Train(batches.value, learningRate, epoch, evaluate, crossImgs, crossLabels);
    }

    /** The epoch loop of lines 114-131: `epoch` passes over the same batches, none when it is negative. */
    method Train(bs: seq<seq<Sample>>, learningRate: real, epochs: nat, evaluate: bool,
                 crossImgs: seq<Matrix>, crossLabels: seq<int>)
      requires Valid() && shape[|shape| - 1] == Classes && Trainable(shape, bs)
      requires evaluate && |bs| > 0 ==> Evaluable(shape, crossImgs, crossLabels)
      modifies this
      ensures Valid()
      ensures Parameters() == RunEpochs(shape, old(Parameters()), Setup(), bs, learningRate, epochs)
    {
      ghost var start := Parameters();
      ghost var cfg := Setup();
      var e := 0;
      while e < epochs
        invariant 0 <= e <= epochs
        invariant cfg == Setup() && Ready(shape, start, cfg)
        invariant Valid()
        invariant Parameters() == RunEpochs(shape, start, cfg, bs, learningRate, e)
      {
        NextEpoch(bs, learningRate, evaluate, crossImgs, crossLabels, start, e);
        e := e + 1;
      }
    }

    /** One more pass of the epoch loop: from the parameters after `e` epochs to those after `e + 1`. */
    method NextEpoch(bs: seq<seq<Sample>>, learningRate: real, evaluate: bool, crossImgs: seq<Matrix>,
                     crossLabels: seq<int>, ghost start: Params, ghost e: nat)
      requires Valid() && shape[|shape| - 1] == Classes && Trainable(shape, bs)
      requires evaluate && |bs| > 0 ==> Evaluable(shape, crossImgs, crossLabels)
      requires Ready(shape, start, Setup()) && Parameters() == RunEpochs(shape, start, Setup(), bs, learningRate, e)
      modifies this
      ensures Valid()
      ensures Parameters() == RunEpochs(shape, start, Setup(), bs, learningRate, e + 1)
    {
      Epoch(bs, learningRate, evaluate, crossImgs, crossLabels);
    }

    /** The batches of the shuffled training pairs are trainable. */
    static lemma BatchedSamplesTrainable(shape: seq<nat>, images: seq<Matrix>, ys: seq<int>,
                                         shuffled: seq<Sample>, batchSize: int)
      requires multiset(shuffled) == multiset(Pairs(images, ys))
      requires forall i :: 0 <= i < Min(|images|, |ys|) ==> ValidSample(shape, Sample(images[i], ys[i]))
      requires MakeBatches(shuffled, batchSize).Some?
      ensures Trainable(shape, MakeBatches(shuffled, batchSize).value)
    {
      SamplesValid(images, ys, shuffled);
      if batchSize > 0 {
        BatchesTrainable(shape, shuffled, batchSize);
      } else {
        assert MakeBatches(shuffled, batchSize).value == [];
      }
    }

    /**
     * One pass of lines 115-128 over the batches: a step per batch, in
     * order, and an evaluation on the cross data after every batch whose
     * index is a multiple of 50 when `evaluate` holds.
     */
    method Epoch(bs: seq<seq<Sample>>, learningRate: real, evaluate: bool, crossImgs: seq<Matrix>, crossLabels: seq<int>)
      requires Valid() && shape[|shape| - 1] == Classes && Trainable(shape, bs)
      requires evaluate && |bs| > 0 ==> Evaluable(shape, crossImgs, crossLabels)
      modifies this
      ensures Valid()
      ensures Parameters() == RunBatches(shape, old(Parameters()), Setup(), bs, learningRate)
    {
      ghost var start := Parameters();
      ghost var cfg := Setup();
      var i := 0;
      while i < |bs|
        invariant 0 <= i <= |bs|
        invariant cfg == Setup() && Ready(shape, start, cfg)
        invariant Valid()
        invariant Trainable(shape, bs[..i])
        invariant Parameters() == RunBatches(shape, start, cfg, bs[..i], learningRate)
      {
        EpochStep(bs, i, learningRate, evaluate, crossImgs, crossLabels, start);
        i := i + 1;
      }
      assert bs[..|bs|] == bs;
    }

    /** Batch i of a pass (lines 116-129): its step, then an evaluation when i is a multiple of 50. */
    method EpochStep(bs: seq<seq<Sample>>, i: nat, learningRate: real, evaluate: bool, crossImgs: seq<Matrix>,
                     crossLabels: seq<int>, ghost start: Params)
      requires Valid() && shape[|shape| - 1] == Classes && Trainable(shape, bs) && i < |bs|
      requires evaluate ==> Evaluable(shape, crossImgs, crossLabels)
      requires Ready(shape, start, Setup()) && Trainable(shape, bs[..i])
      requires Parameters() == RunBatches(shape, start, Setup(), bs[..i], learningRate)
      modifies this
      ensures Valid() && Trainable(shape, bs[..i + 1])
      ensures Parameters() == RunBatches(shape, start, Setup(), bs[..i + 1], learningRate)
    {
      RunBatchesSnoc(shape, start, Setup(), bs, learningRate, i);
      TrainBatch(bs[i], learningRate);
      if evaluate && i % 50 == 0 {
        var _ := CheckPoint(crossImgs, crossLabels);
      }
    }

    /**
     * Lines 128-129: an evaluation on the cross data, whose result is
     * discarded; for evaluable data it does not raise, it leaves the
     * parameters as they are and the trace of the last cross image in the fields.
     */
    method CheckPoint(crossImgs: seq<Matrix>, crossLabels: seq<int>) returns (score: Score)
      requires Valid() && shape[|shape| - 1] == Classes && Evaluable(shape, crossImgs, crossLabels)
      modifies this
      ensures Valid() && weights == old(weights) && bias == old(bias)
      ensures Some(score) == Evaluation(shape, Parameters(), Setup(), crossImgs, crossLabels)
      ensures Trace(activations, zs) == FullTrace(shape, Parameters(), Setup(), crossImgs[|crossImgs| - 1])
    {
      var r := Evaluate(crossImgs, crossLabels);
      score := r.value;
    }

    /** The cross-validation data: the given list, or the training list when none is given (lines 111-112). */
    static function CrossData<T>(training: seq<T>, cross: Option<seq<T>>): (d: seq<T>)
      ensures cross.None? ==> d == training
      ensures cross.Some? ==> d == cross.value
    {
      if cross.None? then training else cross.value
    }

    /** Every shuffled pair is one of the zipped training pairs, so each is a valid sample. */
    static lemma SamplesValid(images: seq<Matrix>, ys: seq<int>, shuffled: seq<Sample>)
      requires multiset(shuffled) == multiset(Pairs(images, ys))
      ensures forall x :: x in shuffled ==> x in Pairs(images, ys)
    {
      forall x | x in shuffled ensures x in Pairs(images, ys) {
        assert x in multiset(shuffled);
      }
    }

    /**
     * `predict(image)` (lines 133-146): the index of the first largest
     * output; NumPy's argmax raises on an empty output layer.
     */
    method Predict(image: Matrix) returns (predicted: Option<nat>)
      requires Valid() && |Concat(image)| == shape[0]
      modifies this
      ensures Valid() && weights == old(weights) && bias == old(bias)
      ensures Trace(activations, zs) == FullTrace(shape, Parameters(), Setup(), image)
      ensures predicted.Some? <==> shape[|shape| - 1] > 0
      ensures predicted.Some? ==> predicted.value == ArgMax(Output(shape, Parameters(), Setup(), image))
      ensures predicted.Some? ==>
                var a := Output(shape, Parameters(), Setup(), image);
                predicted.value < |a| &&
                (forall j :: 0 <= j < |a| ==> a[j] <= a[predicted.value]) &&
                (forall j :: 0 <= j < predicted.value ==> a[j] < a[predicted.value])
    {
      var a := FeedForward(image);
      if |a| == 0 {
        return None;
      }
      return Some(ArgMax(a));
    }

    /**
     * `evaluate(images, y)` (lines 148-167): a forward pass per image, the
     * labels encoded, the accumulated cost divided by the number of labels
     * and the accuracy of the predicted classes. The parameters do not change.
     */
    method Evaluate(images: seq<Matrix>, ys: seq<int>) returns (r: Option<Score>)
      requires Valid() && shape[|shape| - 1] == Classes && Flattens(shape, images)
      modifies this
      ensures Valid() && weights == old(weights) && bias == old(bias)
      ensures r == Evaluation(shape, Parameters(), Setup(), images, ys)
      ensures |images| > 0 ==> Trace(activations, zs) == FullTrace(shape, Parameters(), Setup(), images[|images| - 1])
      ensures |images| == 0 ==> activations == old(activations) && zs == old(zs)
    {
      var predicted := PredictAll(images);
      var trueActivation := LabelsToActivations(ys);
      if trueActivation.None? {
        return None;
      }
      r := Summary(predicted, trueActivation.value, ys);
    }

    /** The loop of lines 150-154: one forward pass per image, the outputs in order. */
    method PredictAll(images: seq<Matrix>) returns (predicted: seq<Vector>)
      requires Valid() && Flattens(shape, images)
      modifies this
      ensures Valid() && weights == old(weights) && bias == old(bias)
      ensures predicted == Predictions(shape, Parameters(), Setup(), images)
      ensures |images| > 0 ==> Trace(activations, zs) == FullTrace(shape, Parameters(), Setup(), images[|images| - 1])
      ensures |images| == 0 ==> activations == old(activations) && zs == old(zs)
    {
      ghost var p := Parameters();
      ghost var cfg := Setup();
      predicted := [];
      var i := 0;
      while i < |images|
        invariant 0 <= i <= |images| && |predicted| == i
        invariant Valid() && weights == old(weights) && bias == old(bias) && p == Parameters() && cfg == Setup()
        invariant forall k :: 0 <= k < i ==> predicted[k] == Output(shape, p, cfg, images[k])
        invariant i > 0 ==> Trace(activations, zs) == FullTrace(shape, p, cfg, images[i - 1])
        invariant i == 0 ==> activations == old(activations) && zs == old(zs)
      {
        var a := FeedForward(images[i]);
        predicted := predicted + [a];
        i := i + 1;
      }
    }

    /**
     * Lines 156-164: the cost summed over the zipped pairs and divided by the
     * number of labels, and the fraction of pairs whose predicted class is
     * the label; None where that fraction divides by zero.
     */
    static method Summary(predicted: seq<Vector>, trues: seq<Vector>, ys: seq<int>) returns (r: Option<Score>)
      requires |trues| == |ys| && |ys| > 0
      requires forall i :: 0 <= i < |predicted| ==> |predicted[i]| == Classes
      requires forall i :: 0 <= i < |trues| ==> |trues[i]| == Classes
      ensures r == Summarize(predicted, trues, ys)
    {
      var cost := 0.0;
      var k := 0;
      while k < |predicted| && k < |trues|
        invariant 0 <= k <= |predicted| && k <= |trues|
        invariant cost == TotalCost(predicted, trues, k)
      {
        cost := cost + Cost(trues[k], predicted[k]);
        k := k + 1;
      }
      cost := cost / (|trues| as real);
      var m := Min(|predicted|, |ys|);
      if m == 0 {
        return None;
      }
      assert k == m && cost == MeanCost(predicted, trues, m, |ys|);
      var accuracy := Accuracy(Classify(predicted), ys, m);
      r := Some(Score(cost, accuracy));
    }
  }
}
