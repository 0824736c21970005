/**
 * The network as values: the parameter shape schedule, the forward trace,
 * the back-propagated errors and gradients, the averaged SGD update, the
 * training fold over batches and epochs, and the quadratic cost with the
 * evaluation summary. The class in net.dfy is proved against these.
 */
module Network {
  import opened LinAlg
  import opened Seqs
  import opened Wrappers
  import opened Labels
  import opened Batching

  /** The activation (`activation_func`) and its derivative (`activation_func.prime`). */
  datatype Activation = Activation(fn: Vector -> Vector, prime: Vector -> Vector)

  /** The two pluggable functions of a network: the input normalizer and the activation. */
  datatype Config = Config(normalizer: Vector -> Vector, act: Activation)

  /** Weight matrices and bias vectors, one of each per layer transition. */
  datatype Params = Params(weights: seq<Matrix>, bias: seq<Vector>)

  /** One training pair: a two-dimensional image and its integer label. */
  datatype Sample = Sample(image: Matrix, y: int)

  /** The index-aligned lists `activations` and `zs` built by the forward pass. */
  datatype Trace = Trace(acts: seq<Vector>, zs: seq<Vector>)

  /** The default layer sizes `[28*28, 16, 10]`. */
  const DefaultShape: seq<nat> := [28 * 28, 16, Classes]

  ghost predicate LengthPreserving(f: Vector -> Vector)
  {
    forall v :: |f(v)| == |v|
  }

  ghost predicate WellFormed(cfg: Config)
  {
    LengthPreserving(cfg.normalizer) && LengthPreserving(cfg.act.fn) && LengthPreserving(cfg.act.prime)
  }

  /** The number of layer transitions for a list of layer sizes: `len(zip(shape[1:], shape[:-1]))`. */
  function Transitions(shape: seq<nat>): (n: nat)
    ensures |shape| > 0 ==> n == |shape| - 1
    ensures |shape| == 0 ==> n == 0
  {
    if |shape| == 0 then 0 else |shape| - 1
  }

  /** Layer i has a `shape[i+1]` by `shape[i]` weight matrix and a bias of length `shape[i+1]`. */
  predicate Shaped(shape: seq<nat>, p: Params)
  {
    |p.weights| == Transitions(shape) && |p.bias| == Transitions(shape) &&
    forall i {:trigger p.weights[i]} {:trigger p.bias[i]} :: 0 <= i < Transitions(shape) ==>
      IsMatrix(p.weights[i], shape[i + 1], shape[i]) && |p.bias[i]| == shape[i + 1]
  }

  /** The parameters and configuration a constructed network holds. */
  ghost predicate Ready(shape: seq<nat>, p: Params, cfg: Config)
  {
    |shape| >= 2 && Shaped(shape, p) && WellFormed(cfg)
  }

  /** Weight matrix i of the initial parameters: entry (r, c) is `wSample(i, r, c)`. */
  function SampleMatrix(wSample: (nat, nat, nat) -> real, i: nat, rows: nat, cols: nat): (m: Matrix)
    ensures IsMatrix(m, rows, cols)
    ensures forall r, c :: 0 <= r < rows && 0 <= c < cols ==> m[r][c] == wSample(i, r, c)
  {
    seq(rows, r requires 0 <= r < rows => seq(cols, c requires 0 <= c < cols => wSample(i, r, c)))
  }

  /** Bias vector i of the initial parameters: entry r is `bSample(i, r)`. */
  function SampleVector(bSample: (nat, nat) -> real, i: nat, n: nat): (v: Vector)
    ensures |v| == n && forall r :: 0 <= r < n ==> v[r] == bSample(i, r)
  {
    seq(n, r requires 0 <= r < n => bSample(i, r))
  }

  /** The weight matrices of the initial parameters, one `shape[i+1]` by `shape[i]` matrix per transition. */
  function InitWeights(shape: seq<nat>, wSample: (nat, nat, nat) -> real): (ws: seq<Matrix>)
    ensures |ws| == Transitions(shape)
    ensures forall i {:trigger ws[i]} :: 0 <= i < Transitions(shape) ==> ws[i] == SampleMatrix(wSample, i, shape[i + 1], shape[i])
  {
    seq(Transitions(shape), i requires 0 <= i < Transitions(shape) => SampleMatrix(wSample, i, shape[i + 1], shape[i]))
  }

  /** The bias vectors of the initial parameters, one of length `shape[i+1]` per transition. */
  function InitBias(shape: seq<nat>, bSample: (nat, nat) -> real): (bs: seq<Vector>)
    ensures |bs| == Transitions(shape)
    ensures forall i {:trigger bs[i]} :: 0 <= i < Transitions(shape) ==> bs[i] == SampleVector(bSample, i, shape[i + 1])
  {
    seq(Transitions(shape), i requires 0 <= i < Transitions(shape) => SampleVector(bSample, i, shape[i + 1]))
  }

  /**
   * Initial parameters (lines 32-33): exactly one weight matrix and one bias
   * vector per transition, of the shapes the layer sizes dictate; entry
   * (r, c) of weight matrix i is `wSample(i, r, c)` and entry r of bias i is
   * `bSample(i, r)`, standing for the draws of `np.random.randn`.
   */
  function InitParams(shape: seq<nat>, wSample: (nat, nat, nat) -> real, bSample: (nat, nat) -> real): (p: Params)
    ensures Shaped(shape, p)
    ensures forall i, r, c {:trigger p.weights[i][r][c]} :: 0 <= i < Transitions(shape) && 0 <= r < shape[i + 1] && 0 <= c < shape[i] ==>
              p.weights[i][r][c] == wSample(i, r, c)
    ensures forall i, r {:trigger p.bias[i][r]} :: 0 <= i < Transitions(shape) && 0 <= r < shape[i + 1] ==> p.bias[i][r] == bSample(i, r)
  {
    Params(InitWeights(shape, wSample), InitBias(shape, bSample))
  }

  /**
   * One layer of the forward pass: the weight matrix fits the incoming
   * activation, `z == w·a + b` and the outgoing activation is `f(z)`.
   */
  predicate LayerStep(w: Matrix, b: Vector, f: Vector -> Vector, a: Vector, z: Vector, next: Vector)
  {
    (forall r :: 0 <= r < |w| ==> |w[r]| == |a|) && |w| == |b| &&
    z == Add(MatVec(w, a), b) && next == f(z)
  }

  /**
   * The first k steps of the forward pass from input activation `a0`:
   * `acts[0] == a0`, `zs[0] == []`, then for every later layer i,
   * `zs[i] == W_{i-1}·acts[i-1] + b_{i-1}` and `acts[i] == f(zs[i])`.
   */
  function Forward(shape: seq<nat>, p: Params, f: Vector -> Vector, a0: Vector, k: nat): (t: Trace)
    requires |shape| >= 1 && Shaped(shape, p) && LengthPreserving(f)
    requires |a0| == shape[0] && k <= Transitions(shape)
    ensures |t.acts| == k + 1 && |t.zs| == k + 1
    ensures t.acts[0] == a0 && t.zs[0] == []
    ensures forall i {:trigger t.acts[i]} :: 0 <= i <= k ==> |t.acts[i]| == shape[i]
    ensures forall i {:trigger t.zs[i]} :: 1 <= i <= k ==> |t.zs[i]| == shape[i]
    ensures forall i {:trigger p.weights[i]} :: 0 <= i < k ==> LayerStep(p.weights[i], p.bias[i], f, t.acts[i], t.zs[i + 1], t.acts[i + 1])
  {
    if k == 0 then Trace([a0], [[]])
    else
      var t := Forward(shape, p, f, a0, k - 1);
      assert IsMatrix(p.weights[k - 1], shape[k], shape[k - 1]);
      var z := Add(MatVec(p.weights[k - 1], t.acts[k - 1]), p.bias[k - 1]);
      Trace(t.acts + [f(z)], t.zs + [z])
  }

  /** One more layer of the forward pass: `z = w·a + b` from the last activation, then `f(z)`, appended. */
  lemma ForwardStep(shape: seq<nat>, p: Params, f: Vector -> Vector, a0: Vector, k: nat, t: Trace)
    requires |shape| >= 1 && Shaped(shape, p) && LengthPreserving(f)
    requires |a0| == shape[0] && k < Transitions(shape)
    requires t == Forward(shape, p, f, a0, k)
    ensures IsMatrix(p.weights[k], shape[k + 1], |t.acts[k]|) && |p.bias[k]| == shape[k + 1]
    ensures Forward(shape, p, f, a0, k + 1) ==
            Trace(t.acts + [f(Add(MatVec(p.weights[k], t.acts[k]), p.bias[k]))],
                  t.zs + [Add(MatVec(p.weights[k], t.acts[k]), p.bias[k])])
  {
    assert IsMatrix(p.weights[k], shape[k + 1], shape[k]);
    assert k + 1 - 1 == k;
  }

  /** The complete forward trace of an image: flattened, normalized, then pushed through every layer. */
  function FullTrace(shape: seq<nat>, p: Params, cfg: Config, image: Matrix): (t: Trace)
    requires Ready(shape, p, cfg) && |Concat(image)| == shape[0]
    ensures |t.acts| == |shape| && |t.zs| == |shape|
    ensures t.acts[0] == cfg.normalizer(Concat(image)) && t.zs[0] == []
    ensures forall i {:trigger t.acts[i]} {:trigger t.zs[i]} :: 1 <= i < |shape| ==> |t.acts[i]| == shape[i] && |t.zs[i]| == shape[i]
  {
    Forward(shape, p, cfg.act.fn, cfg.normalizer(Concat(image)), Transitions(shape))
  }

  /** The network output for an image: the last activation, of length `shape[-1]`. */
  function Output(shape: seq<nat>, p: Params, cfg: Config, image: Matrix): (a: Vector)
    requires Ready(shape, p, cfg) && |Concat(image)| == shape[0]
    ensures |a| == shape[|shape| - 1]
  {
    var t := FullTrace(shape, p, cfg, image);
    t.acts[|t.acts| - 1]
  }

  /** A trace with one activation and one z per layer, of the layer's width (the input z aside). */
  predicate TraceShaped(shape: seq<nat>, t: Trace)
  {
    |t.acts| == |shape| && |t.zs| == |shape| &&
    forall i {:trigger t.acts[i]} {:trigger t.zs[i]} :: 0 <= i < |shape| ==> |t.acts[i]| == shape[i] && (i > 0 ==> |t.zs[i]| == shape[i])
  }

  /** The error at the output layer: `(a - y) ⊙ f'(z)`. */
  function TopError(a: Vector, y: Vector, prime: Vector -> Vector, z: Vector): (e: Vector)
    requires |a| == |y| && |z| == |a| && LengthPreserving(prime)
    ensures |e| == |a|
  {
    Hadamard(Sub(a, y), prime(z))
  }

  /** The error one layer down from error `e` of the layer above: `(wᵀ·e) ⊙ f'(z)`. */
  function BackStep(w: Matrix, cols: nat, e: Vector, prime: Vector -> Vector, z: Vector): (d: Vector)
    requires IsMatrix(w, |e|, cols) && |z| == cols && LengthPreserving(prime)
    ensures |d| == cols
  {
    Hadamard(MatVec(Transpose(w, cols), e), prime(z))
  }

  /**
   * The error of layer transition k (lines 83-87): at the top,
   * `(acts[-1] - y) ⊙ f'(zs[-1])`; below it, `W_{k+1}ᵀ·error_{k+1} ⊙ f'(zs[k+1])`.
   */
  function Delta(shape: seq<nat>, p: Params, prime: Vector -> Vector, t: Trace, y: Vector, k: nat): (d: Vector)
    requires |shape| >= 2 && Shaped(shape, p) && LengthPreserving(prime) && TraceShaped(shape, t)
    requires |y| == shape[|shape| - 1] && k < Transitions(shape)
    ensures |d| == shape[k + 1]
    decreases Transitions(shape) - k
  {
    var n := Transitions(shape);
    if k == n - 1 then TopError(t.acts[n], y, prime, t.zs[n])
    else
      assert IsMatrix(p.weights[k + 1], shape[k + 2], shape[k + 1]);
      BackStep(p.weights[k + 1], shape[k + 1], Delta(shape, p, prime, t, y, k + 1), prime, t.zs[k + 1])
  }

  /**
   * The errors of transitions k and above, lowest first: the list that
   * lines 84-87 grow by prepending while walking down from the top.
   */
  function Errors(shape: seq<nat>, p: Params, prime: Vector -> Vector, t: Trace, y: Vector, k: nat): (es: seq<Vector>)
    requires |shape| >= 2 && Shaped(shape, p) && LengthPreserving(prime) && TraceShaped(shape, t)
    requires |y| == shape[|shape| - 1] && k < Transitions(shape)
    ensures |es| == Transitions(shape) - k
  {
    seq(Transitions(shape) - k, i requires 0 <= i < Transitions(shape) - k => Delta(shape, p, prime, t, y, k + i))
  }

  /** The walk starts from the single top error. */
  lemma ErrorsTop(shape: seq<nat>, p: Params, prime: Vector -> Vector, t: Trace, y: Vector)
    requires |shape| >= 2 && Shaped(shape, p) && LengthPreserving(prime) && TraceShaped(shape, t)
    requires |y| == shape[|shape| - 1]
    ensures Errors(shape, p, prime, t, y, Transitions(shape) - 1) ==
            [TopError(t.acts[Transitions(shape)], y, prime, t.zs[Transitions(shape)])]
  {
    var n := Transitions(shape);
    assert Errors(shape, p, prime, t, y, n - 1)[0] == Delta(shape, p, prime, t, y, n - 1);
  }

  /**
   * One step of the backward walk: prepending the error one layer below
   * the lowest of the errors from m on gives the errors from m - 1 on.
   */
  lemma ErrorsStep(shape: seq<nat>, p: Params, prime: Vector -> Vector, t: Trace, y: Vector, m: nat, above: seq<Vector>)
    requires |shape| >= 2 && Shaped(shape, p) && LengthPreserving(prime) && TraceShaped(shape, t)
    requires |y| == shape[|shape| - 1] && 0 < m < Transitions(shape)
    requires above == Errors(shape, p, prime, t, y, m)
    ensures |above| > 0 && IsMatrix(p.weights[m], |above[0]|, shape[m]) && |t.zs[m]| == shape[m]
    ensures [BackStep(p.weights[m], shape[m], above[0], prime, t.zs[m])] + above == Errors(shape, p, prime, t, y, m - 1)
  {
    assert IsMatrix(p.weights[m], shape[m + 1], shape[m]);
    assert above[0] == Delta(shape, p, prime, t, y, m);
    var below := Errors(shape, p, prime, t, y, m - 1);
    var es := [BackStep(p.weights[m], shape[m], above[0], prime, t.zs[m])] + above;
    assert below[0] == Delta(shape, p, prime, t, y, m - 1);
    assert m - 1 + 1 == m;
    assert es[0] == below[0];
    forall i | 0 < i < |below| ensures es[i] == below[i] {
      assert es[i] == above[i - 1];
    }
  }

  /**
   * Pair j of the zip of line 85, `w[-1:0:-1]` with `zs[-2:0:-1]`, is the
   * weight matrix and z of layer m = n - 1 - j; prepending the error it
   * yields to the errors from m on gives the errors from m - 1 on.
   */
  lemma ReversedStep(shape: seq<nat>, p: Params, prime: Vector -> Vector, t: Trace, y: Vector, j: nat, above: seq<Vector>)
    requires |shape| >= 2 && Shaped(shape, p) && LengthPreserving(prime) && TraceShaped(shape, t)
    requires |y| == shape[|shape| - 1] && j < Transitions(shape) - 1
    requires above == Errors(shape, p, prime, t, y, Transitions(shape) - 1 - j)
    ensures j < |FromLastDownToSecond(p.weights)| && j < |FromPenultimateDownToSecond(t.zs)|
    ensures |above| > 0
    ensures IsMatrix(FromLastDownToSecond(p.weights)[j], |above[0]|, |FromPenultimateDownToSecond(t.zs)[j]|)
    ensures [BackStep(FromLastDownToSecond(p.weights)[j], |FromPenultimateDownToSecond(t.zs)[j]|, above[0], prime,
                      FromPenultimateDownToSecond(t.zs)[j])] + above ==
            Errors(shape, p, prime, t, y, Transitions(shape) - 1 - (j + 1))
  {
    var n := Transitions(shape);
    ReversedSlicesAlign(p.weights, t.zs);
    var m := n - 1 - j;
    assert FromLastDownToSecond(p.weights)[j] == p.weights[m];
    assert FromPenultimateDownToSecond(t.zs)[j] == t.zs[m];
    ErrorsStep(shape, p, prime, t, y, m, above);
    assert n - 1 - (j + 1) == m - 1;
  }

  /**
   * The gradients of lines 88-89: for each transition k, the weight gradient
   * is the outer product of error k with `acts[k]` and the bias gradient is
   * error k, so every gradient has the shape of the parameter it belongs to.
   */
  function Gradients(shape: seq<nat>, p: Params, prime: Vector -> Vector, t: Trace, y: Vector): (g: Params)
    requires |shape| >= 2 && Shaped(shape, p) && LengthPreserving(prime) && TraceShaped(shape, t)
    requires |y| == shape[|shape| - 1]
    ensures Shaped(shape, g)
    ensures forall k {:trigger g.bias[k]} {:trigger g.weights[k]} :: 0 <= k < Transitions(shape) ==>
              g.bias[k] == Delta(shape, p, prime, t, y, k) &&
              g.weights[k] == Outer(Delta(shape, p, prime, t, y, k), t.acts[k])
  {
    var n := Transitions(shape);
    var es := Errors(shape, p, prime, t, y, 0);
    Params(seq(n, k requires 0 <= k < n => Outer(es[k], t.acts[k])), es)
  }

  lemma FullTraceShaped(shape: seq<nat>, p: Params, cfg: Config, image: Matrix)
    requires Ready(shape, p, cfg) && |Concat(image)| == shape[0]
    ensures TraceShaped(shape, FullTrace(shape, p, cfg, image))
  {
  }

  /** `_back_propagate(image, y)`: the gradients for one sample, from its full forward trace. */
  function Backprop(shape: seq<nat>, p: Params, cfg: Config, image: Matrix, y: Vector): (g: Params)
    requires Ready(shape, p, cfg) && |Concat(image)| == shape[0] && |y| == shape[|shape| - 1]
    ensures Shaped(shape, g)
  {
    FullTraceShaped(shape, p, cfg, image);
    Gradients(shape, p, cfg.act.prime, FullTrace(shape, p, cfg, image), y)
  }

  /** Every parameter set of a list has the layer-i shapes of `shape`. */
  lemma LayerShapes(shape: seq<nat>, grads: seq<Params>, i: nat)
    requires forall j :: 0 <= j < |grads| ==> Shaped(shape, grads[j])
    requires i < Transitions(shape)
    ensures forall j :: 0 <= j < |grads| ==>
              i < |grads[j].weights| && i < |grads[j].bias| &&
              IsMatrix(grads[j].weights[i], shape[i + 1], shape[i]) && |grads[j].bias[i]| == shape[i + 1]
  {
  }

  /** The weight gradients of layer i across a list of gradients. */
  function LayerWeights(shape: seq<nat>, grads: seq<Params>, i: nat): (ms: seq<Matrix>)
    requires forall j :: 0 <= j < |grads| ==> Shaped(shape, grads[j])
    requires i < Transitions(shape)
    ensures |ms| == |grads|
    ensures forall j {:trigger ms[j]} :: 0 <= j < |grads| ==> i < |grads[j].weights| && ms[j] == grads[j].weights[i]
    ensures forall j {:trigger ms[j]} :: 0 <= j < |grads| ==> IsMatrix(ms[j], shape[i + 1], shape[i])
  {
    LayerShapes(shape, grads, i);
    seq(|grads|, j requires 0 <= j < |grads| => grads[j].weights[i])
  }

  /** The bias gradients of layer i across a list of gradients. */
  function LayerBias(shape: seq<nat>, grads: seq<Params>, i: nat): (vs: seq<Vector>)
    requires forall j :: 0 <= j < |grads| ==> Shaped(shape, grads[j])
    requires i < Transitions(shape)
    ensures |vs| == |grads|
    ensures forall j {:trigger vs[j]} :: 0 <= j < |grads| ==> i < |grads[j].bias| && vs[j] == grads[j].bias[i]
    ensures forall j {:trigger vs[j]} :: 0 <= j < |grads| ==> |vs[j]| == shape[i + 1]
  {
    LayerShapes(shape, grads, i);
    seq(|grads|, j requires 0 <= j < |grads| => grads[j].bias[i])
  }

  /** One weight matrix moved against the mean of its gradients: `w - eta * mean(gs)`. */
  function MoveWeights(w: Matrix, gs: seq<Matrix>, eta: real, rows: nat, cols: nat): (m: Matrix)
    requires IsMatrix(w, rows, cols) && |gs| > 0
    requires forall j :: 0 <= j < |gs| ==> IsMatrix(gs[j], rows, cols)
    ensures IsMatrix(m, rows, cols)
    ensures forall r, c :: 0 <= r < rows && 0 <= c < cols ==>
              m[r][c] == w[r][c] - eta * MatMean(gs, rows, cols)[r][c]
  {
    MatSub(w, MatScale(eta, MatMean(gs, rows, cols), rows, cols), rows, cols)
  }

  /** One bias vector moved against the mean of its gradients: `b - eta * mean(gs)`. */
  function MoveBias(b: Vector, gs: seq<Vector>, eta: real): (v: Vector)
    requires |gs| > 0
    requires forall j :: 0 <= j < |gs| ==> |gs[j]| == |b|
    ensures |v| == |b|
    ensures forall r :: 0 <= r < |b| ==> v[r] == b[r] - eta * VecMean(gs, |b|)[r]
  {
    Sub(b, Scale(eta, VecMean(gs, |b|)))
  }

  /** Every weight matrix moved against the mean of its layer's gradients. */
  function NewWeights(shape: seq<nat>, p: Params, grads: seq<Params>, eta: real): (ws: seq<Matrix>)
    requires Shaped(shape, p) && |grads| > 0
    requires forall j :: 0 <= j < |grads| ==> Shaped(shape, grads[j])
    ensures |ws| == Transitions(shape)
    ensures forall i {:trigger ws[i]} :: 0 <= i < Transitions(shape) ==>
              ws[i] == MoveWeights(p.weights[i], LayerWeights(shape, grads, i), eta, shape[i + 1], shape[i])
  {
    seq(Transitions(shape), i requires 0 <= i < Transitions(shape) =>
      MoveWeights(p.weights[i], LayerWeights(shape, grads, i), eta, shape[i + 1], shape[i]))
  }

  /** Every bias vector moved against the mean of its layer's gradients. */
  function NewBias(shape: seq<nat>, p: Params, grads: seq<Params>, eta: real): (bs: seq<Vector>)
    requires Shaped(shape, p) && |grads| > 0
    requires forall j :: 0 <= j < |grads| ==> Shaped(shape, grads[j])
    ensures |bs| == Transitions(shape)
    ensures forall i {:trigger bs[i]} :: 0 <= i < Transitions(shape) ==> bs[i] == MoveBias(p.bias[i], LayerBias(shape, grads, i), eta)
  {
    seq(Transitions(shape), i requires 0 <= i < Transitions(shape) => MoveBias(p.bias[i], LayerBias(shape, grads, i), eta))
  }

  /**
   * The update of lines 125-126: every layer moves against the mean of its
   * gradients over the batch, scaled by the learning rate; all means are
   * taken from the gradients of the parameters before the update, and every
   * parameter keeps its shape.
   */
  function UpdateStep(shape: seq<nat>, p: Params, grads: seq<Params>, eta: real): (q: Params)
    requires Shaped(shape, p) && |grads| > 0
    requires forall j :: 0 <= j < |grads| ==> Shaped(shape, grads[j])
    ensures Shaped(shape, q)
  {
    Params(NewWeights(shape, p, grads, eta), NewBias(shape, p, grads, eta))
  }

  /** With a batch of one, the update is exactly `W - η·dW` and `b - η·db`. */
  lemma UpdateSingleton(shape: seq<nat>, p: Params, g: Params, eta: real)
    requires Shaped(shape, p) && Shaped(shape, g)
    ensures forall i {:trigger UpdateStep(shape, p, [g], eta).weights[i]} {:trigger UpdateStep(shape, p, [g], eta).bias[i]} ::
              0 <= i < Transitions(shape) ==>
              UpdateStep(shape, p, [g], eta).weights[i] ==
                MatSub(p.weights[i], MatScale(eta, g.weights[i], shape[i + 1], shape[i]), shape[i + 1], shape[i]) &&
              UpdateStep(shape, p, [g], eta).bias[i] == Sub(p.bias[i], Scale(eta, g.bias[i]))
  {
    forall i | 0 <= i < Transitions(shape)
      ensures UpdateStep(shape, p, [g], eta).weights[i] ==
                MatSub(p.weights[i], MatScale(eta, g.weights[i], shape[i + 1], shape[i]), shape[i + 1], shape[i])
      ensures UpdateStep(shape, p, [g], eta).bias[i] == Sub(p.bias[i], Scale(eta, g.bias[i]))
    {
      assert LayerWeights(shape, [g], i) == [g.weights[i]];
      assert LayerBias(shape, [g], i) == [g.bias[i]];
      MatMeanSingleton(g.weights[i], shape[i + 1], shape[i]);
      VecMeanSingleton(g.bias[i], shape[i + 1]);
    }
  }

  /** A learning rate of zero leaves every parameter as it was. */
  lemma UpdateZeroRate(shape: seq<nat>, p: Params, grads: seq<Params>)
    requires Shaped(shape, p) && |grads| > 0
    requires forall j :: 0 <= j < |grads| ==> Shaped(shape, grads[j])
    ensures UpdateStep(shape, p, grads, 0.0) == p
  {
    var q := UpdateStep(shape, p, grads, 0.0);
    forall i | 0 <= i < Transitions(shape) ensures q.weights[i] == p.weights[i] && q.bias[i] == p.bias[i] {
      forall r | 0 <= r < shape[i + 1] ensures q.weights[i][r] == p.weights[i][r] {
        assert |q.weights[i][r]| == |p.weights[i][r]|;
      }
    }
    assert q.weights == p.weights;
    assert q.bias == p.bias;
  }

  /** A sample the network can train on: its image flattens to the input width and its label indexes ten entries. */
  predicate ValidSample(shape: seq<nat>, s: Sample)
  {
    |shape| > 0 && |Concat(s.image)| == shape[0] && -(Classes as int) <= s.y < Classes
  }

  /** `_y2i([y])` for a label Python can use as an index into ten entries. */
  function Target(y: int): (e: Vector)
    requires -(Classes as int) <= y < Classes
    ensures |e| == Classes
  {
    Eye(PyIndex(y, Classes).value, Classes)
  }

  /** Batches that are non-empty and hold only valid samples. */
  predicate Trainable(shape: seq<nat>, batches: seq<seq<Sample>>)
  {
    forall k :: 0 <= k < |batches| ==>
      |batches[k]| > 0 && forall j :: 0 <= j < |batches[k]| ==> ValidSample(shape, batches[k][j])
  }

  /** The first i batches of trainable batches are trainable. */
  lemma TrainablePrefix(shape: seq<nat>, batches: seq<seq<Sample>>, i: nat)
    requires Trainable(shape, batches) && i <= |batches|
    ensures Trainable(shape, batches[..i])
  {
    assert forall k :: 0 <= k < i ==> batches[..i][k] == batches[k];
  }

  /** Batching valid samples gives trainable batches: non-empty, and every item one of the samples. */
  lemma BatchesTrainable(shape: seq<nat>, data: seq<Sample>, b: nat)
    requires b > 0
    requires forall x :: x in data ==> ValidSample(shape, x)
    ensures Trainable(shape, Batches(data, b))
  {
    BatchSizes(data, b);
    BatchMembers(data, b);
  }

  /** The per-sample gradients of one batch, in order (lines 118-121). */
  function BatchGradients(shape: seq<nat>, p: Params, cfg: Config, batch: seq<Sample>): (gs: seq<Params>)
    requires Ready(shape, p, cfg) && shape[|shape| - 1] == Classes
    requires forall j :: 0 <= j < |batch| ==> ValidSample(shape, batch[j])
    ensures |gs| == |batch|
    ensures forall j {:trigger gs[j]} :: 0 <= j < |batch| ==>
              ValidSample(shape, batch[j]) && gs[j] == Backprop(shape, p, cfg, batch[j].image, Target(batch[j].y))
  {
    seq(|batch|, j requires 0 <= j < |batch| =>
      assert ValidSample(shape, batch[j]);
      Backprop(shape, p, cfg, batch[j].image, Target(batch[j].y)))
  }

  /** The gradients of a longer prefix of a batch extend those of the shorter one by one gradient. */
  lemma BatchGradientsSnoc(shape: seq<nat>, p: Params, cfg: Config, batch: seq<Sample>, n: nat)
    requires Ready(shape, p, cfg) && shape[|shape| - 1] == Classes && n < |batch|
    requires forall j :: 0 <= j < |batch| ==> ValidSample(shape, batch[j])
    ensures ValidSample(shape, batch[n])
    ensures BatchGradients(shape, p, cfg, batch[..n + 1]) ==
            BatchGradients(shape, p, cfg, batch[..n]) + [Backprop(shape, p, cfg, batch[n].image, Target(batch[n].y))]
  {
    assert ValidSample(shape, batch[n]);
    var longer := BatchGradients(shape, p, cfg, batch[..n + 1]);
    var shorter := BatchGradients(shape, p, cfg, batch[..n]);
    forall j | 0 <= j < n ensures longer[j] == shorter[j] {
      assert batch[..n + 1][j] == batch[..n][j];
    }
  }

  /** One mini-batch step: gradients of the batch at the current parameters, then the averaged update. */
  function BatchStep(shape: seq<nat>, p: Params, cfg: Config, batch: seq<Sample>, eta: real): (q: Params)
    requires Ready(shape, p, cfg) && shape[|shape| - 1] == Classes && |batch| > 0
    requires forall j :: 0 <= j < |batch| ==> ValidSample(shape, batch[j])
    ensures Shaped(shape, q)
  {
    UpdateStep(shape, p, BatchGradients(shape, p, cfg, batch), eta)
  }

  /** The parameters after one step per batch, in order. */
  function RunBatches(shape: seq<nat>, p: Params, cfg: Config, batches: seq<seq<Sample>>, eta: real): (q: Params)
    requires Ready(shape, p, cfg) && shape[|shape| - 1] == Classes && Trainable(shape, batches)
    ensures Shaped(shape, q)
  {
    if |batches| == 0 then p
    else BatchStep(shape, RunBatches(shape, p, cfg, batches[..|batches| - 1], eta), cfg, batches[|batches| - 1], eta)
  }

  /** Running one more batch is one more step after the run over the batches before it. */
  lemma RunBatchesSnoc(shape: seq<nat>, p: Params, cfg: Config, batches: seq<seq<Sample>>, eta: real, i: nat)
    requires Ready(shape, p, cfg) && shape[|shape| - 1] == Classes && Trainable(shape, batches) && i < |batches|
    ensures Trainable(shape, batches[..i]) && Trainable(shape, batches[..i + 1])
    ensures Ready(shape, RunBatches(shape, p, cfg, batches[..i], eta), cfg)
    ensures |batches[i]| > 0 && forall j :: 0 <= j < |batches[i]| ==> ValidSample(shape, batches[i][j])
    ensures RunBatches(shape, p, cfg, batches[..i + 1], eta) ==
            BatchStep(shape, RunBatches(shape, p, cfg, batches[..i], eta), cfg, batches[i], eta)
  {
    TrainablePrefix(shape, batches, i);
    TrainablePrefix(shape, batches, i + 1);
    assert batches[..i + 1][..i] == batches[..i];
  }

  /** Concatenated trainable batch lists are trainable. */
  lemma TrainableAppend(shape: seq<nat>, xs: seq<seq<Sample>>, ys: seq<seq<Sample>>)
    requires Trainable(shape, xs) && Trainable(shape, ys)
    ensures Trainable(shape, xs + ys)
  {
    forall k | 0 <= k < |xs + ys|
      ensures |(xs + ys)[k]| > 0 && forall j :: 0 <= j < |(xs + ys)[k]| ==> ValidSample(shape, (xs + ys)[k][j])
    {
      if k < |xs| {
        assert (xs + ys)[k] == xs[k];
      } else {
        assert (xs + ys)[k] == ys[k - |xs|];
      }
    }
  }

  /** Running the batches of `xs + ys` is running those of `xs`, then those of `ys` from where `xs` ended. */
  lemma {:induction false} RunBatchesAppend(shape: seq<nat>, p: Params, cfg: Config, xs: seq<seq<Sample>>,
                                            ys: seq<seq<Sample>>, eta: real)
    requires Ready(shape, p, cfg) && shape[|shape| - 1] == Classes
    requires Trainable(shape, xs) && Trainable(shape, ys)
    ensures Trainable(shape, xs + ys) && Ready(shape, RunBatches(shape, p, cfg, xs, eta), cfg)
    ensures RunBatches(shape, p, cfg, xs + ys, eta) ==
            RunBatches(shape, RunBatches(shape, p, cfg, xs, eta), cfg, ys, eta)
    decreases |ys|
  {
    TrainableAppend(shape, xs, ys);
    if |ys| == 0 {
      assert xs + ys == xs;
    } else {
      TrainablePrefix(shape, ys, |ys| - 1);
      RunBatchesAppend(shape, p, cfg, xs, ys[..|ys| - 1], eta);
      AppendOneMore(shape, p, cfg, xs, ys, eta);
    }
  }

  /** The step of RunBatchesAppend: if it holds for `ys` without its last batch, it holds for `ys`. */
  lemma AppendOneMore(shape: seq<nat>, p: Params, cfg: Config, xs: seq<seq<Sample>>, ys: seq<seq<Sample>>, eta: real)
    requires Ready(shape, p, cfg) && shape[|shape| - 1] == Classes
    requires Trainable(shape, xs) && Trainable(shape, ys) && |ys| > 0
    requires Trainable(shape, xs + ys) && Trainable(shape, ys[..|ys| - 1]) && Trainable(shape, xs + ys[..|ys| - 1])
    requires RunBatches(shape, p, cfg, xs + ys[..|ys| - 1], eta) ==
             RunBatches(shape, RunBatches(shape, p, cfg, xs, eta), cfg, ys[..|ys| - 1], eta)
    ensures RunBatches(shape, p, cfg, xs + ys, eta) ==
            RunBatches(shape, RunBatches(shape, p, cfg, xs, eta), cfg, ys, eta)
  {
    var n := |ys|;
    assert (xs + ys)[..|xs + ys| - 1] == xs + ys[..n - 1];
    assert (xs + ys)[|xs + ys| - 1] == ys[n - 1];
  }

  /** The batch order of `epochs` epochs: the same batches once per epoch (they are built once, before the epoch loop). */
  function Schedule(batches: seq<seq<Sample>>, epochs: nat): (s: seq<seq<Sample>>)
    ensures |s| == epochs * |batches|
  {
    if epochs == 0 then [] else Schedule(batches, epochs - 1) + batches
  }

  lemma {:induction false} ScheduleTrainable(shape: seq<nat>, batches: seq<seq<Sample>>, epochs: nat)
    requires Trainable(shape, batches)
    ensures Trainable(shape, Schedule(batches, epochs))
  {
    if epochs > 0 {
      ScheduleTrainable(shape, batches, epochs - 1);
      TrainableAppend(shape, Schedule(batches, epochs - 1), batches);
    }
  }

  /** The parameters after `epochs` passes over the same batches, one pass after another. */
  function RunEpochs(shape: seq<nat>, p: Params, cfg: Config, batches: seq<seq<Sample>>, eta: real, epochs: nat): (q: Params)
    requires Ready(shape, p, cfg) && shape[|shape| - 1] == Classes && Trainable(shape, batches)
    ensures Shaped(shape, q)
  {
    if epochs == 0 then p else RunBatches(shape, RunEpochs(shape, p, cfg, batches, eta, epochs - 1), cfg, batches, eta)
  }

  /** `epochs` passes are one run over the whole schedule: the batch list repeated `epochs` times. */
  lemma {:induction false} RunEpochsSchedule(shape: seq<nat>, p: Params, cfg: Config, batches: seq<seq<Sample>>, eta: real,
                                             epochs: nat)
    requires Ready(shape, p, cfg) && shape[|shape| - 1] == Classes && Trainable(shape, batches)
    ensures Trainable(shape, Schedule(batches, epochs))
    ensures RunEpochs(shape, p, cfg, batches, eta, epochs) == RunBatches(shape, p, cfg, Schedule(batches, epochs), eta)
  {
    ScheduleTrainable(shape, batches, epochs);
    if epochs > 0 {
      RunEpochsSchedule(shape, p, cfg, batches, eta, epochs - 1);
      OneMoreEpoch(shape, p, cfg, batches, eta, epochs);
    }
  }

  /** The step of RunEpochsSchedule: if it holds for `epochs - 1` epochs, it holds for `epochs`. */
  lemma OneMoreEpoch(shape: seq<nat>, p: Params, cfg: Config, batches: seq<seq<Sample>>, eta: real, epochs: nat)
    requires Ready(shape, p, cfg) && shape[|shape| - 1] == Classes && Trainable(shape, batches) && epochs > 0
    requires Trainable(shape, Schedule(batches, epochs - 1)) && Trainable(shape, Schedule(batches, epochs))
    requires RunEpochs(shape, p, cfg, batches, eta, epochs - 1) == RunBatches(shape, p, cfg, Schedule(batches, epochs - 1), eta)
    ensures RunEpochs(shape, p, cfg, batches, eta, epochs) == RunBatches(shape, p, cfg, Schedule(batches, epochs), eta)
  {
    RunBatchesAppend(shape, p, cfg, Schedule(batches, epochs - 1), batches, eta);
  }

  /** A run over no batches changes nothing, however many epochs it has. */
  lemma {:induction false} RunEpochsNoBatches(shape: seq<nat>, p: Params, cfg: Config, eta: real, epochs: nat)
    requires Ready(shape, p, cfg) && shape[|shape| - 1] == Classes
    ensures RunEpochs(shape, p, cfg, [], eta, epochs) == p
  {
    if epochs > 0 {
      RunEpochsNoBatches(shape, p, cfg, eta, epochs - 1);
    }
  }

  /** `zip(images, ys)`: pairs up to the shorter of the two lists. */
  function Pairs(images: seq<Matrix>, ys: seq<int>): (d: seq<Sample>)
    ensures |d| == Min(|images|, |ys|)
    ensures forall i :: 0 <= i < |d| ==> d[i] == Sample(images[i], ys[i])
  {
    seq(Min(|images|, |ys|), i requires 0 <= i < Min(|images|, |ys|) => Sample(images[i], ys[i]))
  }

  /**
   * `_cost(y, result)` (line 59): half the sum of squared differences; it is
   * never negative, and it is zero exactly when the prediction equals the target.
   */
  function Cost(y: Vector, result: Vector): (c: real)
    requires |y| == |result|
    ensures c >= 0.0
    ensures c == 0.0 <==> result == y
  {
    DistanceZero(y, result);
    Sum(Hadamard(Sub(result, y), Sub(result, y))) / 2.0
  }

  lemma DistanceZero(y: Vector, result: Vector)
    requires |y| == |result|
    ensures Sum(Hadamard(Sub(result, y), Sub(result, y))) >= 0.0
    ensures Sum(Hadamard(Sub(result, y), Sub(result, y))) == 0.0 <==> result == y
  {
    var d := Sub(result, y);
    SumOfSquares(d);
    if forall i :: 0 <= i < |d| ==> d[i] == 0.0 {
      assert forall i :: 0 <= i < |d| ==> result[i] == y[i];
      assert result == y;
    }
  }

  /** The total cost of the first m prediction/target pairs (the loop of lines 157-158). */
  function TotalCost(preds: seq<Vector>, trues: seq<Vector>, m: nat): (c: real)
    requires m <= |preds| && m <= |trues|
    requires forall i :: 0 <= i < m ==> |preds[i]| == |trues[i]|
    ensures c >= 0.0
    ensures c == 0.0 <==> forall i :: 0 <= i < m ==> preds[i] == trues[i]
  {
    if m == 0 then 0.0
    else TotalCost(preds, trues, m - 1) + Cost(trues[m - 1], preds[m - 1])
  }

  /** Every image of the list flattens to the input width. */
  predicate Flattens(shape: seq<nat>, images: seq<Matrix>)
  {
    |shape| > 0 && forall i :: 0 <= i < |images| ==> |Concat(images[i])| == shape[0]
  }

  /**
   * Cross-validation data that `evaluate` accepts without raising: every
   * image flattens to the input width, there is an image, and the labels encode.
   */
  predicate Evaluable(shape: seq<nat>, images: seq<Matrix>, ys: seq<int>)
  {
    Flattens(shape, images) && |images| > 0 && LabelsToActivations(ys).Some?
  }

  /** The network output for every image, in order (line 154). */
  function Predictions(shape: seq<nat>, p: Params, cfg: Config, images: seq<Matrix>): (ps: seq<Vector>)
    requires Ready(shape, p, cfg) && Flattens(shape, images)
    ensures |ps| == |images|
    ensures forall i :: 0 <= i < |images| ==> |ps[i]| == shape[|shape| - 1]
    ensures forall i :: 0 <= i < |images| ==> ps[i] == Output(shape, p, cfg, images[i])
  {
    seq(|images|, i requires 0 <= i < |images| => Output(shape, p, cfg, images[i]))
  }

  /** The predicted class of every output vector (line 162). */
  function Classify(ps: seq<Vector>): (cs: seq<nat>)
    requires forall i :: 0 <= i < |ps| ==> |ps[i]| > 0
    ensures |cs| == |ps| && forall i :: 0 <= i < |ps| ==> cs[i] == ArgMax(ps[i])
  {
    seq(|ps|, i requires 0 <= i < |ps| => ArgMax(ps[i]))
  }

  /** What `evaluate` returns: the mean cost and the accuracy. */
  datatype Score = Score(cost: real, accuracy: real)

  /** The total cost over the first m pairs divided by the number n of labels (line 159). */
  function MeanCost(preds: seq<Vector>, trues: seq<Vector>, m: nat, n: nat): (c: real)
    requires m <= |preds| && m <= |trues| && n > 0
    requires forall i :: 0 <= i < m ==> |preds[i]| == |trues[i]|
    ensures c >= 0.0
    ensures c == 0.0 <==> forall i :: 0 <= i < m ==> preds[i] == trues[i]
  {
    var total := TotalCost(preds, trues, m);
    QuotientZero(total, n);
    total / (n as real)
  }

  lemma QuotientZero(x: real, n: nat)
    requires x >= 0.0 && n > 0
    ensures x / (n as real) >= 0.0
    ensures x / (n as real) == 0.0 <==> x == 0.0
  {
  }

  /**
   * The summary of predictions against encoded targets and labels: the mean
   * cost over the zipped pairs divided by the number of labels, and the
   * accuracy over the zipped pairs. None when there is no pair, where the
   * accuracy would divide by zero.
   */
  function Summarize(ps: seq<Vector>, trues: seq<Vector>, ys: seq<int>): (r: Option<Score>)
    requires |trues| == |ys|
    requires forall i :: 0 <= i < |ps| ==> |ps[i]| == Classes
    requires forall i :: 0 <= i < |trues| ==> |trues[i]| == Classes
    ensures r.Some? <==> |ps| > 0 && |ys| > 0
    ensures r.Some? ==> r.value.cost >= 0.0 && 0.0 <= r.value.accuracy <= 1.0
    ensures r.Some? ==> (r.value.cost == 0.0 <==> forall i :: 0 <= i < Min(|ps|, |ys|) ==> ps[i] == trues[i])
    ensures r.Some? ==> (r.value.accuracy == 1.0 <==> forall i :: 0 <= i < Min(|ps|, |ys|) ==> ArgMax(ps[i]) == ys[i])
    ensures r.Some? ==> (r.value.accuracy == 0.0 <==> forall i :: 0 <= i < Min(|ps|, |ys|) ==> ArgMax(ps[i]) != ys[i])
  {
    var m := Min(|ps|, |ys|);
    if m == 0 then None
    else Some(Score(MeanCost(ps, trues, m, |ys|), Accuracy(Classify(ps), ys, m)))
  }

  /**
   * `evaluate(images, y)`: the labels encoded as targets (None when that
   * raises), then the summary of the network outputs against them.
   */
  function Evaluation(shape: seq<nat>, p: Params, cfg: Config, images: seq<Matrix>, ys: seq<int>): (r: Option<Score>)
    requires Ready(shape, p, cfg) && shape[|shape| - 1] == Classes && Flattens(shape, images)
    ensures r.Some? <==> LabelsToActivations(ys).Some? && |images| > 0
    ensures LabelsToActivations(ys).Some? ==>
              r == Summarize(Predictions(shape, p, cfg, images), LabelsToActivations(ys).value, ys)
  {
    var trues := LabelsToActivations(ys);
    if trues.None? then None
    else Summarize(Predictions(shape, p, cfg, images), trues.value, ys)
  }
}
