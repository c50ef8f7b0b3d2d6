/** What one training step computes, as functions of the network's state:
    the forward pass, the output-layer error, the error list backpropagation
    builds (last layer first), the gradients accumulated over a mini-batch,
    the update of every weight and bias, and training over batches and epochs.
    The class in classifier.dfy computes these with the source's loops. */
module Propagation {
  import opened Linear
  import opened Layout
  import opened Minibatch

  /** A labelled training image: its class and its (normalised) pixels. */
  datatype Image = Image(digit: int, pixels: Vector)

  // -------------------------------------------------------------- forward pass

  /** Σ_{k < n} u[k] * v[k], accumulated from k = 0 upwards. */
  function Dot(u: Vector, v: Vector, n: nat): real
    requires n <= |u| && n <= |v|
  {
    if n == 0 then 0.0 else Dot(u, v, n - 1) + u[n - 1] * v[n - 1]
  }

  /** `f` applied to every entry (the source's `activations` for the
      sigmoid, `sigmoidPrimeVec` for its derivative). */
  function Mapped(f: real -> real, z: Vector): Vector {
    seq(|z|, i requires 0 <= i < |z| => f(z[i]))
  }

  /** The z values of `layer` (counted from 1, the first layer after the
      input): z[n] = Σ_p weights[layer-1][n][p] * inputs[p] + biases[layer-1][n],
      p running over the neurons of the previous layer only. */
  function LayerZ(net: Network, inputs: Vector, layer: nat): Vector
    requires net.Shaped() && 1 <= layer < |net.structure|
    requires net.structure[layer - 1] <= |inputs|
  {
    var rows, cols := net.structure[layer], net.structure[layer - 1];
    seq(rows, n requires 0 <= n < rows =>
      Dot(net.weights[layer - 1][n], inputs, cols) + net.biases[layer - 1][n])
  }

  lemma {:induction false} DotAsDotColumn(u: Vector, v: Vector, n: nat)
    requires n <= |u| && n <= |v|
    ensures DotColumn(u, Column(v), 0, n) == Dot(u, v, n)
  {
    if n > 0 {
      DotAsDotColumn(u, v, n - 1);
    }
  }

  /** The per-layer loop is the matrix-vector product W·x + b, with x taken
      as a one-column matrix. */
  lemma LayerZAsProduct(net: Network, inputs: Vector, layer: nat)
    requires net.Shaped() && 1 <= layer < |net.structure|
    requires net.structure[layer - 1] <= |inputs| && 0 < |inputs|
    ensures Multipliable(net.weights[layer - 1], Column(inputs))
    ensures forall n :: 0 <= n < net.structure[layer] ==>
              LayerZ(net, inputs, layer)[n]
              == Product(net.weights[layer - 1], Column(inputs))[n][0] + net.biases[layer - 1][n]
  {
    var w := net.weights[layer - 1];
    var cols := net.structure[layer - 1];
    assert Rectangular(w, net.structure[layer], cols);
    forall n | 0 <= n < net.structure[layer]
      ensures LayerZ(net, inputs, layer)[n] == Product(w, Column(inputs))[n][0] + net.biases[layer - 1][n]
    {
      DotAsDotColumn(w[n], inputs, cols);
    }
  }

  /** The activations after the first k layers; k == 0 gives the inputs. */
  function Propagated(net: Network, inputs: Vector, k: nat): (a: Vector)
    requires net.Shaped() && k < |net.structure|
    requires k > 0 ==> net.structure[0] <= |inputs|
    ensures k > 0 ==> |a| == net.structure[k]
    decreases k
  {
    if k == 0 then inputs
    else Mapped(net.sigmoid, LayerZ(net, Propagated(net, inputs, k - 1), k))
  }

  /** The final activations `classify` ranks. */
  function Output(net: Network, inputs: Vector): Vector
    requires net.Shaped() && |net.structure| > 0
    requires |net.structure| > 1 ==> net.structure[0] <= |inputs|
  {
    Propagated(net, inputs, |net.structure| - 1)
  }

  /** `zs` holds one z vector per layer after the input: zs[i] for layer i + 1. */
  predicate ZShaped(net: Network, zs: seq<Vector>) {
    |zs| + 1 == |net.structure| &&
    forall i :: 0 <= i < |zs| ==> |zs[i]| == net.structure[i + 1]
  }

  /** The z values `updateSystem` caches during its forward pass. */
  function ZValues(net: Network, inputs: Vector): (zs: seq<Vector>)
    requires net.Shaped() && |net.structure| > 1 && net.structure[0] <= |inputs|
    ensures ZShaped(net, zs)
  {
    seq(|net.structure| - 1, i requires 0 <= i < |net.structure| - 1 =>
      LayerZ(net, Propagated(net, inputs, i), i + 1))
  }

  /** The z values cached by the training pass agree with the forward
      pass of the classifier: the activations of layer k + 1 are the
      sigmoid of zs[k], so the output is the sigmoid of the last z vector. */
  lemma {:induction false} ActivationsFromZValues(net: Network, inputs: Vector)
    requires net.Shaped() && |net.structure| > 1 && net.structure[0] <= |inputs|
    ensures forall k :: 0 <= k < |net.structure| - 1 ==>
              Propagated(net, inputs, k + 1) == Mapped(net.sigmoid, ZValues(net, inputs)[k])
    ensures Output(net, inputs) == Mapped(net.sigmoid, ZValues(net, inputs)[|net.structure| - 2])
  {
    var zs := ZValues(net, inputs);
    forall k | 0 <= k < |net.structure| - 1
      ensures Propagated(net, inputs, k + 1) == Mapped(net.sigmoid, zs[k])
    {
      assert zs[k] == LayerZ(net, Propagated(net, inputs, k), k + 1);
    }
  }

  // ---------------------------------------------------------- output error

  /** The digit as a vector: 1 at `digit` and 0 elsewhere (all 0 when the
      digit is not a class index). */
  function OneHot(digit: int, size: nat): seq<int> {
    seq(size, i => if i == digit then 1 else 0)
  }

  /** (sigmoid(z) - y) ⊙ sigmoid'(z), the source's `lastLayerError`. */
  function OutputError(net: Network, z: Vector, y: seq<int>): Vector
    requires |z| <= |y|
  {
    HadamardOf(seq(|z|, i requires 0 <= i < |z| => net.sigmoid(z[i]) - y[i] as real),
               Mapped(net.sigmoidPrime, z))
  }

  /** The output error entry by entry. */
  lemma OutputErrorAt(net: Network, z: Vector, y: seq<int>)
    requires |z| <= |y|
    ensures |OutputError(net, z, y)| == |z|
    ensures forall i :: 0 <= i < |z| ==>
              OutputError(net, z, y)[i] == (net.sigmoid(z[i]) - y[i] as real) * net.sigmoidPrime(z[i])
  {
  }

  // ----------------------------------------------------------- backpropagation

  /** A network that `updateSystem` can train: the layout invariant, at least
      an input and an output layer, and, when there are hidden layers to
      backpropagate through, no empty layer after the input (`transpose`
      needs a first row). */
  predicate Trainable(net: Network) {
    net.Shaped() && |net.structure| > 1 &&
    (|net.structure| > 2 ==> forall i :: 1 <= i < |net.structure| ==> net.structure[i] > 0)
  }

  /** One step of `backpropagate` for hidden layer `layer` (an index into
      zs): (Wᵗ·δ) ⊙ sigmoid'(z), with W the weights into the next layer and
      δ that layer's error. Entry i is Σ_n W[n][i] * δ[n] times
      sigmoid'(z[i]). The source gets Wᵗ·δ by transposing W, multiplying by
      δ as a column and transposing back; `TransposedTimesColumn` shows that
      this chain computes the same vector. */
  function BackStep(net: Network, layer: nat, preError: Vector, zs: seq<Vector>): (e: Vector)
    requires Trainable(net) && layer + 2 < |net.structure|
    requires |preError| == net.structure[layer + 2] && ZShaped(net, zs)
  {
    var w := net.weights[layer + 1];
    assert Rectangular(w, net.structure[layer + 2], net.structure[layer + 1]);
    seq(net.structure[layer + 1], i requires 0 <= i < net.structure[layer + 1] =>
      TransposedDot(w, preError, i, net.structure[layer + 2]) * net.sigmoidPrime(zs[layer][i]))
  }

  /** The source's chain for one step, transpose(transpose(W)·transpose([δ]))[0]
      ⊙ sigmoid'(z), is well defined on a trainable network and computes
      `BackStep`. */
  lemma BackStepAsChain(net: Network, layer: nat, preError: Vector, zs: seq<Vector>)
    requires Trainable(net) && layer + 2 < |net.structure|
    requires |preError| == net.structure[layer + 2] && ZShaped(net, zs)
    ensures Transposable([preError]) && Transposed([preError]) == Column(preError)
    ensures var w := net.weights[layer + 1];
            Transposable(w) && Multipliable(Transposed(w), Column(preError)) &&
            Transposable(Product(Transposed(w), Column(preError))) &&
            |Transposed(Product(Transposed(w), Column(preError)))| > 0 &&
            |Transposed(Product(Transposed(w), Column(preError)))[0]| == |zs[layer]| &&
            HadamardOf(Transposed(Product(Transposed(w), Column(preError)))[0], Mapped(net.sigmoidPrime, zs[layer]))
            == BackStep(net, layer, preError, zs)
  {
    var w := net.weights[layer + 1];
    assert Rectangular(w, net.structure[layer + 2], net.structure[layer + 1]);
    assert net.structure[layer + 1] > 0 && net.structure[layer + 2] > 0;
    TransposedRow(preError);
    TransposedTimesColumn(w, preError);
    var chain := Transposed(Product(Transposed(w), Column(preError)))[0];
    var h := HadamardOf(chain, Mapped(net.sigmoidPrime, zs[layer]));
    var e := BackStep(net, layer, preError, zs);
    forall i | 0 <= i < net.structure[layer + 1]
      ensures h[i] == e[i]
    {
      assert chain[i] == TransposedDot(w, preError, i, |w|);
    }
  }

  /** The errors `backpropagate(layer, preError, ...)` appends: one per
      hidden layer from `layer` down to 0, stopping at -1. */
  function BackErrors(net: Network, layer: int, preError: Vector, zs: seq<Vector>): (errs: seq<Vector>)
    requires Trainable(net) && -1 <= layer && layer + 2 < |net.structure|
    requires |preError| == net.structure[layer + 2] && ZShaped(net, zs)
    ensures |errs| == layer + 1
    ensures forall k :: 0 <= k < |errs| ==> |errs[k]| == net.structure[layer + 1 - k]
    decreases layer + 1
  {
    if layer == -1 then []
    else
      var e := BackStep(net, layer, preError, zs);
      [e] + BackErrors(net, layer - 1, e, zs)
  }

  /** Appending one step's error and then the errors below it appends
      the errors from this layer down. */
  lemma BackErrorsAppend(net: Network, layer: nat, preError: Vector, zs: seq<Vector>, before: seq<Vector>)
    requires Trainable(net) && layer + 2 < |net.structure|
    requires |preError| == net.structure[layer + 2] && ZShaped(net, zs)
    ensures before + [BackStep(net, layer, preError, zs)]
              + BackErrors(net, layer - 1, BackStep(net, layer, preError, zs), zs)
         == before + BackErrors(net, layer, preError, zs)
  {
  }

  /** `errs` holds one error vector per layer after the input, last layer
      first, so errs[|errs| - 1 - l] belongs to weights[l] and biases[l]. */
  predicate ErrorsShaped(net: Network, errs: seq<Vector>) {
    |errs| + 1 == |net.structure| &&
    forall k :: 0 <= k < |errs| ==> |errs[k]| == net.structure[|errs| - k]
  }

  /** The error list `updateSystem` builds for one image: the output error,
      then what `backpropagate` appends from layer |structure| - 3 down. */
  function Errors(net: Network, inputs: Vector, digit: int): (errs: seq<Vector>)
    requires Trainable(net) && net.structure[0] <= |inputs|
    ensures ErrorsShaped(net, errs)
  {
    var s := net.structure;
    var zs := ZValues(net, inputs);
    var last := OutputError(net, zs[|zs| - 1], OneHot(digit, s[|s| - 1]));
    [last] + BackErrors(net, |s| - 3, last, zs)
  }

  /** The error list runs from the output layer down: it holds one entry
      per layer after the input, its first entry is the output error, and
      each later entry is a backpropagation step from the one before it. */
  lemma {:induction false} ErrorsLastLayerFirst(net: Network, inputs: Vector, digit: int)
    requires Trainable(net) && net.structure[0] <= |inputs|
    ensures |Errors(net, inputs, digit)| == |net.structure| - 1
    ensures Errors(net, inputs, digit)[0]
         == OutputError(net, ZValues(net, inputs)[|net.structure| - 2],
                        OneHot(digit, net.structure[|net.structure| - 1]))
    ensures forall k :: 1 <= k < |net.structure| - 1 ==>
              Errors(net, inputs, digit)[k]
              == BackStep(net, |net.structure| - 2 - k, Errors(net, inputs, digit)[k - 1], ZValues(net, inputs))
  {
    var s := net.structure;
    var zs := ZValues(net, inputs);
    var last := OutputError(net, zs[|zs| - 1], OneHot(digit, s[|s| - 1]));
    BackErrorsSteps(net, |s| - 3, last, zs);
  }

  lemma {:induction false} BackErrorsSteps(net: Network, layer: int, preError: Vector, zs: seq<Vector>)
    requires Trainable(net) && -1 <= layer && layer + 2 < |net.structure|
    requires |preError| == net.structure[layer + 2] && ZShaped(net, zs)
    ensures forall k :: 1 <= k < layer + 2 ==>
              ([preError] + BackErrors(net, layer, preError, zs))[k]
              == BackStep(net, layer + 1 - k, ([preError] + BackErrors(net, layer, preError, zs))[k - 1], zs)
    decreases layer + 1
  {
    if layer >= 0 {
      var e := BackStep(net, layer, preError, zs);
      BackErrorsSteps(net, layer - 1, e, zs);
      var all := [preError] + BackErrors(net, layer, preError, zs);
      var rest := [e] + BackErrors(net, layer - 1, e, zs);
      assert all == [preError] + rest;
      forall k | 2 <= k < layer + 2
        ensures all[k] == BackStep(net, layer + 1 - k, all[k - 1], zs)
      {
        assert all[k] == rest[k - 1] && all[k - 1] == rest[k - 2];
      }
    }
  }

  // -------------------------------------------------------------- gradients

  /** Every image of the list has at least as many pixels as the input
      layer has neurons (the forward pass reads that many). */
  predicate Fits(structure: seq<nat>, images: seq<Image>) {
    |structure| > 0 &&
    forall i :: 0 <= i < |images| ==> structure[0] <= |images[i].pixels|
  }

  /** What `updateSystem` has at hand for one image once it has run the
      forward and the backward pass: the pixels, the error list (last
      layer first) and the z values of every layer after the input. */
  datatype Sample = Sample(inputs: Vector, errs: seq<Vector>, zs: seq<Vector>)

  /** The sample has one error vector and one z vector per layer after the
      input, of that layer's size, and its pixels cover the input layer. */
  predicate SampleFits(net: Network, smp: Sample) {
    ErrorsShaped(net, smp.errs) && ZShaped(net, smp.zs) && net.structure[0] <= |smp.inputs|
  }

  /** Every sample of the list fits the network. */
  predicate AllFit(net: Network, smps: seq<Sample>) {
    forall i :: 0 <= i < |smps| ==> SampleFits(net, smps[i])
  }

  /** The sample of one image: its pixels, `Errors` and `ZValues`. */
  function SampleOf(net: Network, img: Image): (smp: Sample)
    requires Trainable(net) && net.structure[0] <= |img.pixels|
    ensures SampleFits(net, smp)
  {
    Sample(img.pixels, Errors(net, img.pixels, img.digit), ZValues(net, img.pixels))
  }

  /** The samples of a mini-batch, image by image. */
  function Samples(net: Network, mini: seq<Image>): (smps: seq<Sample>)
    requires Trainable(net) && Fits(net.structure, mini)
    ensures |smps| == |mini| && AllFit(net, smps)
  {
    seq(|mini|, i requires 0 <= i < |mini| => SampleOf(net, mini[i]))
  }

  /** The activation feeding weights[l][.][p]: the raw input for l == 0,
      sigmoid of the cached z value of layer l otherwise. */
  function PreActivation(net: Network, inputs: Vector, zs: seq<Vector>, l: nat, p: nat): real
    requires ZShaped(net, zs) && l < |zs| && p < net.structure[l]
    requires l == 0 ==> p < |inputs|
  {
    if l == 0 then inputs[p] else net.sigmoid(zs[l - 1][p])
  }

  /** For an image's own z values, the activation feeding weights[l][.][p]
      is entry p of the forward pass after l layers. */
  lemma PreActivationIsActivation(net: Network, inputs: Vector, l: nat, p: nat)
    requires net.Shaped() && |net.structure| > 1 && net.structure[0] <= |inputs|
    requires l + 1 < |net.structure| && p < net.structure[l]
    ensures PreActivation(net, inputs, ZValues(net, inputs), l, p) == Propagated(net, inputs, l)[p]
  {
    if l > 0 {
      ActivationsFromZValues(net, inputs);
    }
  }

  /** What one sample adds to the accumulator of weights[l][n][p]: the
      error of neuron n of layer l + 1 times the activation of neuron p of
      layer l. */
  function WeightTerm(net: Network, smp: Sample, l: nat, n: nat, p: nat): real
    requires SampleFits(net, smp)
    requires l + 1 < |net.structure| && n < net.structure[l + 1] && p < net.structure[l]
  {
    smp.errs[|smp.errs| - 1 - l][n] * PreActivation(net, smp.inputs, smp.zs, l, p)
  }

  /** What one sample adds to the accumulator of biases[l][n]: the error of
      neuron n of layer l + 1. */
  function BiasTerm(net: Network, smp: Sample, l: nat, n: nat): real
    requires SampleFits(net, smp)
    requires l + 1 < |net.structure| && n < net.structure[l + 1]
  {
    smp.errs[|smp.errs| - 1 - l][n]
  }

  /** `a` and `b` are weight tensors of the same shape. */
  predicate SameShape(a: seq<Matrix>, b: seq<Matrix>) {
    |a| == |b| &&
    forall l :: 0 <= l < |a| ==>
      |a[l]| == |b[l]| && forall n :: 0 <= n < |a[l]| ==> |a[l][n]| == |b[l][n]|
  }

  /** `a` and `b` are lists of vectors of the same lengths. */
  predicate SameLengths(a: seq<Vector>, b: seq<Vector>) {
    |a| == |b| && forall l :: 0 <= l < |a| ==> |a[l]| == |b[l]|
  }

  /** Zeros in the shape of `w`. */
  function ZerosLike(w: seq<Matrix>): seq<Matrix> {
    seq(|w|, l requires 0 <= l < |w| =>
      seq(|w[l]|, n requires 0 <= n < |w[l]| =>
        seq(|w[l][n]|, _ => 0.0)))
  }

  /** Zeros in the shape of `b`. */
  function ZeroVectorsLike(b: seq<Vector>): seq<Vector> {
    seq(|b|, l requires 0 <= l < |b| => seq(|b[l]|, _ => 0.0))
  }

  /** The weight accumulators after one more sample. */
  function AccumulatedWeights(net: Network, wg: seq<Matrix>, smp: Sample): seq<Matrix>
    requires net.Shaped() && SameShape(wg, net.weights) && SampleFits(net, smp)
  {
    var w := net.weights;
    seq(|w|, l requires 0 <= l < |w| =>
      assert Rectangular(w[l], net.structure[l + 1], net.structure[l]);
      seq(|w[l]|, n requires 0 <= n < |w[l]| =>
        seq(|w[l][n]|, p requires 0 <= p < |w[l][n]| => wg[l][n][p] + WeightTerm(net, smp, l, n, p))))
  }

  /** The bias accumulators after one more sample. */
  function AccumulatedBiases(net: Network, bg: seq<Vector>, smp: Sample): seq<Vector>
    requires net.Shaped() && SameLengths(bg, net.biases) && SampleFits(net, smp)
  {
    var b := net.biases;
    seq(|b|, l requires 0 <= l < |b| =>
      seq(|b[l]|, n requires 0 <= n < |b[l]| => bg[l][n] + BiasTerm(net, smp, l, n)))
  }

  /** The weight accumulators after the first k samples. */
  function WeightGradients(net: Network, smps: seq<Sample>, k: nat): (g: seq<Matrix>)
    requires net.Shaped() && AllFit(net, smps) && k <= |smps|
    ensures SameShape(g, net.weights)
  {
    if k == 0 then ZerosLike(net.weights)
    else AccumulatedWeights(net, WeightGradients(net, smps, k - 1), smps[k - 1])
  }

  /** The bias accumulators after the first k samples. */
  function BiasGradients(net: Network, smps: seq<Sample>, k: nat): (g: seq<Vector>)
    requires net.Shaped() && AllFit(net, smps) && k <= |smps|
    ensures SameLengths(g, net.biases)
  {
    if k == 0 then ZeroVectorsLike(net.biases)
    else AccumulatedBiases(net, BiasGradients(net, smps, k - 1), smps[k - 1])
  }

  /** Image i of a mini-batch adds its own sample to both accumulators. */
  lemma GradientsStep(net: Network, mini: seq<Image>, i: nat)
    requires Trainable(net) && Fits(net.structure, mini) && i < |mini|
    ensures Samples(net, mini)[i] == SampleOf(net, mini[i])
    ensures WeightGradients(net, Samples(net, mini), i + 1)
         == AccumulatedWeights(net, WeightGradients(net, Samples(net, mini), i), SampleOf(net, mini[i]))
    ensures BiasGradients(net, Samples(net, mini), i + 1)
         == AccumulatedBiases(net, BiasGradients(net, Samples(net, mini), i), SampleOf(net, mini[i]))
  {
  }

  /** Σ_{i < k} of what sample i adds to weights[l][n][p]. */
  function WeightTermSum(net: Network, smps: seq<Sample>, k: nat, l: nat, n: nat, p: nat): real
    requires AllFit(net, smps) && k <= |smps|
    requires l + 1 < |net.structure| && n < net.structure[l + 1] && p < net.structure[l]
  {
    if k == 0 then 0.0 else WeightTermSum(net, smps, k - 1, l, n, p) + WeightTerm(net, smps[k - 1], l, n, p)
  }

  /** Σ_{i < k} of what sample i adds to biases[l][n]. */
  function BiasTermSum(net: Network, smps: seq<Sample>, k: nat, l: nat, n: nat): real
    requires AllFit(net, smps) && k <= |smps|
    requires l + 1 < |net.structure| && n < net.structure[l + 1]
  {
    if k == 0 then 0.0 else BiasTermSum(net, smps, k - 1, l, n) + BiasTerm(net, smps[k - 1], l, n)
  }

  /** The weight accumulators start at zero and then hold the sum of what
      the samples seen so far contribute. */
  lemma {:induction false} WeightGradientsAreSums(net: Network, smps: seq<Sample>, k: nat, l: nat, n: nat, p: nat)
    requires net.Shaped() && AllFit(net, smps) && k <= |smps|
    requires l + 1 < |net.structure| && n < net.structure[l + 1] && p < net.structure[l]
    ensures WeightGradients(net, smps, k)[l][n][p] == WeightTermSum(net, smps, k, l, n, p)
  {
    assert Rectangular(net.weights[l], net.structure[l + 1], net.structure[l]);
    if k > 0 {
      WeightGradientsAreSums(net, smps, k - 1, l, n, p);
    }
  }

  /** The bias accumulators start at zero and then hold the sum of what the
      samples seen so far contribute. */
  lemma {:induction false} BiasGradientsAreSums(net: Network, smps: seq<Sample>, k: nat, l: nat, n: nat)
    requires net.Shaped() && AllFit(net, smps) && k <= |smps|
    requires l + 1 < |net.structure| && n < net.structure[l + 1]
    ensures BiasGradients(net, smps, k)[l][n] == BiasTermSum(net, smps, k, l, n)
  {
    if k > 0 {
      BiasGradientsAreSums(net, smps, k - 1, l, n);
    }
  }

  // ------------------------------------------------------------------ update

  /** A parameter moved by -eta times its accumulated gradient divided by
      the batch size: one step of gradient descent on the batch average. */
  function Descent(x: real, g: real, eta: real, size: nat): real
    requires size > 0
  {
    x - eta * (g / size as real)
  }

  /** Every weight moved by `Descent` with its accumulated gradient. */
  function Descended(w: seq<Matrix>, g: seq<Matrix>, eta: real, size: nat): (r: seq<Matrix>)
    requires size > 0 && SameShape(g, w)
    ensures SameShape(r, w)
  {
    seq(|w|, l requires 0 <= l < |w| =>
      seq(|w[l]|, n requires 0 <= n < |w[l]| =>
        seq(|w[l][n]|, p requires 0 <= p < |w[l][n]| => Descent(w[l][n][p], g[l][n][p], eta, size))))
  }

  /** Every bias moved by `Descent` with its accumulated gradient. */
  function DescendedBiases(b: seq<Vector>, g: seq<Vector>, eta: real, size: nat): (r: seq<Vector>)
    requires size > 0 && SameLengths(g, b)
    ensures SameLengths(r, b)
  {
    seq(|b|, l requires 0 <= l < |b| =>
      seq(|b[l]|, n requires 0 <= n < |b[l]| => Descent(b[l][n], g[l][n], eta, size)))
  }

  /** Parameters of the same shape as those of a shaped network are shaped. */
  lemma ShapedLike(net: Network, w: seq<Matrix>, b: seq<Vector>)
    requires net.Shaped() && SameShape(w, net.weights) && SameLengths(b, net.biases)
    ensures net.(weights := w, biases := b).Shaped()
  {
    forall l | 0 <= l < NumLayers(net.structure)
      ensures Rectangular(w[l], net.structure[l + 1], net.structure[l])
    {
      assert Rectangular(net.weights[l], net.structure[l + 1], net.structure[l]);
    }
  }

  /** The network after `updateSystem(mini, eta)`. */
  function Updated(net: Network, mini: seq<Image>, eta: real): (r: Network)
    requires Trainable(net) && Fits(net.structure, mini) && |mini| > 0
    ensures Trainable(r) && r.structure == net.structure
    ensures r.sigmoid == net.sigmoid && r.sigmoidPrime == net.sigmoidPrime
  {
    var smps := Samples(net, mini);
    var w := Descended(net.weights, WeightGradients(net, smps, |mini|), eta, |mini|);
    var b := DescendedBiases(net.biases, BiasGradients(net, smps, |mini|), eta, |mini|);
    ShapedLike(net, w, b);
    net.(weights := w, biases := b)
  }

  /** The update is gradient descent on the batch average: every weight and
      bias moves by -eta times the mean over the batch of what each image
      contributes (error times previous activation for a weight, error for
      a bias). */
  lemma {:induction false} UpdatedAt(net: Network, mini: seq<Image>, eta: real, l: nat, n: nat, p: nat)
    requires Trainable(net) && Fits(net.structure, mini) && |mini| > 0
    requires l + 1 < |net.structure| && n < net.structure[l + 1] && p < net.structure[l]
    ensures Updated(net, mini, eta).weights[l][n][p]
         == Descent(net.weights[l][n][p], WeightTermSum(net, Samples(net, mini), |mini|, l, n, p), eta, |mini|)
    ensures Updated(net, mini, eta).biases[l][n]
         == Descent(net.biases[l][n], BiasTermSum(net, Samples(net, mini), |mini|, l, n), eta, |mini|)
  {
    assert Rectangular(net.weights[l], net.structure[l + 1], net.structure[l]);
    var smps := Samples(net, mini);
    WeightGradientsAreSums(net, smps, |mini|, l, n, p);
    BiasGradientsAreSums(net, smps, |mini|, l, n);
  }

  // ---------------------------------------------------------------- training

  /** The network after one `updateSystem` call per batch, in order. */
  function TrainBatches(net: Network, batches: seq<seq<Image>>, eta: real): (r: Network)
    requires Trainable(net)
    requires forall i :: 0 <= i < |batches| ==> |batches[i]| > 0 && Fits(net.structure, batches[i])
    ensures Trainable(r) && r.structure == net.structure
    ensures r.sigmoid == net.sigmoid && r.sigmoidPrime == net.sigmoidPrime
    decreases |batches|
  {
    if |batches| == 0 then net
    else
      var before := TrainBatches(net, batches[..|batches| - 1], eta);
      Updated(before, batches[|batches| - 1], eta)
  }

  /** Training on one more batch is one more update. */
  lemma TrainBatchesStep(net: Network, batches: seq<seq<Image>>, i: nat, eta: real)
    requires Trainable(net) && i < |batches|
    requires forall k :: 0 <= k < |batches| ==> |batches[k]| > 0 && Fits(net.structure, batches[k])
    ensures TrainBatches(net, batches[..i + 1], eta) == Updated(TrainBatches(net, batches[..i], eta), batches[i], eta)
  {
    assert batches[..i + 1][..i] == batches[..i];
  }

  /** The batches of a list that fits the network are non-empty and fit it. */
  lemma BatchesFit(net: Network, images: seq<Image>, m: int)
    requires Fits(net.structure, images)
    ensures forall i :: 0 <= i < |Batches(images, m)| ==>
              |Batches(images, m)[i]| > 0 && Fits(net.structure, Batches(images, m)[i])
  {
    if m > 0 {
      BatchSizes(images, m);
      forall i | 0 <= i < |Batches(images, m)|
        ensures Fits(net.structure, Batches(images, m)[i])
      {
        BatchAsSlice(images, m, i);
      }
    }
  }

  /** The network after one epoch over the images in `order`: one update
      per mini-batch of size m. */
  function TrainEpoch(net: Network, order: seq<Image>, m: int, eta: real): (r: Network)
    requires Trainable(net) && Fits(net.structure, order)
    ensures Trainable(r) && r.structure == net.structure
    ensures r.sigmoid == net.sigmoid && r.sigmoidPrime == net.sigmoidPrime
  {
    BatchesFit(net, order, m);
    TrainBatches(net, Batches(order, m), eta)
  }

  /** The network after the first i mini-batches of an epoch over `order`. */
  function TrainPrefix(net: Network, order: seq<Image>, m: int, i: nat, eta: real): (r: Network)
    requires Trainable(net) && Fits(net.structure, order) && i <= NumBatches(|order|, m)
    ensures Trainable(r) && r.structure == net.structure
    ensures r.sigmoid == net.sigmoid && r.sigmoidPrime == net.sigmoidPrime
  {
    BatchesFit(net, order, m);
    TrainBatches(net, Batches(order, m)[..i], eta)
  }

  /** Batch i of an epoch is non-empty, fits the network, and running it is
      one more update; the epoch is its prefix of every batch. */
  lemma TrainPrefixStep(net: Network, order: seq<Image>, m: int, i: nat, eta: real)
    requires Trainable(net) && Fits(net.structure, order) && i < NumBatches(|order|, m)
    ensures |Batches(order, m)[i]| > 0 && Fits(net.structure, Batches(order, m)[i])
    ensures TrainPrefix(net, order, m, i + 1, eta) == Updated(TrainPrefix(net, order, m, i, eta), Batches(order, m)[i], eta)
  {
    BatchesFit(net, order, m);
    TrainBatchesStep(net, Batches(order, m), i, eta);
  }

  /** The whole epoch is the prefix of all its batches. */
  lemma TrainPrefixAll(net: Network, order: seq<Image>, m: int, eta: real)
    requires Trainable(net) && Fits(net.structure, order)
    ensures TrainPrefix(net, order, m, NumBatches(|order|, m), eta) == TrainEpoch(net, order, m, eta)
  {
    assert Batches(order, m)[..NumBatches(|order|, m)] == Batches(order, m);
  }

  /** A reordering of a list that fits the network fits it too. */
  lemma ReorderFits(structure: seq<nat>, images: seq<Image>, order: seq<Image>)
    requires Fits(structure, images) && multiset(order) == multiset(images)
    ensures Fits(structure, order)
  {
    forall i | 0 <= i < |order|
      ensures structure[0] <= |order[i].pixels|
    {
      assert order[i] in multiset(order);
      assert order[i] in images;
    }
  }

  /** The network after `SGD` on `images`: for each epoch's order of the
      images (a reshuffle of them), one update per mini-batch of that order. */
  function TrainEpochs(net: Network, images: seq<Image>, orders: seq<seq<Image>>, m: int, eta: real): (r: Network)
    requires Trainable(net) && Fits(net.structure, images)
    requires forall e :: 0 <= e < |orders| ==> multiset(orders[e]) == multiset(images)
    ensures Trainable(r) && r.structure == net.structure
    ensures r.sigmoid == net.sigmoid && r.sigmoidPrime == net.sigmoidPrime
    decreases |orders|
  {
    if |orders| == 0 then net
    else
      var before := TrainEpochs(net, images, orders[..|orders| - 1], m, eta);
      var order := orders[|orders| - 1];
      ReorderFits(net.structure, images, order);
      TrainEpoch(before, order, m, eta)
  }
}
