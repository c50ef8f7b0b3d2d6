/** The classifier object: its structure, weights and biases as fields that
    its methods fill and update in place, with every method proved against
    the specification functions of Layout, Minibatch and Propagation. */
module Classifier {
  import opened Linear
  import opened Layout
  import opened Minibatch
  import opened Propagation

  /** `k` is what the source's argmax returns for `v`: 0 for an empty
      vector, otherwise an index holding the largest entry with every
      earlier entry strictly smaller (the scan only moves on a strict `>`,
      so the first maximum wins). */
  predicate IsFirstMax(v: Vector, k: nat) {
    (|v| == 0 && k == 0) ||
    (k < |v| &&
     (forall j :: 0 <= j < |v| ==> v[j] <= v[k]) &&
     (forall j :: 0 <= j < k ==> v[j] < v[k]))
  }

  /** The first-maximum property pins the answer down: there is one index
      satisfying it, whatever the entries. */
  lemma FirstMaxUnique(v: Vector, k: nat, k': nat)
    requires IsFirstMax(v, k) && IsFirstMax(v, k')
    ensures k == k'
  {
    if |v| > 0 {
      assert v[k] == v[k'];
    }
  }

  class DigitClassifier {
    /** Neuron count of every layer, the input layer first. */
    var structure: seq<nat>
    /** weights[l][n][p]: from neuron p of layer l to neuron n of layer l + 1. */
    var weights: seq<Matrix>
    /** biases[l][n]: of neuron n of layer l + 1. */
    var biases: seq<Vector>
    /** The activation function and its derivative (uninterpreted). */
    const sigmoid: real -> real
    const sigmoidPrime: real -> real

    /** The object's state as a value. */
    ghost function Net(): Network
      reads this
    {
      Network(structure, weights, biases, sigmoid, sigmoidPrime)
    }

    /** The layout invariant the constructor establishes. */
    ghost predicate Valid()
      reads this
    {
      Net().Shaped()
    }

    /** The structure constructor: stores the structure, then fills the
        parameters from the draw stream (u = rand()/RAND_MAX, one per
        weight) with weight range `radius`. */
    constructor (structure: seq<nat>, draws: seq<real>, radius: real,
                 sigmoid: real -> real, sigmoidPrime: real -> real)
      requires DrawsBefore(structure, NumLayers(structure)) <= |draws|
      requires IsRadius(structure, radius)
      ensures this.structure == structure
      ensures weights == InitialWeights(structure, radius, draws)
      ensures biases == InitialBiases(structure)
      ensures this.sigmoid == sigmoid && this.sigmoidPrime == sigmoidPrime
      ensures Valid()
    {
      this.structure := structure;
      weights := [];
      biases := [];
      this.sigmoid := sigmoid;
      this.sigmoidPrime := sigmoidPrime;
      new;
      FillSystemRandomly(draws, radius);
      InitialLayout(structure, radius, draws, sigmoid, sigmoidPrime);
    }

    /** Appends, for each layer after the input, a zero bias vector and a
        weight matrix of drawn values, consuming the draws in layer, row,
        entry order. */
    method FillSystemRandomly(draws: seq<real>, radius: real)
      requires DrawsBefore(structure, NumLayers(structure)) <= |draws|
      requires IsRadius(structure, radius)
      modifies this`weights, this`biases
      ensures weights == old(weights) + InitialWeights(structure, radius, draws)
      ensures biases == old(biases) + InitialBiases(structure)
    {
      ghost var initW := InitialWeights(structure, radius, draws);
      ghost var initB := InitialBiases(structure);
      var next := 0;
      var layer := 1;
      while layer < |structure|
        invariant 1 <= layer && layer - 1 <= NumLayers(structure)
        invariant next == DrawsBefore(structure, layer - 1)
        invariant weights == old(weights) + initW[..layer - 1]
        invariant biases == old(biases) + initB[..layer - 1]
      {
        var oneLayerOfWeights, oneLayerOfBiases;
        oneLayerOfWeights, oneLayerOfBiases, next := DrawLayer(draws, radius, layer, next);
        assert initW[..layer] == initW[..layer - 1] + [oneLayerOfWeights];
        assert initB[..layer] == initB[..layer - 1] + [oneLayerOfBiases];
        biases := biases + [oneLayerOfBiases];
        weights := weights + [oneLayerOfWeights];
        layer := layer + 1;
      }
      assert initW[..NumLayers(structure)] == initW;
      assert initB[..NumLayers(structure)] == initB;
    }

    /** One pass of the layer loop of `fillSystemRandomly`: the bias vector
        and weight matrix of `layer`, drawn from the stream from `next` on;
        returns where the next layer's draws start. */
    method DrawLayer(draws: seq<real>, radius: real, layer: nat, next: nat)
        returns (oneLayerOfWeights: Matrix, oneLayerOfBiases: Vector, next': nat)
      requires 1 <= layer < |structure| && DrawsBefore(structure, NumLayers(structure)) <= |draws|
      requires next == DrawsBefore(structure, layer - 1)
      ensures oneLayerOfWeights == InitialWeights(structure, radius, draws)[layer - 1]
      ensures oneLayerOfBiases == InitialBiases(structure)[layer - 1]
      ensures next' == DrawsBefore(structure, layer)
    {
      ghost var initW := InitialWeights(structure, radius, draws)[layer - 1];
      ghost var initB := InitialBiases(structure)[layer - 1];
      oneLayerOfBiases := [];
      oneLayerOfWeights := [];
      next' := next;
      var rows, cols := structure[layer], structure[layer - 1];
      DrawIndexStep(structure, layer - 1, 0);
      var r := 0;
      while r < rows
        invariant 0 <= r <= rows
        invariant next' == DrawIndex(structure, layer - 1, r, 0)
        invariant oneLayerOfWeights == initW[..r]
        invariant oneLayerOfBiases == initB[..r]
      {
        var ranBias := 0.0;
        oneLayerOfBiases := oneLayerOfBiases + [ranBias];
        var oneVecOfWeights: Vector := [];
        var c := 0;
        while c < cols
          invariant 0 <= c <= cols
          invariant next' == DrawIndex(structure, layer - 1, r, c)
          invariant oneVecOfWeights == InitialRow(structure, radius, draws, layer - 1, r)[..c]
        {
          DrawIndexInRange(structure, layer - 1, r, c);
          var ranWeight := InitialWeight(radius, draws[next']);
          ghost var row := InitialRow(structure, radius, draws, layer - 1, r);
          assert ranWeight == row[c];
          assert row[..c + 1] == row[..c] + [ranWeight];
          oneVecOfWeights := oneVecOfWeights + [ranWeight];
          next' := next' + 1;
          c := c + 1;
        }
        assert oneVecOfWeights == initW[r];
        assert initW[..r + 1] == initW[..r] + [oneVecOfWeights];
        assert initB[..r + 1] == initB[..r] + [ranBias];
        DrawIndexStep(structure, layer - 1, r);
        oneLayerOfWeights := oneLayerOfWeights + [oneVecOfWeights];
        r := r + 1;
      }
      DrawIndexStep(structure, layer - 1, r);
      assert oneLayerOfWeights == initW;
      assert oneLayerOfBiases == initB;
    }

    /** The source's `activations`: sigmoid of every z value, written over
        a copy of the input. */
    method Activations(zVals: Vector) returns (acts: Vector)
      ensures |acts| == |zVals|
      ensures forall i :: 0 <= i < |zVals| ==> acts[i] == sigmoid(zVals[i])
      ensures acts == Mapped(sigmoid, zVals)
    {
      acts := zVals;
      var i := 0;
      while i < |acts|
        invariant 0 <= i <= |acts| == |zVals|
        invariant forall j :: 0 <= j < i ==> acts[j] == sigmoid(zVals[j])
        invariant forall j :: i <= j < |acts| ==> acts[j] == zVals[j]
      {
        acts := acts[i := sigmoid(acts[i])];
        i := i + 1;
      }
    }

    /** The source's `sigmoidPrimeVec`: sigmoidPrime of every z value. */
    method SigmoidPrimeVec(zVals: Vector) returns (primes: Vector)
      ensures |primes| == |zVals|
      ensures forall i :: 0 <= i < |zVals| ==> primes[i] == sigmoidPrime(zVals[i])
      ensures primes == Mapped(sigmoidPrime, zVals)
    {
      primes := zVals;
      var i := 0;
      while i < |primes|
        invariant 0 <= i <= |primes| == |zVals|
        invariant forall j :: 0 <= j < i ==> primes[j] == sigmoidPrime(zVals[j])
        invariant forall j :: i <= j < |primes| ==> primes[j] == zVals[j]
      {
        primes := primes[i := sigmoidPrime(primes[i])];
        i := i + 1;
      }
    }

    /** The source's `feedForwardOnce`: the z values of `layer` from the
        activations of the layer before. */
    method FeedForwardOnce(inputs: Vector, layer: nat) returns (zVals: Vector)
      requires Valid() && 1 <= layer < |structure| && structure[layer - 1] <= |inputs|
      ensures zVals == LayerZ(Net(), inputs, layer)
    {
      ghost var spec := LayerZ(Net(), inputs, layer);
      assert Rectangular(weights[layer - 1], structure[layer], structure[layer - 1]);
      zVals := [];
      var neuron := 0;
      while neuron < structure[layer]
        invariant 0 <= neuron <= structure[layer]
        invariant zVals == spec[..neuron]
      {
        var z := 0.0;
        var w := 0;
        while w < structure[layer - 1]
          invariant 0 <= w <= structure[layer - 1]
          invariant z == Dot(weights[layer - 1][neuron], inputs, w)
        {
          z := z + weights[layer - 1][neuron][w] * inputs[w];
          w := w + 1;
        }
        z := z + biases[layer - 1][neuron];
        assert spec[..neuron + 1] == spec[..neuron] + [z];
        zVals := zVals + [z];
        neuron := neuron + 1;
      }
    }

    /** The source's `classify`: runs the inputs through every layer and
        returns the first index of the largest final activation. When the
        input size differs from the input layer the source only prints a
        warning and carries on; `warned` reports that case. */
    method Classify(inputs: Vector) returns (digit: nat, warned: bool)
      requires Valid() && |structure| > 0
      requires |structure| > 1 ==> structure[0] <= |inputs|
      ensures warned <==> structure[0] != |inputs|
      ensures IsFirstMax(Output(Net(), inputs), digit)
    {
      warned := structure[0] != |inputs|;
      var acts := inputs;
      var i := 1;
      while i < |structure|
        invariant 1 <= i <= |structure|
        invariant acts == Propagated(Net(), inputs, i - 1)
      {
        var z := FeedForwardOnce(acts, i);
        acts := Activations(z);
        i := i + 1;
      }
      var iOfHighestAct := 0;
      var j := 1;
      while j < |acts|
        invariant |acts| == 0 || (1 <= j <= |acts| && iOfHighestAct < j)
        invariant |acts| == 0 ==> iOfHighestAct == 0
        invariant forall k :: 0 <= k < j && k < |acts| ==> acts[k] <= acts[iOfHighestAct]
        invariant forall k :: 0 <= k < iOfHighestAct ==> acts[k] < acts[iOfHighestAct]
      {
        if acts[j] > acts[iOfHighestAct] {
          iOfHighestAct := j;
        }
        j := j + 1;
      }
      digit := iOfHighestAct;
    }

    // ------------------------------------------------------------- training

    /** The forward pass at the head of `updateSystem`'s image loop: the z
        values of every layer after the input, zVals[i] for layer i + 1. */
    method ForwardPass(pixels: Vector) returns (zVals: seq<Vector>)
      requires Valid() && |structure| > 1 && structure[0] <= |pixels|
      ensures zVals == ZValues(Net(), pixels)
    {
      ghost var spec := ZValues(Net(), pixels);
      zVals := [];
      var inputs := pixels;
      var layer := 1;
      while layer < |structure|
        invariant 1 <= layer <= |structure|
        invariant inputs == Propagated(Net(), pixels, layer - 1)
        invariant zVals == spec[..layer - 1]
      {
        var zValsForOneLayer := FeedForwardOnce(inputs, layer);
        assert spec[..layer] == spec[..layer - 1] + [zValsForOneLayer];
        zVals := zVals + [zValsForOneLayer];
        inputs := Activations(zValsForOneLayer);
        layer := layer + 1;
      }
    }

    /** The label loop of `updateSystem`: one entry per output neuron, 1 at
        the image's digit and 0 everywhere else (all 0 when the digit names
        no output neuron). */
    method OneHotLabel(digit: int) returns (oneHot: seq<int>)
      requires |structure| > 0
      ensures |oneHot| == structure[|structure| - 1]
      ensures forall i :: 0 <= i < |oneHot| ==> (oneHot[i] == 1 <==> i == digit)
      ensures forall i :: 0 <= i < |oneHot| ==> (oneHot[i] == 0 <==> i != digit)
      ensures oneHot == OneHot(digit, structure[|structure| - 1])
    {
      oneHot := [];
      var i := 0;
      while i < structure[|structure| - 1]
        invariant 0 <= i <= structure[|structure| - 1]
        invariant oneHot == OneHot(digit, structure[|structure| - 1])[..i]
      {
        if i == digit {
          oneHot := oneHot + [1];
        } else {
          oneHot := oneHot + [0];
        }
        i := i + 1;
      }
    }

    /** The source's `lastLayerError`: (sigmoid(z) - y) ⊙ sigmoid'(z). */
    method LastLayerError(zVals: Vector, y: seq<int>) returns (err: Vector)
      requires |zVals| <= |y|
      ensures |err| == |zVals|
      ensures forall i :: 0 <= i < |zVals| ==>
                err[i] == (sigmoid(zVals[i]) - y[i] as real) * sigmoidPrime(zVals[i])
      ensures err == OutputError(Net(), zVals, y)
    {
      ghost var diff := seq(|zVals|, i requires 0 <= i < |zVals| => sigmoid(zVals[i]) - y[i] as real);
      var acts := Activations(zVals);
      var gradRespectToAct: Vector := [];
      var i := 0;
      while i < |acts|
        invariant 0 <= i <= |acts|
        invariant gradRespectToAct == diff[..i]
      {
        assert diff[..i + 1] == diff[..i] + [acts[i] - y[i] as real];
        gradRespectToAct := gradRespectToAct + [acts[i] - y[i] as real];
        i := i + 1;
      }
      assert gradRespectToAct == diff;
      var sigmoidPrimeVector := SigmoidPrimeVec(zVals);
      err := Hadamard(gradRespectToAct, sigmoidPrimeVector);
      OutputErrorAt(Net(), zVals, y);
    }

    /** The source's `backpropagate`: appends to `totalErrors` the error of
        every hidden layer from `layer` down to 0, each computed from the one
        after it as transpose(transpose(W)·transpose([preError]))[0] ⊙
        sigmoid'(z), and stops at -1. The source's out-parameter is returned. */
    method Backpropagate(layer: int, preError: Vector, zVals: seq<Vector>, totalErrors: seq<Vector>)
        returns (errs: seq<Vector>)
      requires Trainable(Net()) && -1 <= layer && layer + 2 < |structure|
      requires |preError| == structure[layer + 2] && ZShaped(Net(), zVals)
      ensures errs == totalErrors + BackErrors(Net(), layer, preError, zVals)
      decreases layer + 1
    {
      if layer == -1 {
        return totalErrors;
      }
      BackStepAsChain(Net(), layer, preError, zVals);
      var sigmoidPrimeVector := SigmoidPrimeVec(zVals[layer]);
      var transposedWeights := Transpose(weights[layer + 1]);
      var preErrorInTwoD := Transpose([preError]);
      var product := MultiplyMatrices(transposedWeights, preErrorInTwoD);
      var productTransposed := Transpose(product);
      var weightsTimesError := productTransposed[0];
      var error := Hadamard(weightsTimesError, sigmoidPrimeVector);
      BackErrorsAppend(Net(), layer, preError, zVals, totalErrors);
      errs := Backpropagate(layer - 1, error, zVals, totalErrors + [error]);
    }

    /** The zero-filled weight accumulator: one zero per weight. */
    method ZeroWeightGradients() returns (weightGradients: seq<Matrix>)
      ensures SameShape(weightGradients, weights)
      ensures forall l, n, p :: 0 <= l < |weights| && 0 <= n < |weights[l]| && 0 <= p < |weights[l][n]| ==>
                weightGradients[l][n][p] == 0.0
      ensures weightGradients == ZerosLike(weights)
    {
      ghost var spec := ZerosLike(weights);
      weightGradients := [];
      var l := 0;
      while l < |weights|
        invariant 0 <= l <= |weights|
        invariant weightGradients == spec[..l]
      {
        var oneLayer: Matrix := [];
        var n := 0;
        while n < |weights[l]|
          invariant 0 <= n <= |weights[l]|
          invariant oneLayer == spec[l][..n]
        {
          var zeros: Vector := seq(|weights[l][n]|, _ => 0.0);
          assert spec[l][..n + 1] == spec[l][..n] + [zeros];
          oneLayer := oneLayer + [zeros];
          n := n + 1;
        }
        assert oneLayer == spec[l];
        assert spec[..l + 1] == spec[..l] + [oneLayer];
        weightGradients := weightGradients + [oneLayer];
        l := l + 1;
      }
    }

    /** The zero-filled bias accumulator: one zero per bias. */
    method ZeroBiasGradients() returns (biasGradients: seq<Vector>)
      ensures SameLengths(biasGradients, biases)
      ensures forall l, n :: 0 <= l < |biases| && 0 <= n < |biases[l]| ==> biasGradients[l][n] == 0.0
      ensures biasGradients == ZeroVectorsLike(biases)
    {
      ghost var spec := ZeroVectorsLike(biases);
      biasGradients := [];
      var l := 0;
      while l < |biases|
        invariant 0 <= l <= |biases|
        invariant biasGradients == spec[..l]
      {
        var zeros: Vector := seq(|biases[l]|, _ => 0.0);
        assert spec[..l + 1] == spec[..l] + [zeros];
        biasGradients := biasGradients + [zeros];
        l := l + 1;
      }
    }

    /** The weight part of the image loop of `updateSystem`: adds to every
        accumulated weight gradient the image's error of the neuron times
        the activation feeding the weight. */
    method AddWeightGradients(weightGradients: seq<Matrix>, smp: Sample) returns (acc: seq<Matrix>)
      requires Valid() && SameShape(weightGradients, weights) && SampleFits(Net(), smp)
      ensures acc == AccumulatedWeights(Net(), weightGradients, smp)
    {
      ghost var spec := AccumulatedWeights(Net(), weightGradients, smp);
      acc := weightGradients;
      var layer := 0;
      while layer < |weights|
        invariant 0 <= layer <= |weights| && |acc| == |weights|
        invariant forall l :: 0 <= l < layer ==> acc[l] == spec[l]
        invariant forall l :: layer <= l < |weights| ==> acc[l] == weightGradients[l]
      {
        assert Rectangular(weights[layer], structure[layer + 1], structure[layer]);
        var m := AddLayerWeightGradients(acc[layer], smp, layer);
        forall n | 0 <= n < structure[layer + 1]
          ensures m[n] == spec[layer][n]
        {
        }
        assert m == spec[layer];
        acc := acc[layer := m];
        layer := layer + 1;
      }
    }

    /** One layer of `AddWeightGradients`. */
    method AddLayerWeightGradients(g: Matrix, smp: Sample, layer: nat) returns (m: Matrix)
      requires Valid() && layer < |weights| && SampleFits(Net(), smp)
      requires Rectangular(g, structure[layer + 1], structure[layer])
      ensures Rectangular(m, structure[layer + 1], structure[layer])
      ensures forall n, p :: 0 <= n < structure[layer + 1] && 0 <= p < structure[layer] ==>
                m[n][p] == g[n][p] + WeightTerm(Net(), smp, layer, n, p)
    {
      assert Rectangular(weights[layer], structure[layer + 1], structure[layer]);
      m := g;
      var neuron := 0;
      while neuron < |weights[layer]|
        invariant 0 <= neuron <= |weights[layer]| && |m| == |g|
        invariant forall n :: 0 <= n < |m| ==> |m[n]| == structure[layer]
        invariant forall n, p :: 0 <= n < neuron && 0 <= p < structure[layer] ==>
                    m[n][p] == g[n][p] + WeightTerm(Net(), smp, layer, n, p)
        invariant forall n :: neuron <= n < |m| ==> m[n] == g[n]
      {
        var row := m[neuron];
        var preNeuron := 0;
        while preNeuron < |weights[layer][neuron]|
          invariant 0 <= preNeuron <= |weights[layer][neuron]| && |row| == structure[layer]
          invariant forall p :: 0 <= p < preNeuron ==>
                      row[p] == g[neuron][p] + WeightTerm(Net(), smp, layer, neuron, p)
          invariant forall p :: preNeuron <= p < |row| ==> row[p] == g[neuron][p]
        {
          var totalErrorIndex := |smp.errs| - 1 - layer;
          var preAct;
          if layer == 0 {
            preAct := smp.inputs[preNeuron];
          } else {
            preAct := sigmoid(smp.zs[layer - 1][preNeuron]);
          }
          row := row[preNeuron := row[preNeuron] + smp.errs[totalErrorIndex][neuron] * preAct];
          preNeuron := preNeuron + 1;
        }
        m := m[neuron := row];
        neuron := neuron + 1;
      }
    }

    /** The bias part of the image loop of `updateSystem`: adds to every
        accumulated bias gradient the image's error of the neuron. */
    method AddBiasGradients(biasGradients: seq<Vector>, smp: Sample) returns (acc: seq<Vector>)
      requires Valid() && SameLengths(biasGradients, biases) && SampleFits(Net(), smp)
      ensures acc == AccumulatedBiases(Net(), biasGradients, smp)
    {
      ghost var spec := AccumulatedBiases(Net(), biasGradients, smp);
      acc := biasGradients;
      var layer := 0;
      while layer < |biases|
        invariant 0 <= layer <= |biases| && |acc| == |biases|
        invariant forall l :: 0 <= l < layer ==> acc[l] == spec[l]
        invariant forall l :: layer <= l < |biases| ==> acc[l] == biasGradients[l]
      {
        var row := acc[layer];
        var neuron := 0;
        while neuron < |biases[layer]|
          invariant 0 <= neuron <= |biases[layer]| && |row| == |biases[layer]|
          invariant forall n :: 0 <= n < neuron ==> row[n] == spec[layer][n]
          invariant forall n :: neuron <= n < |row| ==> row[n] == biasGradients[layer][n]
        {
          var totalErrorIndex := |smp.errs| - 1 - layer;
          row := row[neuron := row[neuron] + smp.errs[totalErrorIndex][neuron]];
          neuron := neuron + 1;
        }
        acc := acc[layer := row];
        layer := layer + 1;
      }
    }

    /** The weight update of `updateSystem`: every weight moves by
        -eta * gradient / size, in place. */
    method ApplyWeightGradients(weightGradients: seq<Matrix>, size: nat, eta: real)
      requires size > 0 && SameShape(weightGradients, weights)
      modifies this`weights
      ensures weights == Descended(old(weights), weightGradients, eta, size)
    {
      ghost var spec := Descended(weights, weightGradients, eta, size);
      var layer := 0;
      while layer < |weights|
        invariant 0 <= layer <= |weights| == |old(weights)|
        invariant forall l :: 0 <= l < layer ==> weights[l] == spec[l]
        invariant forall l :: layer <= l < |weights| ==> weights[l] == old(weights)[l]
      {
        var m := weights[layer];
        var neuron := 0;
        while neuron < |m|
          invariant 0 <= neuron <= |m| == |old(weights)[layer]|
          invariant forall n :: 0 <= n < neuron ==> m[n] == spec[layer][n]
          invariant forall n :: neuron <= n < |m| ==> m[n] == old(weights)[layer][n]
        {
          var row := m[neuron];
          var preNeuron := 0;
          while preNeuron < |row|
            invariant 0 <= preNeuron <= |row| == |old(weights)[layer][neuron]|
            invariant forall p :: 0 <= p < preNeuron ==> row[p] == spec[layer][neuron][p]
            invariant forall p :: preNeuron <= p < |row| ==> row[p] == old(weights)[layer][neuron][p]
          {
            var normalizedWeight := weightGradients[layer][neuron][preNeuron] / size as real;
            row := row[preNeuron := row[preNeuron] - eta * normalizedWeight];
            preNeuron := preNeuron + 1;
          }
          m := m[neuron := row];
          neuron := neuron + 1;
        }
        weights := weights[layer := m];
        layer := layer + 1;
      }
    }

    /** The bias update of `updateSystem`: every bias moves by
        -eta * gradient / size, in place. */
    method ApplyBiasGradients(biasGradients: seq<Vector>, size: nat, eta: real)
      requires size > 0 && SameLengths(biasGradients, biases)
      modifies this`biases
      ensures biases == DescendedBiases(old(biases), biasGradients, eta, size)
    {
      ghost var spec := DescendedBiases(biases, biasGradients, eta, size);
      var layer := 0;
      while layer < |biases|
        invariant 0 <= layer <= |biases| == |old(biases)|
        invariant forall l :: 0 <= l < layer ==> biases[l] == spec[l]
        invariant forall l :: layer <= l < |biases| ==> biases[l] == old(biases)[l]
      {
        var row := biases[layer];
        var neuron := 0;
        while neuron < |row|
          invariant 0 <= neuron <= |row| == |old(biases)[layer]|
          invariant forall n :: 0 <= n < neuron ==> row[n] == spec[layer][n]
          invariant forall n :: neuron <= n < |row| ==> row[n] == old(biases)[layer][n]
        {
          var normalizedBias := biasGradients[layer][neuron] / size as real;
          row := row[neuron := row[neuron] - eta * normalizedBias];
          neuron := neuron + 1;
        }
        biases := biases[layer := row];
        layer := layer + 1;
      }
    }

    /** The first half of the image loop of `updateSystem`: the forward
        pass, the one-hot label, the output error and backpropagation from
        layer |structure| - 3 (for a network without hidden layers the
        source's unsigned `structure.size() - 3` turns into -1 as an int,
        and backpropagation stops at once). */
    method ImageSample(img: Image) returns (smp: Sample)
      requires Trainable(Net()) && structure[0] <= |img.pixels|
      ensures smp == SampleOf(Net(), img)
    {
      var zVals := ForwardPass(img.pixels);
      var oneHot := OneHotLabel(img.digit);
      var errorForLastLayer := LastLayerError(zVals[|zVals| - 1], oneHot);
      var totalErrors := Backpropagate(|structure| - 3, errorForLastLayer, zVals, [errorForLastLayer]);
      smp := Sample(img.pixels, totalErrors, zVals);
    }

    /** The accumulation part of `updateSystem`: zero-filled accumulators,
        then the contributions of every image of the mini-batch in order. */
    method AccumulateGradients(mini: seq<Image>) returns (weightGradients: seq<Matrix>, biasGradients: seq<Vector>)
      requires Trainable(Net()) && Fits(structure, mini)
      ensures weightGradients == WeightGradients(Net(), Samples(Net(), mini), |mini|)
      ensures biasGradients == BiasGradients(Net(), Samples(Net(), mini), |mini|)
    {
      ghost var smps := Samples(Net(), mini);
      weightGradients := ZeroWeightGradients();
      biasGradients := ZeroBiasGradients();
      var i := 0;
      while i < |mini|
        invariant 0 <= i <= |mini|
        invariant weightGradients == WeightGradients(Net(), smps, i)
        invariant biasGradients == BiasGradients(Net(), smps, i)
      {
        var smp := ImageSample(mini[i]);
        GradientsStep(Net(), mini, i);
        weightGradients := AddWeightGradients(weightGradients, smp);
        biasGradients := AddBiasGradients(biasGradients, smp);
        i := i + 1;
      }
    }

    /** The source's `updateSystem`: accumulates the gradients of every
        image of the mini-batch, then takes one gradient-descent step with
        the batch average. */
    method UpdateSystem(mini: seq<Image>, eta: real)
      requires Trainable(Net()) && Fits(structure, mini) && |mini| > 0
      modifies this`weights, this`biases
      ensures Net() == Updated(old(Net()), mini, eta)
    {
      var weightGradients, biasGradients := AccumulateGradients(mini);
      var size := |mini|;
      ApplyWeightGradients(weightGradients, size, eta);
      ApplyBiasGradients(biasGradients, size, eta);
    }

    /** One pass of the epoch loop of `SGD` over the images in `order`:
        consecutive mini-batches of `miniBatchSize` (the last one shorter),
        one `UpdateSystem` each. The source's batch count
        ceil(n / miniBatchSize) is `NumBatches`. */
    method RunEpoch(order: seq<Image>, miniBatchSize: int, eta: real)
      requires Trainable(Net()) && Fits(structure, order)
      requires |order| > 0 ==> miniBatchSize != 0
      modifies this`weights, this`biases
      ensures Net() == TrainEpoch(old(Net()), order, miniBatchSize, eta)
    {
      ghost var before := Net();
      var numBatches := NumBatches(|order|, miniBatchSize);
      var startOfMini := 0;
      var i := 0;
      while i < numBatches
        invariant 0 <= i <= numBatches
        invariant startOfMini == i * miniBatchSize
        invariant Net() == TrainPrefix(before, order, miniBatchSize, i, eta)
      {
        var mini := CutBatch(order, miniBatchSize, i, startOfMini);
        startOfMini := startOfMini + miniBatchSize;
        TrainPrefixStep(before, order, miniBatchSize, i, eta);
        UpdateSystem(mini, eta);
        i := i + 1;
      }
      TrainPrefixAll(before, order, miniBatchSize, eta);
    }

    /** The source's `SGD`: `epoch` passes over the images, each in a fresh
        order. orders[e], a reshuffle of the images, stands for what the
        clock-seeded library shuffle produces in epoch e. */
    method SGD(images: seq<Image>, epoch: int, miniBatchSize: int, eta: real, orders: seq<seq<Image>>)
      requires Trainable(Net()) && Fits(structure, images)
      requires epoch <= |orders|
      requires forall e :: 0 <= e < epoch ==> multiset(orders[e]) == multiset(images)
      requires epoch > 0 && |images| > 0 ==> miniBatchSize != 0
      modifies this`weights, this`biases
      ensures Net() == TrainEpochs(old(Net()), images, orders[..if epoch < 0 then 0 else epoch], miniBatchSize, eta)
    {
      var e := 0;
      while e < epoch
        invariant 0 <= e <= |orders| && (epoch >= 0 ==> e <= epoch) && (epoch < 0 ==> e == 0)
        invariant forall k :: 0 <= k < e ==> multiset(orders[k]) == multiset(images)
        invariant Net() == TrainEpochs(old(Net()), images, orders[..e], miniBatchSize, eta)
      {
        var current := orders[e];
        ReorderFits(structure, images, current);
        assert |current| == |images| by {
          assert |multiset(current)| == |multiset(images)|;
        }
        RunEpoch(current, miniBatchSize, eta);
        assert orders[..e + 1][..e] == orders[..e];
        e := e + 1;
      }
      assert e == if epoch < 0 then 0 else epoch;
    }
  }
}
