# DigitClassifier, modelled in Dafny

DigitClassifier is a small C++ feed-forward neural network. It classifies
handwritten digits and trains itself by stochastic gradient descent with
backpropagation. This project models the part of it whose correctness comes
down to shapes, indices, loop bounds and sums:

- the matrix helpers (`transpose`, `multiplyMatrices`, `hadamard`);
- the layout of the parameters and how `fillSystemRandomly` fills them;
- the forward pass (`feedForwardOnce`, `activations`) and the argmax of
  `classify`;
- the erase-based `shuffleImages` and the mini-batch slicing of `SGD`;
- the output error (`lastLayerError`) and the error list that the recursive
  `backpropagate` builds, last layer first;
- the gradient accumulation and the in-place update of `updateSystem`.

Doubles are modelled as `real`. The sigmoid and its derivative are left
uninterpreted: they are functions that every network carries. Random draws
are parameters.

The program is one class, `DigitClassifier`, split over DigitClassifier.h and
DigitClassifier.cpp. Only `Classifier` mirrors that class; the other four
modules group its specification by concern:

- `Linear` (linear.dfy) defines matrices as `seq<seq<real>>`. It gives
  specification functions for the transpose, the product and the Hadamard
  product, and the loop methods that compute them.
- `Layout` (layout.dfy) defines the `Network` value: structure, weights,
  biases and the two activation functions. It states the layout invariant
  `Shaped` and the initial values that `fillSystemRandomly` draws.
- `Minibatch` (minibatch.dfy) defines the shuffle and the cutting of a list
  into mini-batches. Both are generic in the element type.
- `Propagation` (propagation.dfy) holds the pure specification of one
  training step: the z values, the errors, the gradient sums, `Updated`,
  and the epoch folds `TrainBatches`, `TrainEpoch` and `TrainEpochs`.
- `Classifier` (classifier.dfy) holds the class `DigitClassifier`. Its
  fields `structure`, `weights` and `biases` are updated in place by methods
  that mirror the source's member functions. Each method is proved against
  the specification functions above; `Net()` is the object's state as a
  `Network`.

## Model

| member | source | states |
|---|---|---|
| Linear.Transpose | DigitClassifier.cpp:427-438 | An R×C matrix with a first row transposes to C rows of R entries with `t[c][r] == m[r][c]`; the result is `Transposed(m)` |
| Linear.TransposeInvolution | DigitClassifier.cpp:427-438 | On a rectangular matrix with at least one row and one column, transposing twice gives the matrix back |
| Linear.TransposeExamples | Tester.cpp:66-96 | The tested cases hold: the column 5,6,7 transposes to the row [5,6,7], and that row transposes back to the column |
| Linear.TransposedRow | DigitClassifier.cpp:313-315 | Transposing the one-row matrix `[v]` gives `v` as a column of one-entry rows (how `backpropagate` turns the error into a column) |
| Linear.MultiplyMatrices | DigitClassifier.cpp:440-456 | When every row of `a` has `a[0].size()` entries or more and `b` has at least `a[0].size()` rows, each at least `b[0].size()` long, the product has `|a|` rows of `|b[0]|` entries, and entry (i, j) is the sum over k < `|a[0]|` of `a[i][k]*b[k][j]`; the result is `Product(a, b)` |
| Linear.ProductIdentity | DigitClassifier.cpp:440-456 | Multiplying a rectangular matrix by the identity of its width gives the matrix back |
| Linear.MultiplyExample | Tester.cpp:45-63 | [[1,2,3],[4,5,6],[7,8,9]] times the column [5,6,7] is [[38],[92],[146]] |
| Linear.TransposedTimesColumn | DigitClassifier.cpp:312-317 | transpose(transpose(W)·column(v)) is one row, and its entry i is the sum over k of `W[k][i]*v[k]` |
| Linear.Hadamard | DigitClassifier.h:98-104 | Given `|b| >= |a|`, the result has length `|a|` and entry i is `a[i]*b[i]` |
| Linear.HadamardExample | Tester.cpp:33-42 | hadamard([1,2,3,4],[5,6,7,8]) == [5,12,21,32] |
| Layout.DrawIndexInRange | DigitClassifier.cpp:107-133 | Every weight has its own draw: the draw index of `weights[m][n][p]` lies inside matrix m's block of draws and before the total number of draws, and no other entry of matrix m gets the same index |
| Layout.DrawIndexStep | DigitClassifier.cpp:107-133 | Draws are used without gaps: each matrix starts where the previous one ends, and each row starts where the previous row ends |
| Layout.InitialLayout | DigitClassifier.cpp:107-136 | The initial weights and biases have the layout the structure calls for (`Shaped`), and every initial bias is zero |
| Layout.InitialWeightInRange | DigitClassifier.cpp:127-129 | A draw u in [0, 1] gives the weight `r*(2u-1)` in [-r, r] |
| Layout.InitialWeightsBounded | DigitClassifier.cpp:107-136 | With every draw in [0, 1], every initial weight lies in [-r, r] |
| Minibatch.ShuffleImages | DigitClassifier.cpp:139-153 | The erase-and-append loop yields `Shuffled(images, draws)`, which has the input's length and the input's multiset |
| Minibatch.ShuffledIsPermutation | DigitClassifier.cpp:139-153 | For any draws, the shuffle has the same length and multiset as its input |
| Minibatch.BatchStartInRange | DigitClassifier.cpp:188-190 | For every batch index the loop runs, the start `i*m` lies inside the list |
| Minibatch.BatchesReachEnd | DigitClassifier.cpp:188 | ceil(n/m) batches of m cover all n elements |
| Minibatch.BatchSizes | DigitClassifier.cpp:187-199 | No batch is empty, every batch but the last holds m elements, and the last holds the remainder `n - (k-1)*m` |
| Minibatch.InnerBatchFull | DigitClassifier.cpp:188-196 | A batch that has another one after it holds exactly m elements |
| Minibatch.LastBatchRemainder | DigitClassifier.cpp:188-196 | With images, there is a last batch, and it holds `n - (k-1)*m` elements |
| Minibatch.BatchLength | DigitClassifier.cpp:190-196 | Batch i holds m elements, or what remains of the list when fewer than m are left, and is never empty |
| Minibatch.BatchCut | DigitClassifier.cpp:190-196 | With `start == i*m`, batch i is the slice from `start` to `start + m` or to the end of the list, and the next start is `(i+1)*m` |
| Minibatch.CutBatch | DigitClassifier.cpp:190-196 | The loop's cut from `begin` to `begin + m`, or to the end of the list, is exactly batch i, non-empty and at most m long, and the next `begin` is `(i+1)*m` |
| Minibatch.BatchesConcatenate | DigitClassifier.cpp:187-199 | Concatenating the batches in order gives back exactly the list |
| Minibatch.BatchExample | Tester.cpp:202-214 | 15 images in batches of 4 give four batches of sizes 4, 4, 4 and 3 |
| Propagation.LayerZAsProduct | DigitClassifier.cpp:165-178 | The z value of neuron n of a layer is entry n of W·column(inputs) plus the bias |
| Propagation.Propagated | DigitClassifier.cpp:53-54 | After k > 0 forward steps the activation vector has `structure[k]` entries |
| Propagation.ZValues | DigitClassifier.cpp:229-236 | The forward pass records one z vector per layer after the input, of that layer's size |
| Propagation.ActivationsFromZValues | DigitClassifier.cpp:229-236 | Applying the sigmoid to the recorded z vector of a layer gives that layer's activations, so the recorded pass and `classify`'s pass agree on the output |
| Propagation.PreActivationIsActivation | DigitClassifier.cpp:264-268 | The activation that the weight gradient uses for layer l (the pixels for l = 0, the sigmoid of the stored z otherwise) is the forward pass's activation of layer l |
| Propagation.OutputErrorAt | DigitClassifier.cpp:323-332 | The output error has one entry per output neuron, and entry i is `(sigmoid(z[i]) - y[i]) * sigmoidPrime(z[i])` |
| Propagation.BackStepAsChain | DigitClassifier.cpp:310-318 | The source's chain (transpose W, multiply by the error as a column, transpose back, take row 0, Hadamard with sigmoid'(z)) equals the entrywise error `BackStep` |
| Propagation.BackErrors | DigitClassifier.cpp:306-321 | Backpropagating from `layer` down to -1 yields `layer + 1` error vectors whose sizes run from `structure[layer+1]` down to `structure[1]` |
| Propagation.Errors | DigitClassifier.cpp:246-255 | The error list has one vector per layer after the input, sized that layer, last layer first |
| Propagation.ErrorsLastLayerFirst | DigitClassifier.cpp:246-255 | The list holds `|structure| - 1` vectors: entry 0 is the output error, and entry k is the back-step of entry k-1 through the layer above |
| Propagation.BackErrorsSteps | DigitClassifier.cpp:306-321 | Within the list that `backpropagate` appends, each vector is the back-step of the one before it |
| Propagation.SampleOf | DigitClassifier.cpp:226-255 | What one image contributes (pixels, error list, z values) fits the network's layout |
| Propagation.Samples | DigitClassifier.cpp:226-255 | One fitting sample per image of the batch |
| Propagation.WeightGradients | DigitClassifier.cpp:205-216 | Weight gradient accumulators have exactly the shape of the weights |
| Propagation.BiasGradients | DigitClassifier.cpp:218-224 | Bias gradient accumulators have exactly the lengths of the biases |
| Propagation.WeightGradientsAreSums | DigitClassifier.cpp:257-270 | After k images, gradient entry (l, n, p) is the sum over those images of `error[l][n] * activation[l][p]` |
| Propagation.BiasGradientsAreSums | DigitClassifier.cpp:272-278 | After k images, bias gradient entry (l, n) is the sum over those images of `error[l][n]` |
| Propagation.GradientsStep | DigitClassifier.cpp:226-278 | Image i of the batch adds exactly its own sample's terms to the weight and bias accumulators |
| Propagation.Descended | DigitClassifier.cpp:282-292 | The weight update keeps the shape of the weights |
| Propagation.DescendedBiases | DigitClassifier.cpp:294-301 | The bias update keeps the lengths of the biases |
| Propagation.ShapedLike | DigitClassifier.cpp:282-301 | Replacing weights and biases by ones of the same shapes keeps the layout invariant |
| Propagation.Updated | DigitClassifier.cpp:203-304 | One mini-batch step keeps the network trainable and leaves the structure and activation functions unchanged |
| Propagation.UpdatedAt | DigitClassifier.cpp:282-301 | After the step, every weight is `w - eta*(Σ terms / size)` and every bias is `b - eta*(Σ errors / size)`, with size the number of images |
| Propagation.TrainBatches | DigitClassifier.cpp:187-199 | Running the batches one after another keeps the network trainable and its structure unchanged |
| Propagation.TrainBatchesStep | DigitClassifier.cpp:188-198 | Running one more batch is one more `Updated` step on the result so far |
| Propagation.BatchesFit | DigitClassifier.cpp:187-199 | Every batch cut from images that fit the input layer is non-empty and fits too |
| Propagation.TrainEpoch | DigitClassifier.cpp:187-199 | One epoch over an order keeps the network trainable and its structure unchanged |
| Propagation.TrainPrefix | DigitClassifier.cpp:188-198 | After the first i batches of an epoch, the network is still trainable, with the same structure and activation functions |
| Propagation.TrainPrefixStep | DigitClassifier.cpp:188-198 | Batch i of an epoch is non-empty and fits the network, and running it is one more `Updated` step on the first i |
| Propagation.TrainPrefixAll | DigitClassifier.cpp:187-199 | Running all ceil(n/m) batches is the whole epoch |
| Propagation.ReorderFits | DigitClassifier.cpp:185-186 | A reordering of images that fit the input layer fits it too |
| Propagation.TrainEpochs | DigitClassifier.cpp:180-201 | Any number of epochs keeps the network trainable and its structure unchanged |
| Classifier.FirstMaxUnique | DigitClassifier.cpp:55-59 | At most one index is the first maximum of a vector, so the argmax answer is determined |
| Classifier.DigitClassifier.constructor | DigitClassifier.h:25-29 | The new object holds the structure, the drawn weights `InitialWeights`, zero biases `InitialBiases`, and satisfies the layout invariant |
| Classifier.DigitClassifier.FillSystemRandomly | DigitClassifier.cpp:100-137 | Appends exactly `InitialWeights` and `InitialBiases` to the weights and biases |
| Classifier.DigitClassifier.DrawLayer | DigitClassifier.cpp:109-135 | One layer's loops produce matrix `InitialWeights[l-1]` and zero biases, and move the draw index to the end of that matrix's block |
| Classifier.DigitClassifier.Activations | DigitClassifier.h:107-112 | Same length, and entry i is `sigmoid(zVals[i])` |
| Classifier.DigitClassifier.SigmoidPrimeVec | DigitClassifier.h:115-120 | Same length, and entry i is `sigmoidPrime(zVals[i])` |
| Classifier.DigitClassifier.FeedForwardOnce | DigitClassifier.cpp:165-178 | Entry n is the dot product of row n of the layer's weights with the inputs, plus the bias, for every neuron of the layer (`LayerZ`) |
| Classifier.DigitClassifier.Classify | DigitClassifier.cpp:47-60 | The warning is raised exactly when the input size differs from the input layer; the answer is the first maximum of the network's output (0 for an empty output) |
| Classifier.DigitClassifier.ForwardPass | DigitClassifier.cpp:229-236 | The z values recorded for an image are `ZValues` of its pixels |
| Classifier.DigitClassifier.OneHotLabel | DigitClassifier.cpp:237-244 | The label vector has one entry per output neuron; an entry is 1 exactly at the digit and 0 everywhere else |
| Classifier.DigitClassifier.LastLayerError | DigitClassifier.cpp:323-332 | Entry i is `(sigmoid(z[i]) - y[i]) * sigmoidPrime(z[i])`, one per z value |
| Classifier.DigitClassifier.Backpropagate | DigitClassifier.cpp:306-321 | Appends to `totalErrors` exactly the errors of layers `layer` down to 0, each the back-step of the one before, and stops at -1 |
| Classifier.DigitClassifier.ZeroWeightGradients | DigitClassifier.cpp:205-216 | The accumulator has exactly the shape of the weights, and every entry is zero |
| Classifier.DigitClassifier.ZeroBiasGradients | DigitClassifier.cpp:218-224 | The accumulator has exactly the lengths of the biases, and every entry is zero |
| Classifier.DigitClassifier.AddWeightGradients | DigitClassifier.cpp:257-270 | Adds one image's `error[l][n] * activation[l][p]` to every entry (`AccumulatedWeights`) |
| Classifier.DigitClassifier.AddLayerWeightGradients | DigitClassifier.cpp:258-269 | For one layer, the new entry (n, p) is the old one plus `error[n] * activation[p]`, and the shape is unchanged |
| Classifier.DigitClassifier.AddBiasGradients | DigitClassifier.cpp:272-278 | Adds one image's `error[l][n]` to every bias entry (`AccumulatedBiases`) |
| Classifier.DigitClassifier.ApplyWeightGradients | DigitClassifier.cpp:282-292 | Sets every weight to `w - eta*(g/size)` in place (`Descended` of the old weights) |
| Classifier.DigitClassifier.ApplyBiasGradients | DigitClassifier.cpp:294-301 | Sets every bias to `b - eta*(g/size)` in place (`DescendedBiases` of the old biases) |
| Classifier.DigitClassifier.ImageSample | DigitClassifier.cpp:228-255 | The forward pass, the label, the output error and the backpropagation of one image give its `SampleOf` |
| Classifier.DigitClassifier.AccumulateGradients | DigitClassifier.cpp:205-280 | The accumulators after the image loop are the gradient sums over the whole batch |
| Classifier.DigitClassifier.UpdateSystem | DigitClassifier.cpp:203-304 | The new state is `Updated(old state, mini, eta)`, so the structure and layout are kept and every parameter moves as `UpdatedAt` states |
| Classifier.DigitClassifier.RunEpoch | DigitClassifier.cpp:187-199 | The batch loop over one order leaves the state `TrainEpoch(old state, order, m, eta)` |
| Classifier.DigitClassifier.SGD | DigitClassifier.cpp:180-201 | After the epochs, the state is `TrainEpochs` of the old state over the first `epoch` orders (none for a negative count) |

## Left out

- `getImages`, `toString`, `readIn`, the path constructor and `evaluate` are left out because they do file I/O and text parsing.
- `extractDoubles` is left out because it converts text to doubles through a string stream.
- `shuffleImagesImproved` calls `std::shuffle` with a clock-seeded engine. `SGD` instead takes each epoch's order as an input, required to be a permutation of the images.
- `srand(time(0))` and `rand()` become parameters. `fillSystemRandomly` takes the draws u = rand()/RAND_MAX as a sequence; `shuffleImages` takes the raw draws and reduces them `% size` itself.
- The numeric sigmoid and its derivative (`exp`, `pow`) are uninterpreted functions. The expected values of the sigmoid-based tests are not claimed.
- The square root in the weight range is not computed. `Layout.IsRadius` pins the radius down by r >= 0 and r*r == 96/(first + last layer size).
- Layout.IsRadius: when weights are drawn but the first and last layer sizes are both 0, the source divides by zero and gets an infinite range; the model requires a positive sum in that case.
- Rounding of doubles is not modelled: all arithmetic is exact on reals.
- Negative layer sizes are not modelled: the structure is a `seq<nat>`.
- Main.cpp is not part of this model: it builds a hard-coded {784, 30, 10} network, trains it on a fixed CSV file, saves and evaluates it (file I/O, left out above), and prints the elapsed time.
- The console output other than `classify`'s size warning (modelled as `warned`) is not modelled, e.g. the "Starting epoch" progress messages of `SGD`.
- Convergence and accuracy of training are statistical properties and are not stated.
- Classifier.DigitClassifier.Classify requires at least as many pixels as input neurons when there is a layer to compute. The source only warns on a mismatch, then reads past the end of a short input.
- Classifier.DigitClassifier.UpdateSystem requires a non-empty batch. The source would divide by zero there. With a positive batch size `SGD` never passes an empty batch; size 0 is excluded below.
- Classifier.DigitClassifier.UpdateSystem, RunEpoch and SGD require the network to be trainable (laid out, at least two layers, no empty layer after the input when there are hidden layers) and every image to have at least as many pixels as input neurons (`Fits`), even when no batch runs (a non-positive epoch count or batch size). The source's `transpose` reads `twoD[0]` and would fail on an empty layer, and its forward pass reads `structure[0]` pixels of every image it trains on; when no batch runs it touches neither.
- Classifier.DigitClassifier.SGD requires a non-zero batch size when there are epochs and images. With size 0 the source's bound is a division by zero and the loop does not end.
- Linear.Hadamard requires `|b| >= |a|`, because the source reads `b[i]` for every index of `a` without checking.
- Linear.MultiplyMatrices requires `b` to have at least `a[0].size()` rows that are each at least as long as `b[0]`, and every row of `a` to be at least as long as `a[0]`, because the source indexes `a[i][k]` and `b[k][j]` unchecked.
- Propagation.BackStep is stated entrywise. `Propagation.BackStepAsChain` proves that the source's chain of transposes, product and Hadamard product computes it.
- The helper methods (`DrawLayer`, `AddLayerWeightGradients`, `ImageSample`, `AccumulateGradients`, `RunEpoch`, `Minibatch.CutBatch`) split the source's long member functions into parts; their loops are the source's loops.
- Aliasing is not modelled: vectors and matrices are values. Most of the source's `std::vector` arguments are by-value copies, but `shuffleImages` takes its image list by reference and `backpropagate` appends to `totalErrors` by reference; the model returns their new values (`ShuffleImages` returns the shuffled list, `Backpropagate` the extended error list) instead of updating the caller's vector.
- Integer width is not modelled: the source's `int` loop counters and `(int) images.size()` are 32-bit and would overflow past 2^31 elements, while the model's `int` and `nat` are unbounded.
