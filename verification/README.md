# A verified model of the `neural` feed-forward network engine

`neural` is a small feed-forward neural-network engine. A network is an
ordered list of layers and a loss function. `predict` feeds an input through
every layer. `learn` runs a forward pass that caches every layer's input,
evaluates the loss, and then walks back from the last layer to the first:
each layer computes the gradient at its input from the gradient at its
output, then updates its own parameters. `train` repeats `learn` over a
dataset for a number of epochs. There are two layer kinds:

- the fully connected (dense, affine) layer;
- the elementwise activation layer, with `relu` / `drelu` and `tanh` / `dtanh`.

The only loss is the mean-squared error `MSE`.

This project models that engine in Dafny in six modules. src/main.rs is
split three ways: the `Layer` trait goes to `Layers`, the network and its
loops to `Network`, and the `Error` loss pair to `Errors`, beside `MSE`.
`Vectors` holds the vector arithmetic:

| module | file | models |
|---|---|---|
| `Vectors` | vectors.dfy | `f32` vectors as `seq<real>`, and the `map` / `zip` / `sum` / dot-product loops the engine is written with |
| `Dense` | dense.dfy | `FullyConnected` of src/fully_connected.rs |
| `Activations` | activations.dfy | `Activation`, `relu`, `drelu` and `dtanh` of src/activation.rs |
| `Errors` | errors.dfy | the `Error` loss pair of src/main.rs and `MSE` of src/errors.rs |
| `Layers` | layers.dfy | the `Layer` trait of src/main.rs, as a closed datatype over the two layer kinds |
| `Network` | network.dfy | `Network`, `predict`, `learn` and `train` of src/main.rs |

The index loops of `FullyConnected` and of `Network` appear twice. A pure
function states what the loop computes. A method follows the source's
algorithm (loops over indices, in-place updates) and is proved to compute
exactly that function. The iterator chains of `Activation` and `MSE` are
modelled by functions alone, with their properties stated in lemmas. The
functions and their partners are:

- `Dense.Affine`: forward is `biases + weights * x`.
- `Dense.Transposed`: backward is the transposed weights applied to the
  output error, and `Dense.TransposedIsAdjoint` proves it is the adjoint of
  forward's linear part.
- `Dense.Stepped`: the rank-one gradient step of `update_params`.
- `Network.Output`: the left fold of the layers' forwards.
- `Network.Inputs` and `Network.Gradients`: the forward and error caches of
  `learn`.
- `Network.Backprop` / `Network.Step`: one chain-rule step.
- `Network.Epoch` and `Network.Trained`: folds of `Step` over the dataset.
  `Network.TrainedIsScheduledEpoch` proves `Trained` equal to one fold of
  `Step` over the flat call schedule `Network.Schedule`.

Panics in the source become preconditions:

- Indexing out of bounds in a dense layer is excluded by
  `FullyConnected.Valid` and the width preconditions.
- Across a network, `Network.Chain` excludes it: every layer takes exactly
  the width the previous layer produces.
- `Network.Learnable` and `Network.Trainable` require the loss gradient to
  cover the whole output.

The empty-input `MSE`, which divides 0 by 0 in the source, is modelled as
`Vectors.Float.NaN`.

The loss follows the code: `MSE` is the sum of squared errors divided by the
prediction's length and then by 2, and its derivative is `input - expected`
with no `1 / n` factor, which makes it `n` times the true gradient of that
loss. This is not the usual mean of squares with gradient
`2 (input - expected) / n`. `Errors.MseExamples` pins the code's value on a
small case: 2, where the usual formula gives 4.

## Model

| member | source | states |
|---|---|---|
| `Dense.Forward` | src/fully_connected.rs:12-22 | returns `outputSize` values, entry `j` being `biases[j]` plus the weighted sum of the first `inputSize` inputs in index order, and equals the affine map `Affine` |
| `Dense.Backward` | src/fully_connected.rs:24-34 | returns `inputSize` values, entry `i` being column `i` of the weights against the output error; the result is `Transposed` of the error alone, so the forward input is never read |
| `Dense.UpdateParams` | src/fully_connected.rs:36-49 | keeps the layer well shaped with the same sizes; every weight becomes `w - rate * input[i] * outputError[j]` and every bias `b - rate * outputError[j]`; equals `Stepped` |
| `Dense.StepRow` | src/fully_connected.rs:42-44 | the inner loop over one row subtracts `rate * input[i] * e` from weight `i` and keeps the row length |
| `Dense.AffineOfZeroWeights` | src/fully_connected.rs:14-21 | with all-zero weights forward returns exactly the biases, whatever the input |
| `Dense.AffineOfZeroLayer` | src/fully_connected.rs:14-21 | with zero weights and zero biases forward returns the zero vector of length `outputSize` |
| `Dense.SteppedAtZeroRate` | src/fully_connected.rs:41-48 | a zero learning rate leaves every weight and bias unchanged |
| `Dense.SteppedAtZeroError` | src/fully_connected.rs:41-48 | an all-zero output error leaves every weight and bias unchanged |
| `Dense.TransposedIsAdjoint` | src/fully_connected.rs:12-34 | for every error `e` and input `x`, `<backward(e), x> = <e, weights * x>`: backward is the adjoint of forward's linear part |
| `Activations.Forward` | src/activation.rs:9-11 | same length as the input, entry `k` is the function at `input[k]` |
| `Activations.Backward` | src/activation.rs:13-17 | length is the shorter of input and error, entry `k` is `derivative(input[k]) * outputError[k]` |
| `Activations.BackwardOfOnes` | src/activation.rs:13-17 | against an all-ones error at least as long as the input, backward is the derivative mapped over the input |
| `Activations.Relu` | src/activation.rs:37-39 | `relu(x)` is `max(x, 0)`: `x` when `x >= 0` and 0 when `x < 0`, so never negative and never below `x` |
| `Activations.DRelu` | src/activation.rs:41-46 | `drelu(x)` is 0 or 1, and 1 exactly when `x > 0` (so `drelu(0) = 0`) |
| `Activations.DTanh` | src/activation.rs:33-35 | `1 - tanh(x)^2` never exceeds 1 and is 1 where `tanh` vanishes |
| `Activations.TanhBackwardDamps` | src/activation.rs:33-35 | for any `tanh` with values strictly between -1 and 1, a tanh layer's backward scales each output error by a factor in (0, 1]: no entry grows, changes sign or becomes 0 unless it was 0 |
| `Activations.ReluForwardIdempotent` | src/activation.rs:37-39 | `relu` is idempotent, and so is the forward of a relu layer |
| `Errors.MseMeasure` | src/errors.rs:4-11 | the loss is NaN exactly for an empty prediction and otherwise non-negative |
| `Errors.MseDerivative` | src/errors.rs:12-17 | the derivative has the zipped length and entry `k` is `input[k] - expected[k]` |
| `Errors.MseOfSelf` | src/errors.rs:4-11 | a perfect non-empty prediction has loss 0 |
| `Errors.MseDerivativeOfSelf` | src/errors.rs:12-17 | the derivative of a perfect prediction is the zero vector of its length |
| `Errors.MseDerivativeAntisymmetric` | src/errors.rs:15 | swapping prediction and expectation negates every derivative entry |
| `Errors.MseFromDerivative` | src/errors.rs:3-18 | the loss is the sum of the squared derivative entries, divided by the prediction's length and by 2 |
| `Errors.MseFits` | src/errors.rs:12-17 | the derivative is never shorter than the prediction when the expected output is at least as long |
| `Errors.MseExamples` | src/errors.rs:4-11 | loss 0 for a perfect prediction; loss 2 for a single output off by 2 |
| `Layers.Forward` | src/main.rs:9 | the trait's forward yields a vector of the layer's output width |
| `Layers.Backward` | src/main.rs:10 | on a layer fitting its input and an error covering its output, the input gradient is as wide as the input |
| `Layers.Update` | src/activation.rs:19-20 | an update keeps the layer's kind and sizes (and well-formedness); an activation layer comes back unchanged |
| `Layers.UpdateAtZeroRate` | src/fully_connected.rs:41-48 | a zero learning rate leaves any layer unchanged |
| `Network.Predict` | src/main.rs:32-38 | returns the left fold of the layers' forwards over the input, of the network's output width; an empty network returns the input |
| `Network.ForwardPass` | src/main.rs:41-46 | the input cache built by `learn` is the forward cache `Inputs` |
| `Network.InputsAt` | src/main.rs:41-48 | slot 0 is the input, slot `i + 1` is layer `i`'s forward of slot `i`, the layers from `i` on chain from slot `i`'s width, and the last slot is the prediction |
| `Network.Gradients` | src/main.rs:52-57 | the error cache has one slot more than the layers, its last slot is the loss gradient, and slot 0 covers the input |
| `Network.GradientsAt` | src/main.rs:55-56 | error slot `i` is layer `i`'s backward of input slot `i` and error slot `i + 1`, computed with the layer before its update, and covers input slot `i` |
| `Network.BackwardPass` | src/main.rs:52-58 | the reverse loop produces exactly the error cache and the stepped layers of `Backprop` |
| `Network.BackwardStep` | src/main.rs:55-58 | one iteration at layer `i` prepends layer `i`'s backward and update to what the layers after `i` produced |
| `Network.Backprop` | src/main.rs:55-58 | a step keeps the number of layers, and the gradient it passes out of the first layer is error slot 0 |
| `Network.BackpropAt` | src/main.rs:55-58 | stepped layer `i` is layer `i` updated with input slot `i` and the output-side error slot `i + 1`, never its own slot `i` |
| `Network.BackpropShapes` | src/main.rs:55-58 | a step keeps every layer's kind and sizes, in order |
| `Network.BackpropAtZeroRate` | src/main.rs:55-58 | a step at learning rate 0 leaves every layer unchanged |
| `Network.Learn` | src/main.rs:40-61 | the caches are `Inputs` and `Gradients` seeded with the loss gradient; the returned output is the prediction of the network before the call; the returned loss is the loss function of that output; the new network is `Step` |
| `Network.Step` | src/main.rs:40-61 | learning keeps the loss and every layer's shape |
| `Network.LearnSample` | src/main.rs:66-68 | one `learn` call on sample `k` is `Step` on that sample, keeps the network trainable, and leaves the rest of the epoch to the remaining samples |
| `Network.EpochStep` | src/main.rs:66-68 | after `learn` on sample `k` the network still fits every sample, and the epoch continues from sample `k + 1` |
| `Network.Epoch` | src/main.rs:66-69 | an epoch keeps the loss and every layer's shape |
| `Network.Trained` | src/main.rs:64-71 | any number of epochs keeps the loss and every layer's shape |
| `Network.TrainEpoch` | src/main.rs:66-69 | the inner loop's result is `Epoch`: one `learn` per sample, in dataset order |
| `Network.Train` | src/main.rs:63-72 | the result is `Trained`: `iters` epochs, each starting from the network the previous one left |
| `Network.ScheduleAt` | src/main.rs:64-67 | the flat call schedule of `train` has `iters * n` entries, and entry `t` is sample `t mod n` |
| `Network.TrainedIsScheduledEpoch` | src/main.rs:64-69 | `iters` epochs equal one run of `learn` over the flat schedule, so training takes `iters * n` steps, step `t` on sample `t mod n` |
| `Network.SameShapesChain` | src/main.rs:63-69 | shape-preserving updates keep the layers chaining from every input width with the same output width, so training can go on |

## Left out

- The demo `main` (src/main.rs:75-95) is left out. It hard-codes an XOR dataset and prints. It also names an undefined function `tahh` at src/main.rs:77.
- The per-epoch error sum and its `println!` in `train` (src/main.rs:65, 68, 70) are reporting only and are not modelled; `train`'s loss values are discarded.
- `FullyConnected::new` and `random_vec` (src/fully_connected.rs:52-65) draw random weights; a layer is modelled by whatever well-shaped weights and biases it holds.
- The bodies of `tanh` and `dtanh` (src/activation.rs:29-35) are transcendental. An activation layer holds any pair of `real -> real` functions. `Activations.DTanh` takes the `tanh` it differentiates as a parameter.
- `f32` rounding, overflow, infinities and NaN propagation are not modelled. Every scalar is a `real`, and NaN appears only as the value of `MSE` on an empty prediction.
- Rust's borrowing of `Vec<&mut dyn Layer>` (src/main.rs:20-23) becomes ownership. `learn` returns the updated network.
- Network.Learn: requires `Chain`, under which each layer takes exactly the width the previous one produces, and a loss gradient at least as wide as the output. The source runs without panicking in some further cases, for instance when a dense layer preceded only by activation layers (the first layer, say) is fed a vector wider than its input size; the model does not cover them.
- Network.Predict: requires `Chain`, under which each layer takes exactly the width the previous one produces. The source's `predict` also runs when a dense layer is fed a wider vector, since it reads only the first `input_size` entries (src/fully_connected.rs:16-17); the model does not cover that case.
- Network.Train: requires `Trainable`, which asks every sample to chain and the loss gradient to cover the output for every prediction no longer than its expected vector. The source runs without panicking on some datasets that break this; the model does not cover them.
- Network.Learn: the two caches are returned as extra results so that the contract can speak of them. The source keeps them local.
- Network.BackwardPass: builds the error cache and the updated layers front to back instead of writing into preallocated slots and updating in place. The values are the same, because no step reads a slot or a layer written earlier in the loop other than the error slot just in front of it.
