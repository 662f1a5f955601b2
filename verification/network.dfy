/** The network of src/main.rs: an ordered sequence of layers and a loss,
    with `predict`, `learn` and `train`.

    The functions state what the operations mean, by recursion over the
    layer sequence: `Output` is the left fold of the layers' forwards,
    `Inputs` and `Gradients` are the forward and error caches, `Backprop`
    is one step of gradient descent by the chain rule, and `Epoch` and
    `Trained` are folds of `Step` over the dataset. The methods `Predict`,
    `Learn` and `Train` follow the loops of the source and are proved to
    compute exactly those meanings. */
module Network {
  import opened Vectors
  import opened Layers
  import opened Errors

  /** The network owns its layers; the source borrows them mutably for its
      lifetime, which comes to the same thing for a single owner. */
  datatype Network = Network(layers: seq<Layer>, error: Loss)

  /** One training pair of the dataset. */
  datatype Sample = Sample(input: Vector, expected: Vector)

  /** The assembly invariant: every layer takes exactly the width the
      previous one produces, starting from `n`. */
  predicate Chain(layers: seq<Layer>, n: nat)
    decreases |layers|
  {
    |layers| == 0 || (Fits(layers[0], n) && Chain(layers[1..], OutWidth(layers[0], n)))
  }

  /** The width of the network's output for an input of width `n`. */
  function Width(layers: seq<Layer>, n: nat): nat
    decreases |layers|
  {
    if |layers| == 0 then n else Width(layers[1..], OutWidth(layers[0], n))
  }

  /** Two layer sequences of equal length whose layers pairwise have the
      same shape. */
  predicate SameShapes(a: seq<Layer>, b: seq<Layer>)
  {
    |a| == |b| && forall i :: 0 <= i < |a| ==> SameShape(a[i], b[i])
  }

  /** Prediction's meaning: the left fold of the layers' forwards over the
      input, in list order. */
  function Output(layers: seq<Layer>, x: Vector): (r: Vector)
    requires Chain(layers, |x|)
    ensures |r| == Width(layers, |x|)
    decreases |layers|
  {
    if |layers| == 0 then x
    else
      FitsEnablesOperations(layers[0], |x|, 0);
      Output(layers[1..], Forward(layers[0], x))
  }

  /** The forward cache: `c[i]` is the input of layer `i`, `c[|layers|]`
      the network's output. */
  function Inputs(layers: seq<Layer>, x: Vector): (c: seq<Vector>)
    requires Chain(layers, |x|)
    ensures |c| == |layers| + 1 && c[0] == x
    decreases |layers|
  {
    if |layers| == 0 then [x]
    else
      FitsEnablesOperations(layers[0], |x|, 0);
      [x] + Inputs(layers[1..], Forward(layers[0], x))
  }

  /** The layers from `i` on chain from the width of entry `i` of the
      forward cache and end at the network's output width; the next entry
      is layer `i`'s forward of entry `i`, and the last entry is the
      network's output. */
  lemma {:induction false} InputsAt(layers: seq<Layer>, x: Vector, i: nat)
    requires Chain(layers, |x|) && i <= |layers|
    ensures Chain(layers[i..], |Inputs(layers, x)[i]|)
    ensures Width(layers[i..], |Inputs(layers, x)[i]|) == Width(layers, |x|)
    ensures i < |layers| ==> Fits(layers[i], |Inputs(layers, x)[i]|)
    ensures i < |layers| ==> Inputs(layers, x)[i + 1] == Forward(layers[i], Inputs(layers, x)[i])
    ensures i == |layers| ==> Inputs(layers, x)[i] == Output(layers, x)
    decreases |layers|
  {
    if |layers| > 0 {
      FitsEnablesOperations(layers[0], |x|, 0);
      var x' := Forward(layers[0], x);
      var c, c' := Inputs(layers, x), Inputs(layers[1..], x');
      assert c == [x] + c';
      if i == 0 {
        assert layers[0..] == layers;
      } else {
        InputsAt(layers[1..], x', i - 1);
        assert layers[1..][i - 1..] == layers[i..];
        if i < |layers| {
          assert layers[1..][i - 1] == layers[i];
        }
      }
    }
  }

  /** The error cache: `g[|layers|]` is the loss gradient `seed`, and
      `g[i]` the gradient at the input of layer `i`, obtained from layer
      `i`'s backward applied to its cached input and `g[i + 1]`. */
  function Gradients(layers: seq<Layer>, x: Vector, seed: Vector): (g: seq<Vector>)
    requires Chain(layers, |x|) && |seed| >= Width(layers, |x|)
    ensures |g| == |layers| + 1 && g[|layers|] == seed
    ensures |g[0]| >= |x|
    decreases |layers|
  {
    if |layers| == 0 then [seed]
    else
      FitsEnablesOperations(layers[0], |x|, 0);
      var x' := Forward(layers[0], x);
      var rest := Gradients(layers[1..], x', seed);
      FitsEnablesOperations(layers[0], |x|, |rest[0]|);
      [Backward(layers[0], x, rest[0])] + rest
  }

  /** Entry `i` of the error cache is at least as wide as entry `i` of the
      forward cache, and is layer `i`'s backward of its cached input and of
      entry `i + 1`. */
  lemma {:induction false} GradientsAt(layers: seq<Layer>, x: Vector, seed: Vector, i: nat)
    requires Chain(layers, |x|) && |seed| >= Width(layers, |x|) && i <= |layers|
    ensures |Gradients(layers, x, seed)[i]| >= |Inputs(layers, x)[i]|
    ensures i < |layers| ==>
      && CanForward(layers[i], |Inputs(layers, x)[i]|)
      && CanBackward(layers[i], |Gradients(layers, x, seed)[i + 1]|)
      && Gradients(layers, x, seed)[i]
         == Backward(layers[i], Inputs(layers, x)[i], Gradients(layers, x, seed)[i + 1])
    decreases |layers|
  {
    if |layers| > 0 {
      var x' := Forward(layers[0], x);
      var g, g' := Gradients(layers, x, seed), Gradients(layers[1..], x', seed);
      var c, c' := Inputs(layers, x), Inputs(layers[1..], x');
      FitsEnablesOperations(layers[0], |x|, |g'[0]|);
      assert g == [Backward(layers[0], x, g'[0])] + g';
      assert c == [x] + c';
      if i > 0 {
        GradientsAt(layers[1..], x', seed, i - 1);
        if i < |layers| {
          assert layers[1..][i - 1] == layers[i];
        }
      }
    }
  }

  /** One step of gradient descent by the chain rule: the updated layers
      and the gradient at the network's input. Every layer is updated with
      its own input and the gradient at its OUTPUT; the gradient it passes
      back is computed with its parameters from before the step (see
      `BackpropAt`). */
  function Backprop(layers: seq<Layer>, x: Vector, seed: Vector, rate: real): (r: (seq<Layer>, Vector))
    requires Chain(layers, |x|) && |seed| >= Width(layers, |x|)
    ensures |r.0| == |layers|
    ensures r.1 == Gradients(layers, x, seed)[0]
    decreases |layers|
  {
    if |layers| == 0 then ([], seed)
    else
      FitsEnablesOperations(layers[0], |x|, 0);
      var (rest, e) := Backprop(layers[1..], Forward(layers[0], x), seed, rate);
      FitsEnablesOperations(layers[0], |x|, |e|);
      ([Update(layers[0], x, e, rate)] + rest, Backward(layers[0], x, e))
  }

  /** One unfolding of `Backprop`, `Inputs` and `Gradients` on a non-empty
      layer sequence. */
  lemma BackpropUnfolds(layers: seq<Layer>, x: Vector, seed: Vector, rate: real)
    requires |layers| > 0 && Chain(layers, |x|) && |seed| >= Width(layers, |x|)
    ensures CanForward(layers[0], |x|)
    ensures Chain(layers[1..], |Forward(layers[0], x)|)
    ensures |seed| >= Width(layers[1..], |Forward(layers[0], x)|)
    ensures CanBackward(layers[0], |Gradients(layers[1..], Forward(layers[0], x), seed)[0]|)
    ensures Inputs(layers, x) == [x] + Inputs(layers[1..], Forward(layers[0], x))
    ensures Gradients(layers, x, seed)
      == [Backward(layers[0], x, Gradients(layers[1..], Forward(layers[0], x), seed)[0])]
         + Gradients(layers[1..], Forward(layers[0], x), seed)
    ensures Backprop(layers, x, seed, rate).0
      == [Update(layers[0], x, Gradients(layers[1..], Forward(layers[0], x), seed)[0], rate)]
         + Backprop(layers[1..], Forward(layers[0], x), seed, rate).0
  {
    var x' := Forward(layers[0], x);
    FitsEnablesOperations(layers[0], |x|, |Gradients(layers[1..], x', seed)[0]|);
  }

  /** Layer `i` of the stepped network is layer `i` updated with the cached
      input `Inputs[i]` and the output-side gradient `Gradients[i + 1]`,
      never with its own input-side gradient `Gradients[i]`. */
  lemma {:induction false} BackpropAt(layers: seq<Layer>, x: Vector, seed: Vector, rate: real, i: nat)
    requires Chain(layers, |x|) && |seed| >= Width(layers, |x|) && i < |layers|
    ensures CanForward(layers[i], |Inputs(layers, x)[i]|)
    ensures CanBackward(layers[i], |Gradients(layers, x, seed)[i + 1]|)
    ensures Backprop(layers, x, seed, rate).0[i]
      == Update(layers[i], Inputs(layers, x)[i], Gradients(layers, x, seed)[i + 1], rate)
    decreases |layers|
  {
    GradientsAt(layers, x, seed, i);
    BackpropUnfolds(layers, x, seed, rate);
    if i > 0 {
      BackpropAt(layers[1..], Forward(layers[0], x), seed, rate, i - 1);
      assert layers[1..][i - 1] == layers[i];
    }
  }

  /** A step at a zero learning rate leaves every layer as it was. */
  lemma BackpropAtZeroRate(layers: seq<Layer>, x: Vector, seed: Vector)
    requires Chain(layers, |x|) && |seed| >= Width(layers, |x|)
    ensures Backprop(layers, x, seed, 0.0).0 == layers
  {
    var r := Backprop(layers, x, seed, 0.0).0;
    forall i | 0 <= i < |layers|
      ensures r[i] == layers[i]
    {
      BackpropAt(layers, x, seed, 0.0, i);
      UpdateAtZeroRate(layers[i], Inputs(layers, x)[i], Gradients(layers, x, seed)[i + 1]);
    }
  }

  /** One step keeps every layer's shape. */
  lemma BackpropShapes(layers: seq<Layer>, x: Vector, seed: Vector, rate: real)
    requires Chain(layers, |x|) && |seed| >= Width(layers, |x|)
    ensures SameShapes(layers, Backprop(layers, x, seed, rate).0)
  {
    var r := Backprop(layers, x, seed, rate).0;
    forall i | 0 <= i < |layers|
      ensures SameShape(layers[i], r[i])
    {
      BackpropAt(layers, x, seed, rate, i);
    }
  }

  /** The loss gradient `learn` starts the backward pass from. */
  function Seed(net: Network, input: Vector, expected: Vector): Vector
    requires Chain(net.layers, |input|)
  {
    net.error.derivative(Output(net.layers, input), expected)
  }

  /** `learn` runs without indexing out of bounds: the layers chain from the
      input's width and the loss gradient covers the whole output. */
  predicate Learnable(net: Network, input: Vector, expected: Vector)
  {
    Chain(net.layers, |input|) && |Seed(net, input, expected)| >= Width(net.layers, |input|)
  }

  /** `learn`'s effect on the network. */
  function Step(net: Network, input: Vector, expected: Vector, rate: real): (r: Network)
    requires Learnable(net, input, expected)
    ensures r.error == net.error
    ensures SameShapes(net.layers, r.layers)
  {
    BackpropShapes(net.layers, input, Seed(net, input, expected), rate);
    Network(Backprop(net.layers, input, Seed(net, input, expected), rate).0, net.error)
  }

  /** `predict`: feed the input through every layer in order. */
  method Predict(net: Network, input: Vector) returns (output: Vector)
    requires Chain(net.layers, |input|)
    ensures |output| == Width(net.layers, |input|)
    ensures output == Output(net.layers, input)
    ensures |net.layers| == 0 ==> output == input
  {
    var next := input;
    for k := 0 to |net.layers|
      invariant next == Inputs(net.layers, input)[k]
    {
      InputsAt(net.layers, input, k);
      next := Forward(net.layers[k], next);
    }
    InputsAt(net.layers, input, |net.layers|);
    output := next;
  }

  /** The first loop of `learn`: run forward through every layer, storing
      each layer's input and, in the last slot, the network's output. */
  method ForwardPass(layers: seq<Layer>, input: Vector) returns (inputs: seq<Vector>)
    requires Chain(layers, |input|)
    ensures inputs == Inputs(layers, input)
  {
    ghost var cache := Inputs(layers, input);
    var n := |layers|;
    inputs := seq(n + 1, _ => []);
    inputs := inputs[0 := input];
    for i := 0 to n
      invariant |inputs| == n + 1
      invariant forall k :: 0 <= k <= i ==> inputs[k] == cache[k]
    {
      InputsAt(layers, input, i);
      assert Forward(layers[i], inputs[i]) == cache[i + 1];
      inputs := inputs[i + 1 := Forward(layers[i], inputs[i])];
    }
    assert |inputs| == |cache|;
  }

  /** One iteration of the backward loop, at layer `i`: the suffix from
      `i` chains, and its error cache and stepped layers are those of the
      suffix from `i + 1` with layer `i`'s backward and update in front. */
  lemma BackwardStep(layers: seq<Layer>, x: Vector, seed: Vector, rate: real, i: nat)
    requires Chain(layers, |x|) && |seed| >= Width(layers, |x|) && i < |layers|
    ensures Chain(layers[i..], |Inputs(layers, x)[i]|)
    ensures |seed| >= Width(layers[i..], |Inputs(layers, x)[i]|)
    ensures Chain(layers[i + 1..], |Inputs(layers, x)[i + 1]|)
    ensures |seed| >= Width(layers[i + 1..], |Inputs(layers, x)[i + 1]|)
    ensures CanForward(layers[i], |Inputs(layers, x)[i]|)
    ensures CanBackward(layers[i], |Gradients(layers[i + 1..], Inputs(layers, x)[i + 1], seed)[0]|)
    ensures Gradients(layers[i..], Inputs(layers, x)[i], seed)
      == [Backward(layers[i], Inputs(layers, x)[i], Gradients(layers[i + 1..], Inputs(layers, x)[i + 1], seed)[0])]
         + Gradients(layers[i + 1..], Inputs(layers, x)[i + 1], seed)
    ensures Backprop(layers[i..], Inputs(layers, x)[i], seed, rate).0
      == [Update(layers[i], Inputs(layers, x)[i], Gradients(layers[i + 1..], Inputs(layers, x)[i + 1], seed)[0], rate)]
         + Backprop(layers[i + 1..], Inputs(layers, x)[i + 1], seed, rate).0
  {
    InputsAt(layers, x, i);
    InputsAt(layers, x, i + 1);
    assert layers[i..][0] == layers[i] && layers[i..][1..] == layers[i + 1..];
    BackpropUnfolds(layers[i..], Inputs(layers, x)[i], seed, rate);
  }

  /** The second loop of `learn`: from the last layer to the first, compute
      layer `i`'s input gradient from the gradient at its output with the
      layer as it still is, and only then update the layer with its cached
      input and that same output gradient. The gradients and the updated
      layers are collected front to back instead of being written into
      preallocated slots; no step reads a slot written earlier in the loop
      other than the one just in front of it. */
  method BackwardPass(layers: seq<Layer>, input: Vector, inputs: seq<Vector>, seed: Vector, rate: real)
    returns (updated: seq<Layer>, errors: seq<Vector>)
    requires Chain(layers, |input|) && |seed| >= Width(layers, |input|)
    requires inputs == Inputs(layers, input)
    ensures errors == Gradients(layers, input, seed)
    ensures updated == Backprop(layers, input, seed, rate).0
  {
    var n := |layers|;
    errors := [seed];
    updated := [];
    var i := n;
    InputsAt(layers, input, n);
    while i > 0
      invariant 0 <= i <= n
      invariant Chain(layers[i..], |inputs[i]|) && |seed| >= Width(layers[i..], |inputs[i]|)
      invariant errors == Gradients(layers[i..], inputs[i], seed)
      invariant updated == Backprop(layers[i..], inputs[i], seed, rate).0
    {
      i := i - 1;
      BackwardStep(layers, input, seed, rate, i);
      var outputError := errors[0];
      updated := [Update(layers[i], inputs[i], outputError, rate)] + updated;
      errors := [Backward(layers[i], inputs[i], outputError)] + errors;
    }
    assert layers[0..] == layers;
  }

  /** `learn`: a forward pass filling the input cache, the loss of the
      output, then the backward pass seeded with the loss gradient of the
      output. The two caches, local to the source, are returned so that the
      contract can speak of them; `GradientsAt` and `BackpropAt` spell out
      their entries and the updated layers index by index. */
  method Learn(net: Network, input: Vector, expected: Vector, rate: real)
    returns (r: Network, output: Vector, loss: Float, inputs: seq<Vector>, errors: seq<Vector>)
    requires Learnable(net, input, expected)
    ensures inputs == Inputs(net.layers, input)
    ensures output == inputs[|net.layers|] == Output(net.layers, input)
    ensures loss == net.error.measure(output, expected)
    ensures errors == Gradients(net.layers, input, net.error.derivative(output, expected))
    ensures errors[|net.layers|] == net.error.derivative(output, expected)
    ensures r == Step(net, input, expected, rate)
  {
    inputs := ForwardPass(net.layers, input);
    InputsAt(net.layers, input, |net.layers|);
    output := inputs[|net.layers|];
    loss := net.error.measure(output, expected);
    var layers;
    layers, errors := BackwardPass(net.layers, input, inputs, net.error.derivative(output, expected), rate);
    r := Network(layers, net.error);
  }

  /** A network ready for training on `data`: its loss gradient covers any
      prediction no longer than the expected output, and every sample fits
      the layers. */
  ghost predicate Trainable(net: Network, data: seq<Sample>)
  {
    && LossFits(net.error)
    && forall k :: 0 <= k < |data| ==>
         && Chain(net.layers, |data[k].input|)
         && |data[k].expected| >= Width(net.layers, |data[k].input|)
  }

  /** Layer shapes fix every width: a shape-preserving change keeps the
      chain invariant and the output width for every input width. */
  lemma {:induction false} SameShapesChain(a: seq<Layer>, b: seq<Layer>, n: nat)
    requires SameShapes(a, b)
    ensures Width(b, n) == Width(a, n)
    ensures Chain(a, n) ==> Chain(b, n)
    decreases |a|
  {
    if |a| > 0 {
      SameShapeFits(a[0], b[0], n);
      assert SameShapes(a[1..], b[1..]) by {
        forall i | 0 <= i < |a| - 1
          ensures SameShape(a[1..][i], b[1..][i])
        {
          assert a[1..][i] == a[i + 1] && b[1..][i] == b[i + 1];
        }
      }
      SameShapesChain(a[1..], b[1..], OutWidth(a[0], n));
    }
  }

  lemma SameShapesTransitive(a: seq<Layer>, b: seq<Layer>, c: seq<Layer>)
    requires SameShapes(a, b) && SameShapes(b, c)
    ensures SameShapes(a, c)
  {
  }

  lemma SameShapesKeepTrainable(a: Network, b: Network, data: seq<Sample>)
    requires Trainable(a, data) && b.error == a.error && SameShapes(a.layers, b.layers)
    ensures Trainable(b, data)
  {
    forall k | 0 <= k < |data|
      ensures Chain(b.layers, |data[k].input|)
      ensures |data[k].expected| >= Width(b.layers, |data[k].input|)
    {
      SameShapesChain(a.layers, b.layers, |data[k].input|);
    }
  }

  lemma TrainableSuffix(net: Network, data: seq<Sample>, k: nat)
    requires Trainable(net, data) && k <= |data|
    ensures Trainable(net, data[k..])
  {
    forall i | 0 <= i < |data| - k
      ensures Chain(net.layers, |data[k..][i].input|)
      ensures |data[k..][i].expected| >= Width(net.layers, |data[k..][i].input|)
    {
      assert data[k..][i] == data[k + i];
    }
  }

  /** Every sample of a trainable network can be learned. */
  lemma TrainableLearnable(net: Network, data: seq<Sample>, k: nat)
    requires Trainable(net, data) && k < |data|
    ensures Learnable(net, data[k].input, data[k].expected)
  {
    var s := data[k];
    var p := Output(net.layers, s.input);
    assert |p| <= |s.expected|;
    assert |net.error.derivative(p, s.expected)| >= |p|;
  }

  /** One epoch: `learn` on every sample, in dataset order. */
  function Epoch(net: Network, data: seq<Sample>, rate: real): (r: Network)
    requires Trainable(net, data)
    ensures r.error == net.error && SameShapes(net.layers, r.layers)
    decreases |data|
  {
    if |data| == 0 then net
    else
      TrainableLearnable(net, data, 0);
      var next := Step(net, data[0].input, data[0].expected, rate);
      TrainableSuffix(net, data, 1);
      SameShapesKeepTrainable(net, next, data[1..]);
      var r := Epoch(next, data[1..], rate);
      SameShapesTransitive(net.layers, next.layers, r.layers);
      r
  }

  /** `iters` epochs, one after the other: the first epoch, then the
      remaining `iters - 1` from where it left the network. */
  function Trained(net: Network, data: seq<Sample>, iters: nat, rate: real): (r: Network)
    requires Trainable(net, data)
    ensures r.error == net.error && SameShapes(net.layers, r.layers)
    decreases iters
  {
    if iters == 0 then net
    else
      var next := Epoch(net, data, rate);
      SameShapesKeepTrainable(net, next, data);
      var r := Trained(next, data, iters - 1, rate);
      SameShapesTransitive(net.layers, next.layers, r.layers);
      r
  }

  /** Learning sample `k` keeps the network trainable on the whole dataset,
      and what is left of the epoch after it is the epoch of the remaining
      samples from the stepped network. */
  lemma EpochStep(net: Network, data: seq<Sample>, rate: real, k: nat)
    requires Trainable(net, data) && k < |data|
    ensures Learnable(net, data[k].input, data[k].expected)
    ensures Trainable(Step(net, data[k].input, data[k].expected, rate), data)
    ensures Trainable(net, data[k..])
    ensures Trainable(Step(net, data[k].input, data[k].expected, rate), data[k + 1..])
    ensures Epoch(net, data[k..], rate)
      == Epoch(Step(net, data[k].input, data[k].expected, rate), data[k + 1..], rate)
  {
    TrainableLearnable(net, data, k);
    var next := Step(net, data[k].input, data[k].expected, rate);
    SameShapesKeepTrainable(net, next, data);
    TrainableSuffix(net, data, k);
    TrainableSuffix(next, data, k + 1);
    assert data[k..][0] == data[k] && data[k..][1..] == data[k + 1..];
  }

  /** One epoch of `train`'s inner loop: `learn` on every sample, in
      dataset order. */
  method TrainEpoch(net: Network, data: seq<Sample>, rate: real) returns (r: Network)
    requires Trainable(net, data)
    ensures r == Epoch(net, data, rate)
  {
    r := net;
    assert data[0..] == data;
    ghost var epoch := Epoch(net, data, rate);
    for k := 0 to |data|
      invariant Trainable(r, data) && Trainable(r, data[k..])
      invariant epoch == Epoch(r, data[k..], rate)
    {
      r := LearnSample(r, data, rate, k);
    }
    assert data[|data|..] == [];
  }

  /** The body of `train`'s inner loop: `learn` on sample `k`, its output
      and loss discarded. */
  method LearnSample(net: Network, data: seq<Sample>, rate: real, k: nat) returns (r: Network)
    requires Trainable(net, data) && k < |data|
    ensures Learnable(net, data[k].input, data[k].expected)
    ensures r == Step(net, data[k].input, data[k].expected, rate)
    ensures Trainable(r, data) && Trainable(r, data[k + 1..])
    ensures Trainable(net, data[k..]) && Epoch(net, data[k..], rate) == Epoch(r, data[k + 1..], rate)
  {
    EpochStep(net, data, rate, k);
    var output, loss, inputs, errors;
    r, output, loss, inputs, errors := Learn(net, data[k].input, data[k].expected, rate);
  }

  /** `train`: `iters` epochs, each one `learn` call per sample in dataset
      order (see `TrainedIsScheduledEpoch` for the flat call order). */
  method Train(net: Network, data: seq<Sample>, iters: nat, rate: real) returns (r: Network)
    requires Trainable(net, data)
    ensures r == Trained(net, data, iters, rate)
  {
    r := net;
    ghost var trained := Trained(net, data, iters, rate);
    for epoch := 0 to iters
      invariant Trainable(r, data)
      invariant trained == Trained(r, data, iters - epoch, rate)
    {
      var next := TrainEpoch(r, data, rate);
      SameShapesKeepTrainable(r, next, data);
      r := next;
    }
  }

  /** The samples `train` learns, in call order: the dataset `iters` times
      over. */
  function Schedule(data: seq<Sample>, iters: nat): seq<Sample>
  {
    if iters == 0 then [] else data + Schedule(data, iters - 1)
  }

  /** `train` makes `iters * |data|` calls, and call `t` learns sample
      `t mod |data|`. */
  lemma {:induction false} ScheduleAt(data: seq<Sample>, iters: nat, t: nat)
    ensures |Schedule(data, iters)| == iters * |data|
    ensures t < |Schedule(data, iters)| ==> |data| > 0 && Schedule(data, iters)[t] == data[t % |data|]
  {
    ScheduleLength(data, iters);
    if iters > 0 && t < |Schedule(data, iters)| {
      if t < |data| {
        MultipleModulus(0, |data|, t);
      } else {
        ScheduleLength(data, iters - 1);
        ScheduleAt(data, iters - 1, t - |data|);
        ModAfterRound(t, |data|);
      }
    }
  }

  lemma {:induction false} ScheduleLength(data: seq<Sample>, iters: nat)
    ensures |Schedule(data, iters)| == iters * |data|
  {
    if iters > 0 {
      ScheduleLength(data, iters - 1);
      assert |data| + (iters - 1) * |data| == iters * |data|;
    }
  }

  /** Dropping one whole round of `d` keeps the remainder. */
  lemma ModAfterRound(t: nat, d: nat)
    requires 0 < d <= t
    ensures (t - d) % d == t % d
  {
    var q, m := (t - d) / d, (t - d) % d;
    assert t == (q + 1) * d + m;
    MultipleModulus(q + 1, d, m);
  }


  lemma TrainableAppend(net: Network, a: seq<Sample>, b: seq<Sample>)
    requires Trainable(net, a) && Trainable(net, b)
    ensures Trainable(net, a + b)
  {
    forall k | 0 <= k < |a + b|
      ensures Chain(net.layers, |(a + b)[k].input|)
      ensures |(a + b)[k].expected| >= Width(net.layers, |(a + b)[k].input|)
    {
      if k >= |a| {
        assert (a + b)[k] == b[k - |a|];
      }
    }
  }

  /** Every sample of the schedule is a sample of the dataset, so a network
      trainable on the dataset is trainable on the schedule. */
  lemma {:induction false} ScheduleTrainable(net: Network, data: seq<Sample>, iters: nat)
    requires Trainable(net, data)
    ensures Trainable(net, Schedule(data, iters))
  {
    if iters > 0 {
      ScheduleTrainable(net, data, iters - 1);
      TrainableAppend(net, data, Schedule(data, iters - 1));
    }
  }

  /** Learning `a` then `b` is learning `a + b`. */
  lemma {:induction false} EpochAppend(net: Network, a: seq<Sample>, b: seq<Sample>, rate: real)
    requires Trainable(net, a + b)
    ensures Trainable(net, a)
    ensures Trainable(Epoch(net, a, rate), b)
    ensures Epoch(net, a + b, rate) == Epoch(Epoch(net, a, rate), b, rate)
    decreases |a|
  {
    TrainableSuffix(net, a + b, 0);
    TrainableSuffix(net, a + b, |a|);
    assert (a + b)[|a|..] == b && (a + b)[..|a|] == a;
    assert Trainable(net, a) by {
      forall k | 0 <= k < |a|
        ensures Chain(net.layers, |a[k].input|)
        ensures |a[k].expected| >= Width(net.layers, |a[k].input|)
      {
        assert a[k] == (a + b)[k];
      }
    }
    if |a| == 0 {
      assert a + b == b;
    } else {
      TrainableLearnable(net, a + b, 0);
      assert (a + b)[0] == a[0] && (a + b)[1..] == a[1..] + b;
      var next := Step(net, a[0].input, a[0].expected, rate);
      TrainableSuffix(net, a + b, 1);
      SameShapesKeepTrainable(net, next, a[1..] + b);
      EpochAppend(next, a[1..], b, rate);
    }
  }

  /** `train` is `learn` over the flat schedule: `iters * |data|` steps,
      step `t` on sample `t mod |data|` (see `ScheduleAt`). */
  lemma {:induction false} TrainedIsScheduledEpoch(net: Network, data: seq<Sample>, iters: nat, rate: real)
    requires Trainable(net, data)
    ensures Trainable(net, Schedule(data, iters))
    ensures Trained(net, data, iters, rate) == Epoch(net, Schedule(data, iters), rate)
    decreases iters
  {
    if iters == 0 {
      ScheduleTrainable(net, data, 0);
    } else {
      TrainedUnfolds(net, data, iters, rate);
      ScheduleUnfolds(net, data, iters, rate);
      TrainedIsScheduledEpoch(Epoch(net, data, rate), data, iters - 1, rate);
    }
  }

  /** `iters` epochs are the first epoch followed by `iters - 1` more. */
  lemma TrainedUnfolds(net: Network, data: seq<Sample>, iters: nat, rate: real)
    requires Trainable(net, data) && iters > 0
    ensures Trainable(Epoch(net, data, rate), data)
    ensures Trained(net, data, iters, rate) == Trained(Epoch(net, data, rate), data, iters - 1, rate)
  {
    SameShapesKeepTrainable(net, Epoch(net, data, rate), data);
  }

  /** Learning the schedule is learning the dataset once and then the
      schedule one round shorter. */
  lemma ScheduleUnfolds(net: Network, data: seq<Sample>, iters: nat, rate: real)
    requires Trainable(net, data) && iters > 0
    ensures Trainable(net, Schedule(data, iters))
    ensures Trainable(Epoch(net, data, rate), Schedule(data, iters - 1))
    ensures Epoch(net, Schedule(data, iters), rate)
      == Epoch(Epoch(net, data, rate), Schedule(data, iters - 1), rate)
  {
    ScheduleTrainable(net, data, iters - 1);
    EpochAppend(net, data, Schedule(data, iters - 1), rate);
  }

  /** `e` whole rounds of `d` leave remainder `k`. */
  lemma MultipleModulus(e: nat, d: nat, k: nat)
    requires k < d
    ensures (e * d + k) % d == k
  {
    var x := e * d + k;
    var q, m := x / d, x % d;
    assert x == q * d + m && 0 <= m < d;
    if q > e {
      MulAtLeast(q - e, d);
      assert false;
    } else if q < e {
      MulAtLeast(e - q, d);
      assert false;
    }
  }

  lemma MulAtLeast(t: int, d: nat)
    requires t >= 1
    ensures t * d >= d
  {
  }
}
