/** The elementwise activation layer of src/activation.rs: a scalar function
    and its derivative, both taken at the layer's input. The layer has no
    parameters, so its update is the identity (see `Layers.Update`). */
module Activations {
  import opened Vectors

  /** `apply` is the source's `function` field. */
  datatype Activation = Activation(apply: real -> real, derivative: real -> real)

  /** `forward`: the function applied to every element. */
  function Forward(a: Activation, input: Vector): (r: Vector)
    ensures |r| == |input|
    ensures forall k :: 0 <= k < |input| ==> r[k] == a.apply(input[k])
  {
    Map(a.apply, input)
  }

  /** `backward`: the derivative at each input times the matching output
      error, over the zipped (shorter) length. */
  function Backward(a: Activation, input: Vector, outputError: Vector): (r: Vector)
    ensures |r| == Min(|input|, |outputError|)
    ensures forall k :: 0 <= k < |r| ==> r[k] == a.derivative(input[k]) * outputError[k]
  {
    ZipWith((x, e) => a.derivative(x) * e, input, outputError)
  }

  /** Backward against an all-ones error at least as long as the input is the
      derivative mapped over the input. */
  lemma BackwardOfOnes(a: Activation, input: Vector, ones: Vector)
    requires |ones| >= |input|
    requires forall k :: 0 <= k < |ones| ==> ones[k] == 1.0
    ensures Backward(a, input, ones) == Map(a.derivative, input)
  {
    var r := Backward(a, input, ones);
    var m := Map(a.derivative, input);
    assert |r| == |m|;
    forall k | 0 <= k < |r|
      ensures r[k] == m[k]
    {
      ScaledByOne(a.derivative(input[k]), ones[k]);
    }
  }

  lemma ScaledByOne(x: real, one: real)
    requires one == 1.0
    ensures x * one == x
  {
  }

  /** `relu`: `max(x, 0)`. */
  function Relu(x: real): (r: real)
    ensures r >= 0.0
    ensures r >= x
    ensures x >= 0.0 ==> r == x
    ensures x < 0.0 ==> r == 0.0
  {
    if x > 0.0 then x else 0.0
  }

  /** `drelu`: 1 for a positive input, otherwise 0 (so 0 at 0). */
  function DRelu(x: real): (r: real)
    ensures r == 0.0 || r == 1.0
    ensures r == 1.0 <==> x > 0.0
  {
    if x > 0.0 then 1.0 else 0.0
  }

  /** `dtanh` in terms of the `tanh` it differentiates: `1 - tanh(x)^2`,
      which never exceeds 1. */
  function DTanh(tanh: real -> real, x: real): (r: real)
    ensures r <= 1.0
    ensures tanh(x) == 0.0 ==> r == 1.0
  {
    1.0 - tanh(x) * tanh(x)
  }

  /** The layer `Activation::new(relu, drelu)`. */
  function ReluLayer(): Activation
  {
    Activation(Relu, DRelu)
  }

  /** The layer `Activation::new(tanh, dtanh)` for a given `tanh`. */
  function TanhLayer(tanh: real -> real): Activation
  {
    Activation(tanh, x => DTanh(tanh, x))
  }

  /** For a `tanh` whose values lie strictly between -1 and 1, as the real
      one's do, a tanh layer passes each output error back scaled by a
      factor in (0, 1]: never amplified and never of the opposite sign. */
  lemma TanhBackwardDamps(tanh: real -> real, input: Vector, outputError: Vector)
    requires forall x :: -1.0 < tanh(x) < 1.0
    ensures forall k :: 0 <= k < |Backward(TanhLayer(tanh), input, outputError)| ==>
      var d := Backward(TanhLayer(tanh), input, outputError)[k];
      && (outputError[k] >= 0.0 ==> 0.0 <= d <= outputError[k])
      && (outputError[k] <= 0.0 ==> outputError[k] <= d <= 0.0)
      && (outputError[k] > 0.0 ==> d > 0.0)
      && (outputError[k] < 0.0 ==> d < 0.0)
  {
    var r := Backward(TanhLayer(tanh), input, outputError);
    forall k | 0 <= k < |r|
      ensures outputError[k] >= 0.0 ==> 0.0 <= r[k] <= outputError[k]
      ensures outputError[k] <= 0.0 ==> outputError[k] <= r[k] <= 0.0
      ensures outputError[k] > 0.0 ==> r[k] > 0.0
      ensures outputError[k] < 0.0 ==> r[k] < 0.0
    {
      assert TanhLayer(tanh).derivative(input[k]) == DTanh(tanh, input[k]);
      DTanhScales(tanh, input[k], outputError[k], r[k]);
    }
  }

  /** One entry of `TanhBackwardDamps`. */
  lemma DTanhScales(tanh: real -> real, x: real, e: real, d: real)
    requires -1.0 < tanh(x) < 1.0 && d == DTanh(tanh, x) * e
    ensures e >= 0.0 ==> 0.0 <= d <= e
    ensures e <= 0.0 ==> e <= d <= 0.0
    ensures e > 0.0 ==> d > 0.0
    ensures e < 0.0 ==> d < 0.0
  {
    SquareBelowOne(tanh(x));
    ScaledBetween(DTanh(tanh, x), e);
  }

  lemma SquareBelowOne(t: real)
    requires -1.0 < t < 1.0
    ensures 0.0 < 1.0 - t * t <= 1.0
  {
    if t >= 0.0 {
      assert t * t <= t * 1.0;
    } else {
      assert t * t <= (-t) * 1.0;
    }
  }

  lemma ScaledBetween(f: real, e: real)
    requires 0.0 < f <= 1.0
    ensures e >= 0.0 ==> 0.0 <= f * e <= e
    ensures e <= 0.0 ==> e <= f * e <= 0.0
    ensures e > 0.0 ==> f * e > 0.0
    ensures e < 0.0 ==> f * e < 0.0
  {
    if e > 0.0 {
      assert f * e <= 1.0 * e;
      assert f * e > 0.0;
    } else if e < 0.0 {
      assert 1.0 * e <= f * e;
      assert f * e < 0.0;
    }
  }

  /** `relu` is idempotent, and so is a relu layer's forward. */
  lemma ReluForwardIdempotent(input: Vector)
    ensures forall x :: Relu(Relu(x)) == Relu(x)
    ensures Forward(ReluLayer(), Forward(ReluLayer(), input)) == Forward(ReluLayer(), input)
  {
    var once := Forward(ReluLayer(), input);
    var twice := Forward(ReluLayer(), once);
    assert forall k :: 0 <= k < |input| ==> twice[k] == once[k];
  }
}
