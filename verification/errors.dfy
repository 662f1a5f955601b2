/** The loss contract (the `Error` struct of src/main.rs) and its one
    instance, the mean-squared error of src/errors.rs. */
module Errors {
  import opened Vectors

  /** A loss: a scalar measure of a prediction against the expected output
      (`measure` is the source's `function` field) and its per-output
      gradient. */
  datatype Loss = Loss(measure: (Vector, Vector) -> Float, derivative: (Vector, Vector) -> Vector)

  /** A loss whose gradient is never shorter than the prediction when the
      expected vector is not; backpropagation reads the gradient at every
      output position. */
  ghost predicate LossFits(loss: Loss)
  {
    forall p: Vector, e: Vector :: |p| <= |e| ==> |loss.derivative(p, e)| >= |p|
  }

  /** `(e - i) * (e - i)` over the zipped pairs. */
  function SquaredErrors(input: Vector, expected: Vector): Vector
  {
    ZipWith((i, e) => (e - i) * (e - i), input, expected)
  }

  /** `MSE.function`: the summed squared errors, divided by the length of
      the prediction and then by 2. An empty prediction divides 0 by 0. */
  function MseMeasure(input: Vector, expected: Vector): (r: Float)
    ensures r.NaN? <==> |input| == 0
    ensures r.Num? ==> r.value >= 0.0
  {
    if |input| == 0 then NaN
    else
      var squares := SquaredErrors(input, expected);
      SumNonNegative(squares);
      Num(Sum(squares) / (|input| as real) / 2.0)
  }

  /** `MSE.derivative`: the prediction minus the expected output, over the
      zipped pairs. */
  function MseDerivative(input: Vector, expected: Vector): (r: Vector)
    ensures |r| == Min(|input|, |expected|)
    ensures forall k :: 0 <= k < |r| ==> r[k] == input[k] - expected[k]
  {
    ZipWith((i, e) => i - e, input, expected)
  }

  function Square(x: real): real
  {
    x * x
  }

  /** The constant `MSE`. */
  function Mse(): Loss
  {
    Loss(MseMeasure, MseDerivative)
  }

  /** A perfect non-empty prediction has zero loss. */
  lemma MseOfSelf(v: Vector)
    requires |v| > 0
    ensures MseMeasure(v, v) == Num(0.0)
  {
    SumOfZeros(SquaredErrors(v, v));
  }

  /** The gradient of a perfect prediction is the zero vector of its length. */
  lemma MseDerivativeOfSelf(v: Vector)
    ensures |MseDerivative(v, v)| == |v|
    ensures IsZero(MseDerivative(v, v))
  {
  }

  /** Swapping prediction and expectation negates the gradient. */
  lemma MseDerivativeAntisymmetric(a: Vector, b: Vector)
    ensures |MseDerivative(a, b)| == |MseDerivative(b, a)|
    ensures forall k :: 0 <= k < |MseDerivative(a, b)| ==>
      MseDerivative(a, b)[k] == -MseDerivative(b, a)[k]
  {
  }

  /** Each squared error is the square of the matching gradient entry. */
  lemma SquaredErrorsOfDerivative(input: Vector, expected: Vector)
    ensures SquaredErrors(input, expected) == Map(Square, MseDerivative(input, expected))
  {
    var squares := SquaredErrors(input, expected);
    var d := MseDerivative(input, expected);
    var dd := Map(Square, d);
    assert |squares| == |dd|;
    forall k | 0 <= k < |squares|
      ensures squares[k] == dd[k]
    {
      SquareOfNegation(input[k], expected[k]);
    }
  }

  lemma SquareOfNegation(a: real, b: real)
    ensures (b - a) * (b - a) == Square(a - b)
  {
  }

  /** The loss in terms of the derivative: the sum of the squared
      derivative entries, divided by the prediction's length and by 2.
      (`MSE.derivative` is `|input|` times the gradient of `MSE.function`,
      not that gradient itself.) */
  lemma MseFromDerivative(input: Vector, expected: Vector)
    requires |input| > 0
    ensures MseMeasure(input, expected)
      == Num(Sum(Map(Square, MseDerivative(input, expected))) / (|input| as real) / 2.0)
  {
    SquaredErrorsOfDerivative(input, expected);
  }

  /** `MSE` never produces a gradient shorter than the prediction when the
      expected output is at least as long. */
  lemma MseFits()
    ensures LossFits(Mse())
  {
  }

  /** The values of `MSE.function` on two small cases: a perfect prediction,
      and a one-element miss by 2, whose loss is 4 / 1 / 2 = 2. */
  lemma MseExamples()
    ensures MseMeasure([1.0, 2.0], [1.0, 2.0]) == Num(0.0)
    ensures MseMeasure([0.0], [2.0]) == Num(2.0)
  {
    MseOfSelf([1.0, 2.0]);
    assert SquaredErrors([0.0], [2.0]) == [4.0];
  }
}
