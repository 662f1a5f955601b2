/** The `Layer` trait of src/main.rs as a closed datatype over its two
    implementations, with the trait's three operations dispatched on it. */
module Layers {
  import opened Vectors
  import Dense
  import Activations

  datatype Layer =
    | DenseLayer(fc: Dense.FullyConnected)
    | ActivationLayer(act: Activations.Activation)

  /** `forward` does not index out of bounds on an input of length `n`. */
  predicate CanForward(l: Layer, n: nat)
  {
    match l
    case DenseLayer(fc) => fc.Valid() && n >= fc.inputSize
    case ActivationLayer(_) => true
  }

  /** `backward` does not index out of bounds on an output error of length `m`. */
  predicate CanBackward(l: Layer, m: nat)
  {
    match l
    case DenseLayer(fc) => fc.Valid() && m >= fc.outputSize
    case ActivationLayer(_) => true
  }

  /** The layer takes inputs of exactly width `n`: the assembly invariant
      of a network. */
  predicate Fits(l: Layer, n: nat)
  {
    match l
    case DenseLayer(fc) => fc.Valid() && fc.inputSize == n
    case ActivationLayer(_) => true
  }

  /** The width of the layer's output for an input of width `n`. */
  function OutWidth(l: Layer, n: nat): nat
  {
    match l
    case DenseLayer(fc) => fc.outputSize
    case ActivationLayer(_) => n
  }

  /** Two layers of the same kind and sizes, the second well formed when the
      first is: parameter updates keep a layer in this relation. */
  predicate SameShape(a: Layer, b: Layer)
  {
    match a
    case DenseLayer(f) =>
      && b.DenseLayer?
      && b.fc.inputSize == f.inputSize
      && b.fc.outputSize == f.outputSize
      && (f.Valid() ==> b.fc.Valid())
    case ActivationLayer(_) => b.ActivationLayer?
  }

  function Forward(l: Layer, input: Vector): (r: Vector)
    requires CanForward(l, |input|)
    ensures |r| == OutWidth(l, |input|)
  {
    match l
    case DenseLayer(fc) => Dense.Affine(fc, input)
    case ActivationLayer(a) => Activations.Forward(a, input)
  }

  function Backward(l: Layer, input: Vector, outputError: Vector): (r: Vector)
    requires CanBackward(l, |outputError|)
    ensures Fits(l, |input|) && |outputError| >= OutWidth(l, |input|) ==> |r| == |input|
  {
    match l
    case DenseLayer(fc) => Dense.Transposed(fc, outputError)
    case ActivationLayer(a) => Activations.Backward(a, input, outputError)
  }

  /** `update_params`, returning the updated layer. An activation layer has
      no parameters and comes back unchanged; a dense layer keeps its shape. */
  function Update(l: Layer, input: Vector, outputError: Vector, rate: real): (r: Layer)
    requires CanForward(l, |input|) && CanBackward(l, |outputError|)
    ensures SameShape(l, r)
    ensures l.ActivationLayer? ==> r == l
  {
    match l
    case DenseLayer(fc) => DenseLayer(Dense.Stepped(fc, input, outputError, rate))
    case ActivationLayer(_) => l
  }

  /** A zero learning rate leaves a layer as it was. */
  lemma UpdateAtZeroRate(l: Layer, input: Vector, outputError: Vector)
    requires CanForward(l, |input|) && CanBackward(l, |outputError|)
    ensures Update(l, input, outputError, 0.0) == l
  {
    if l.DenseLayer? {
      Dense.SteppedAtZeroRate(l.fc, input, outputError);
    }
  }

  /** A layer that fits width `n` can run every operation there. */
  lemma FitsEnablesOperations(l: Layer, n: nat, m: nat)
    requires Fits(l, n)
    ensures CanForward(l, n)
    ensures m >= OutWidth(l, n) ==> CanBackward(l, m)
  {
  }

  /** Shape-preserving changes keep the layer fitting the same width with the
      same output width. */
  lemma SameShapeFits(a: Layer, b: Layer, n: nat)
    requires SameShape(a, b)
    ensures Fits(a, n) ==> Fits(b, n)
    ensures OutWidth(b, n) == OutWidth(a, n)
  {
  }
}
