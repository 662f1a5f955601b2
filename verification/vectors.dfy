/** Real-valued vectors and the iterator adaptors the engine is written with
    (`map`, `zip`, `sum`, and the accumulating dot-product loops). Every
    `f32` of the engine is modelled as a `real`. */
module Vectors {

  type Vector = seq<real>

  /** The value of a single-precision division over the reals: a number, or
      the NaN that `0.0 / 0.0` produces. */
  datatype Float = Num(value: real) | NaN

  function Min(a: nat, b: nat): nat
  {
    if a <= b then a else b
  }

  /** `xs.iter().map(f).collect()` */
  function Map(f: real -> real, xs: Vector): (r: Vector)
    ensures |r| == |xs|
    ensures forall k :: 0 <= k < |xs| ==> r[k] == f(xs[k])
  {
    if |xs| == 0 then [] else [f(xs[0])] + Map(f, xs[1..])
  }

  /** `xs.iter().zip(ys).map(f).collect()`: the zip stops at the end of the
      shorter operand. */
  function ZipWith(f: (real, real) -> real, xs: Vector, ys: Vector): (r: Vector)
    ensures |r| == Min(|xs|, |ys|)
    ensures forall k :: 0 <= k < |r| ==> r[k] == f(xs[k], ys[k])
  {
    if |xs| == 0 || |ys| == 0 then []
    else [f(xs[0], ys[0])] + ZipWith(f, xs[1..], ys[1..])
  }

  /** `xs.iter().sum()`: accumulation from 0 in index order. */
  function Sum(xs: Vector): real
  {
    if |xs| == 0 then 0.0 else Sum(xs[..|xs| - 1]) + xs[|xs| - 1]
  }

  /** The accumulation `acc += w[i] * x[i]` for `i` in `0..n`, starting from 0. */
  function Dot(w: Vector, x: Vector, n: nat): real
    requires n <= |w| && n <= |x|
  {
    if n == 0 then 0.0 else Dot(w, x, n - 1) + w[n - 1] * x[n - 1]
  }

  predicate IsZero(v: Vector)
  {
    forall k :: 0 <= k < |v| ==> v[k] == 0.0
  }

  /** A sum of non-negative terms is non-negative. */
  lemma {:induction false} SumNonNegative(xs: Vector)
    requires forall k :: 0 <= k < |xs| ==> xs[k] >= 0.0
    ensures Sum(xs) >= 0.0
  {
    if |xs| > 0 {
      SumNonNegative(xs[..|xs| - 1]);
    }
  }

  /** A sum of zeros is zero. */
  lemma {:induction false} SumOfZeros(xs: Vector)
    requires IsZero(xs)
    ensures Sum(xs) == 0.0
  {
    if |xs| > 0 {
      SumOfZeros(xs[..|xs| - 1]);
    }
  }

  /** A dot product against a zero vector is zero. */
  lemma {:induction false} DotOfZero(w: Vector, x: Vector, n: nat)
    requires n <= |w| && n <= |x|
    requires IsZero(w)
    ensures Dot(w, x, n) == 0.0
  {
    if n > 0 {
      DotOfZero(w, x, n - 1);
    }
  }
}
