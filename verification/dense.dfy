/** The fully connected (dense, affine) layer of src/fully_connected.rs.

    The pure functions `Affine`, `Transposed` and `Stepped` state what the
    layer's three operations mean; the methods `Forward`, `Backward` and
    `UpdateParams` follow the nested loops of the source statement by
    statement and are proved to compute exactly those meanings. */
module Dense {
  import opened Vectors

  /** `weights[j]` is the row of output `j`; `biases[j]` its bias. */
  datatype FullyConnected = FullyConnected(
    weights: seq<Vector>,
    biases: Vector,
    inputSize: nat,
    outputSize: nat)
  {
    /** The shape the layer is built with and never loses: one row of
        `inputSize` weights and one bias per output. */
    predicate Valid()
    {
      && |weights| == outputSize
      && |biases| == outputSize
      && forall j :: 0 <= j < outputSize ==> |weights[j]| == inputSize
    }
  }

  /** The weighted sum of output `j`, without its bias. */
  function Linear(l: FullyConnected, x: Vector, j: nat): real
    requires l.Valid() && |x| >= l.inputSize && j < l.outputSize
  {
    Dot(l.weights[j], x, l.inputSize)
  }

  /** Forward's meaning: the affine map `biases + weights * x`. */
  function Affine(l: FullyConnected, x: Vector): (r: Vector)
    requires l.Valid() && |x| >= l.inputSize
    ensures |r| == l.outputSize
  {
    seq(l.outputSize, j requires 0 <= j < l.outputSize => l.biases[j] + Linear(l, x, j))
  }

  /** Column `i` of the weights against `e`, over the first `m` outputs. */
  function Column(l: FullyConnected, e: Vector, i: nat, m: nat): real
    requires l.Valid() && i < l.inputSize && m <= l.outputSize && m <= |e|
  {
    if m == 0 then 0.0 else Column(l, e, i, m - 1) + l.weights[m - 1][i] * e[m - 1]
  }

  /** Backward's meaning: the transposed weights applied to the output error. */
  function Transposed(l: FullyConnected, e: Vector): (r: Vector)
    requires l.Valid() && |e| >= l.outputSize
    ensures |r| == l.inputSize
  {
    seq(l.inputSize, i requires 0 <= i < l.inputSize => Column(l, e, i, l.outputSize))
  }

  /** The parameter update's meaning: one plain gradient-descent step,
      rank-one in the weights. */
  function Stepped(l: FullyConnected, x: Vector, e: Vector, rate: real): (r: FullyConnected)
    requires l.Valid() && |x| >= l.inputSize && |e| >= l.outputSize
    ensures r.Valid()
    ensures r.inputSize == l.inputSize && r.outputSize == l.outputSize
  {
    FullyConnected(
      seq(l.outputSize, j requires 0 <= j < l.outputSize =>
        seq(l.inputSize, i requires 0 <= i < l.inputSize =>
          l.weights[j][i] - rate * x[i] * e[j])),
      seq(l.outputSize, j requires 0 <= j < l.outputSize => l.biases[j] - rate * e[j]),
      l.inputSize,
      l.outputSize)
  }

  /** `forward`: for every output, start from its bias and accumulate the
      weighted inputs in index order. */
  method Forward(l: FullyConnected, input: Vector) returns (output: Vector)
    requires l.Valid() && |input| >= l.inputSize
    ensures |output| == l.outputSize
    ensures forall j :: 0 <= j < l.outputSize ==>
      output[j] == l.biases[j] + Dot(l.weights[j], input, l.inputSize)
    ensures output == Affine(l, input)
  {
    output := [];
    var j := 0;
    while j < l.outputSize
      invariant j <= l.outputSize
      invariant |output| == j
      invariant forall k :: 0 <= k < j ==> output[k] == l.biases[k] + Linear(l, input, k)
    {
      var activation := l.biases[j];
      var i := 0;
      while i < l.inputSize
        invariant i <= l.inputSize
        invariant activation == l.biases[j] + Dot(l.weights[j], input, i)
      {
        activation := activation + l.weights[j][i] * input[i];
        i := i + 1;
      }
      output := output + [activation];
      j := j + 1;
    }
  }

  /** `backward`: for every input, accumulate the weights of its column
      against the output error. The forward input is not read. */
  method Backward(l: FullyConnected, input: Vector, outputError: Vector) returns (inputError: Vector)
    requires l.Valid() && |outputError| >= l.outputSize
    ensures |inputError| == l.inputSize
    ensures forall i :: 0 <= i < l.inputSize ==>
      inputError[i] == Column(l, outputError, i, l.outputSize)
    ensures inputError == Transposed(l, outputError)
  {
    inputError := [];
    var i := 0;
    while i < l.inputSize
      invariant i <= l.inputSize
      invariant |inputError| == i
      invariant forall k :: 0 <= k < i ==> inputError[k] == Column(l, outputError, k, l.outputSize)
    {
      var error := 0.0;
      var j := 0;
      while j < l.outputSize
        invariant j <= l.outputSize
        invariant error == Column(l, outputError, i, j)
      {
        error := error + l.weights[j][i] * outputError[j];
        j := j + 1;
      }
      inputError := inputError + [error];
      i := i + 1;
    }
  }

  /** `update_params`: subtract `rate * input[i] * outputError[j]` from every
      weight, row by row, then `rate * outputError[j]` from every bias. */
  method UpdateParams(l: FullyConnected, input: Vector, outputError: Vector, rate: real)
    returns (r: FullyConnected)
    requires l.Valid() && |input| >= l.inputSize && |outputError| >= l.outputSize
    ensures r.Valid()
    ensures r.inputSize == l.inputSize && r.outputSize == l.outputSize
    ensures forall j, i :: 0 <= j < l.outputSize && 0 <= i < l.inputSize ==>
      r.weights[j][i] == l.weights[j][i] - rate * input[i] * outputError[j]
    ensures forall j :: 0 <= j < l.outputSize ==>
      r.biases[j] == l.biases[j] - rate * outputError[j]
    ensures r == Stepped(l, input, outputError, rate)
  {
    var weights := l.weights;
    for j := 0 to l.outputSize
      invariant |weights| == l.outputSize
      invariant forall k :: 0 <= k < j ==> |weights[k]| == l.inputSize
      invariant forall k, i :: 0 <= k < j && 0 <= i < l.inputSize ==>
        weights[k][i] == l.weights[k][i] - rate * input[i] * outputError[k]
      invariant forall k :: j <= k < l.outputSize ==> weights[k] == l.weights[k]
    {
      var row := StepRow(weights[j], input, outputError[j], rate);
      weights := weights[j := row];
    }
    var biases := l.biases;
    for j := 0 to l.outputSize
      invariant |biases| == l.outputSize
      invariant forall k :: 0 <= k < j ==> biases[k] == l.biases[k] - rate * outputError[k]
      invariant forall k :: j <= k < l.outputSize ==> biases[k] == l.biases[k]
    {
      biases := biases[j := biases[j] - rate * outputError[j]];
    }
    r := FullyConnected(weights, biases, l.inputSize, l.outputSize);
    SteppedEntries(l, input, outputError, rate, r);
  }

  /** The inner loop of `update_params` on one row of weights: subtract
      `rate * input[i] * e` from weight `i`. */
  method StepRow(row: Vector, input: Vector, e: real, rate: real) returns (r: Vector)
    requires |input| >= |row|
    ensures |r| == |row|
    ensures forall i :: 0 <= i < |row| ==> r[i] == row[i] - rate * input[i] * e
  {
    r := row;
    for i := 0 to |row|
      invariant |r| == |row|
      invariant forall c :: 0 <= c < i ==> r[c] == row[c] - rate * input[c] * e
      invariant forall c :: i <= c < |row| ==> r[c] == row[c]
    {
      r := r[i := r[i] - rate * input[i] * e];
    }
  }

  /** A layer of the same sizes whose every weight and bias is the stepped
      one is the stepped layer. */
  lemma SteppedEntries(l: FullyConnected, x: Vector, e: Vector, rate: real, r: FullyConnected)
    requires l.Valid() && |x| >= l.inputSize && |e| >= l.outputSize
    requires r.Valid() && r.inputSize == l.inputSize && r.outputSize == l.outputSize
    requires forall j, i :: 0 <= j < l.outputSize && 0 <= i < l.inputSize ==>
      r.weights[j][i] == l.weights[j][i] - rate * x[i] * e[j]
    requires forall j :: 0 <= j < l.outputSize ==> r.biases[j] == l.biases[j] - rate * e[j]
    ensures r == Stepped(l, x, e, rate)
  {
    var s := Stepped(l, x, e, rate);
    forall j | 0 <= j < l.outputSize
      ensures r.weights[j] == s.weights[j]
    {
      assert |r.weights[j]| == |s.weights[j]|;
      assert forall i :: 0 <= i < l.inputSize ==> r.weights[j][i] == s.weights[j][i];
    }
    assert r.weights == s.weights;
    assert forall j :: 0 <= j < l.outputSize ==> r.biases[j] == s.biases[j];
    assert r.biases == s.biases;
  }

  /** With all-zero weights the output is the bias vector, whatever the input. */
  lemma AffineOfZeroWeights(l: FullyConnected, x: Vector)
    requires l.Valid() && |x| >= l.inputSize
    requires forall j :: 0 <= j < l.outputSize ==> IsZero(l.weights[j])
    ensures Affine(l, x) == l.biases
  {
    forall j | 0 <= j < l.outputSize
      ensures Affine(l, x)[j] == l.biases[j]
    {
      DotOfZero(l.weights[j], x, l.inputSize);
    }
  }

  /** With all-zero weights and biases the output is the zero vector of
      length `outputSize`, whatever the input. */
  lemma AffineOfZeroLayer(l: FullyConnected, x: Vector)
    requires l.Valid() && |x| >= l.inputSize
    requires forall j :: 0 <= j < l.outputSize ==> IsZero(l.weights[j])
    requires IsZero(l.biases)
    ensures |Affine(l, x)| == l.outputSize && IsZero(Affine(l, x))
  {
    AffineOfZeroWeights(l, x);
  }

  /** A zero learning rate leaves every parameter as it was. */
  lemma SteppedAtZeroRate(l: FullyConnected, x: Vector, e: Vector)
    requires l.Valid() && |x| >= l.inputSize && |e| >= l.outputSize
    ensures Stepped(l, x, e, 0.0) == l
  {
    var s := Stepped(l, x, e, 0.0);
    assert forall j :: 0 <= j < l.outputSize ==> s.weights[j] == l.weights[j];
  }

  /** An all-zero output error leaves every parameter as it was. */
  lemma SteppedAtZeroError(l: FullyConnected, x: Vector, e: Vector, rate: real)
    requires l.Valid() && |x| >= l.inputSize && |e| >= l.outputSize
    requires IsZero(e)
    ensures Stepped(l, x, e, rate) == l
  {
    var s := Stepped(l, x, e, rate);
    assert forall j :: 0 <= j < l.outputSize ==> s.weights[j] == l.weights[j];
  }

  /** The linear part of forward: `weights * x`, without the biases. */
  function Weighted(l: FullyConnected, x: Vector): (r: Vector)
    requires l.Valid() && |x| >= l.inputSize
    ensures |r| == l.outputSize
  {
    seq(l.outputSize, j requires 0 <= j < l.outputSize => Linear(l, x, j))
  }

  /** `sum_{i<n} Column(l, e, i, m) * x[i]`: the double sum taken column by column. */
  function ByColumns(l: FullyConnected, e: Vector, x: Vector, m: nat, n: nat): real
    requires l.Valid() && m <= l.outputSize && m <= |e| && n <= l.inputSize && n <= |x|
  {
    if n == 0 then 0.0 else ByColumns(l, e, x, m, n - 1) + Column(l, e, n - 1, m) * x[n - 1]
  }

  /** `sum_{j<m} e[j] * Dot(weights[j], x, n)`: the same double sum taken row by row. */
  function ByRows(l: FullyConnected, e: Vector, x: Vector, m: nat, n: nat): real
    requires l.Valid() && m <= l.outputSize && m <= |e| && n <= l.inputSize && n <= |x|
  {
    if m == 0 then 0.0 else ByRows(l, e, x, m - 1, n) + e[m - 1] * Dot(l.weights[m - 1], x, n)
  }

  /** Adding row `m` to the columns adds `e[m]` times that row's dot product. */
  lemma {:induction false} ByColumnsNextRow(l: FullyConnected, e: Vector, x: Vector, m: nat, n: nat)
    requires l.Valid() && m < l.outputSize && m < |e| && n <= l.inputSize && n <= |x|
    ensures ByColumns(l, e, x, m + 1, n) == ByColumns(l, e, x, m, n) + e[m] * Dot(l.weights[m], x, n)
  {
    if n > 0 {
      ByColumnsNextRow(l, e, x, m, n - 1);
      var c := Column(l, e, n - 1, m);
      var w := l.weights[m][n - 1];
      assert Column(l, e, n - 1, m + 1) == c + w * e[m];
      assert (c + w * e[m]) * x[n - 1] == c * x[n - 1] + e[m] * (w * x[n - 1]);
    }
  }

  /** Summing by columns and summing by rows agree. */
  lemma {:induction false} ByColumnsIsByRows(l: FullyConnected, e: Vector, x: Vector, m: nat, n: nat)
    requires l.Valid() && m <= l.outputSize && m <= |e| && n <= l.inputSize && n <= |x|
    ensures ByColumns(l, e, x, m, n) == ByRows(l, e, x, m, n)
  {
    if m == 0 {
      ByColumnsOfNoRows(l, e, x, n);
    } else {
      ByColumnsIsByRows(l, e, x, m - 1, n);
      ByColumnsNextRow(l, e, x, m - 1, n);
    }
  }

  lemma {:induction false} ByColumnsOfNoRows(l: FullyConnected, e: Vector, x: Vector, n: nat)
    requires l.Valid() && n <= l.inputSize && n <= |x|
    ensures ByColumns(l, e, x, 0, n) == 0.0
  {
    if n > 0 {
      ByColumnsOfNoRows(l, e, x, n - 1);
    }
  }

  lemma {:induction false} TransposedByColumns(l: FullyConnected, e: Vector, x: Vector, n: nat)
    requires l.Valid() && |e| >= l.outputSize && n <= l.inputSize && n <= |x|
    ensures Dot(Transposed(l, e), x, n) == ByColumns(l, e, x, l.outputSize, n)
  {
    if n > 0 {
      TransposedByColumns(l, e, x, n - 1);
    }
  }

  lemma {:induction false} WeightedByRows(l: FullyConnected, e: Vector, x: Vector, m: nat)
    requires l.Valid() && |e| >= l.outputSize && |x| >= l.inputSize && m <= l.outputSize
    ensures Dot(e, Weighted(l, x), m) == ByRows(l, e, x, m, l.inputSize)
  {
    if m > 0 {
      WeightedByRows(l, e, x, m - 1);
    }
  }

  /** Backward is the adjoint of forward's linear part: for every output
      error `e` and input `x`, `<Transposed(e), x> == <e, weights * x>`, so
      backward propagates exactly the gradient of the affine map. */
  lemma TransposedIsAdjoint(l: FullyConnected, e: Vector, x: Vector)
    requires l.Valid() && |e| >= l.outputSize && |x| >= l.inputSize
    ensures Dot(Transposed(l, e), x, l.inputSize) == Dot(e, Weighted(l, x), l.outputSize)
  {
    TransposedByColumns(l, e, x, l.inputSize);
    ByColumnsIsByRows(l, e, x, l.outputSize, l.inputSize);
    WeightedByRows(l, e, x, l.outputSize);
  }
}
