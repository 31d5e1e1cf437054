/**
 * The fixed two-layer network of 03-implementation/perceptron-example/src/mlp.py:
 * an input layer, one sigmoid hidden layer and a sigmoid output layer,
 * trained by backpropagation or by random perturbation for a fixed number
 * of epochs.
 *
 * The pure functions below specify one forward pass, the gradients and
 * the update of `backpropagation`, the clipped loss and the epoch loop of
 * `train`; the class `MultiLayerPerceptron` keeps the arrays the Python
 * object keeps and its methods are proved to agree with those functions.
 * The forward pass and the update are also proved to be those of the
 * general network of module MultiLayer for layer sizes
 * `[input, hidden, output]` with sigmoid hidden units.
 */
module Mlp {
  import opened Wrappers
  import opened Vectors
  import opened Matrices
  import opened Activation
  import Training
  import MultiLayer

  /** `input_size`, `hidden_size` and `output_size`. */
  datatype Dims = Dims(input: nat, hidden: nat, output: nat)

  /** `W1`, `b1`, `W2` and `b2`. */
  datatype Params = Params(W1: Matrix, b1: Matrix, W2: Matrix, b2: Matrix)

  /** The shapes `__init__` gives the parameters and every update keeps. */
  predicate Shaped(d: Dims, p: Params)
  {
    && IsShape(p.W1, d.input, d.hidden) && IsShape(p.b1, 1, d.hidden)
    && IsShape(p.W2, d.hidden, d.output) && IsShape(p.b2, 1, d.output)
  }

  /** The arrays `forward` stores on the instance: `z1`, `a1`, `z2` and `a2`. */
  datatype Pass = Pass(z1: Matrix, a1: Matrix, z2: Matrix, a2: Matrix)

  predicate PassShaped(d: Dims, m: nat, r: Pass)
  {
    && IsShape(r.z1, m, d.hidden) && IsShape(r.a1, m, d.hidden)
    && IsShape(r.z2, m, d.output) && IsShape(r.a2, m, d.output)
  }

  /** `forward(X)`: `z1 = X W1 + b1`, `a1 = sigmoid(z1)`, `z2 = a1 W2 + b2`, `a2 = sigmoid(z2)`. */
  function ForwardPass(d: Dims, fns: MultiLayer.Transcendentals, p: Params, X: Matrix): (r: Pass)
    requires Shaped(d, p) && IsShape(X, |X|, d.input)
    ensures PassShaped(d, |X|, r)
  {
    var z1 := AddRow(MatMul(X, p.W1, d.input, d.hidden), p.b1, d.hidden);
    var a1 := Apply(fns.sigmoid, z1, d.hidden);
    var z2 := AddRow(MatMul(a1, p.W2, d.hidden, d.output), p.b2, d.output);
    Pass(z1, a1, z2, Apply(fns.sigmoid, z2, d.output))
  }

  /** Both layers are sigmoids: every hidden and every output activation lies strictly between 0 and 1. */
  lemma ActivationsInUnitInterval(d: Dims, fns: MultiLayer.Transcendentals, p: Params, X: Matrix)
    requires Shaped(d, p) && IsShape(X, |X|, d.input)
    ensures var r := ForwardPass(d, fns, p, X);
      && (forall i, j :: 0 <= i < |X| && 0 <= j < d.hidden ==> 0.0 < r.a1[i][j] < 1.0)
      && (forall i, j :: 0 <= i < |X| && 0 <= j < d.output ==> 0.0 < r.a2[i][j] < 1.0)
  {
  }

  /** The layer sizes of the same network in module MultiLayer. */
  function Sizes(d: Dims): seq<nat>
  {
    [d.input, d.hidden, d.output]
  }

  /** The same parameters as MultiLayer's lists of weights and biases. */
  function AsNet(p: Params): MultiLayer.Net
  {
    MultiLayer.Net([p.W1, p.W2], [p.b1, p.b2])
  }

  lemma AsNetShaped(d: Dims, p: Params)
    requires Shaped(d, p)
    ensures MultiLayer.WellShaped(Sizes(d), AsNet(p))
  {
  }

  /** Two elementwise maps that agree on every entry of `A` give the same matrix. */
  lemma ApplyAgree(f: real -> real, g: real -> real, A: Matrix, c: nat)
    requires IsShape(A, |A|, c)
    requires forall i, j :: 0 <= i < |A| && 0 <= j < c ==> f(A[i][j]) == g(A[i][j])
    ensures Apply(f, A, c) == Apply(g, A, c)
  {
    var F, G := Apply(f, A, c), Apply(g, A, c);
    forall i | 0 <= i < |A|
      ensures F[i] == G[i]
    {
    }
  }

  /**
   * `forward` is the forward pass of the general network of module
   * MultiLayer for layer sizes `[input, hidden, output]` with sigmoid
   * hidden units: the same activations and the same weighted inputs.
   */
  lemma ForwardIsGeneralForward(d: Dims, fns: MultiLayer.Transcendentals, p: Params, X: Matrix)
    requires Shaped(d, p) && IsShape(X, |X|, d.input)
    ensures MultiLayer.WellShaped(Sizes(d), AsNet(p))
    ensures var r := ForwardPass(d, fns, p, X);
      MultiLayer.ForwardAll(Sizes(d), MultiLayer.SigmoidUnit, fns, AsNet(p), X) == ([X, r.a1, r.a2], [r.z1, r.z2])
  {
    var sizes, net, k := Sizes(d), AsNet(p), MultiLayer.SigmoidUnit;
    var r := ForwardPass(d, fns, p, X);
    assert MultiLayer.WellShaped(sizes, net);
    var f := MultiLayer.LayerFn(k, fns, 2, 0);
    forall i, j | 0 <= i < |X| && 0 <= j < d.hidden
      ensures f(r.z1[i][j]) == fns.sigmoid(r.z1[i][j])
    {
      assert f(r.z1[i][j]) == MultiLayer.Activate(k, fns, r.z1[i][j]);
    }
    ApplyAgree(f, fns.sigmoid, r.z1, d.hidden);
    assert MultiLayer.Forward(sizes, k, fns, net, X, 0) == ([X], []);
    assert MultiLayer.WeightedInput(sizes, net, 0, X) == r.z1;
    var (A0, Z0) := MultiLayer.Forward(sizes, k, fns, net, X, 0);
    var z := MultiLayer.WeightedInput(sizes, net, 0, A0[0]);
    assert z == r.z1;
    assert MultiLayer.Forward(sizes, k, fns, net, X, 1) == (A0 + [Apply(f, z, sizes[1])], Z0 + [z]);
    assert Apply(f, z, sizes[1]) == r.a1;
    assert A0 == [X] && Z0 == [];
    assert A0 + [r.a1] == [X, r.a1] && Z0 + [z] == [r.z1];
    assert MultiLayer.Forward(sizes, k, fns, net, X, 1) == ([X, r.a1], [r.z1]);
    var z' := MultiLayer.WeightedInput(sizes, net, 1, r.a1);
    assert z' == r.z2;
    assert MultiLayer.LayerFn(k, fns, 2, 1) == fns.sigmoid;
    assert MultiLayer.Forward(sizes, k, fns, net, X, 2) == ([X, r.a1] + [Apply(fns.sigmoid, z', sizes[2])], [r.z1] + [z']);
    assert [X, r.a1] + [r.a2] == [X, r.a1, r.a2] && [r.z1] + [r.z2] == [r.z1, r.z2];
  }

  /** The gradients `backpropagation` computes before it changes anything. */
  datatype Gradients = Gradients(dW1: Matrix, db1: Matrix, dW2: Matrix, db2: Matrix)

  /** The output error `dz2 = a2 - y.reshape(-1, 1)`. */
  function OutputError(d: Dims, fns: MultiLayer.Transcendentals, p: Params, X: Matrix, y: Vector): (dz2: Matrix)
    requires Shaped(d, p) && IsShape(X, |y|, d.input)
    ensures IsShape(dz2, |y|, d.output)
  {
    SubLabels(ForwardPass(d, fns, p, X).a2, y, d.output)
  }

  /** The hidden error `dz1 = (dz2 W2^T) * sigmoid_derivative(a1)`, through the weights `W2` at entry. */
  function HiddenError(d: Dims, fns: MultiLayer.Transcendentals, p: Params, X: Matrix, y: Vector): (dz1: Matrix)
    requires Shaped(d, p) && IsShape(X, |y|, d.input)
    ensures IsShape(dz1, |y|, d.hidden)
  {
    var da1 := MatMul(OutputError(d, fns, p, X, y), Transpose(p.W2, d.output), d.output, d.hidden);
    Hadamard(da1, Apply(SigmoidDerivative, ForwardPass(d, fns, p, X).a1, d.hidden), d.hidden)
  }

  /**
   * `dW2 = a1^T dz2 / m`, `db2 = sum(dz2) / m`, `dW1 = X^T dz1 / m` and
   * `db1 = sum(dz1) / m`, all from the parameters at entry; each has the
   * shape of the parameter it moves.
   */
  function ComputeGradients(d: Dims, fns: MultiLayer.Transcendentals, p: Params, X: Matrix, y: Vector): (g: Gradients)
    requires Shaped(d, p) && IsShape(X, |y|, d.input) && |y| > 0
    ensures Shaped(d, Params(g.dW1, g.db1, g.dW2, g.db2))
  {
    var m := |y| as real;
    var a1 := ForwardPass(d, fns, p, X).a1;
    var dz2 := OutputError(d, fns, p, X, y);
    var dz1 := HiddenError(d, fns, p, X, y);
    Gradients(Scale(1.0 / m, MatMul(Transpose(X, d.input), dz1, |y|, d.hidden), d.hidden),
              Scale(1.0 / m, ColumnSum(dz1, d.hidden), d.hidden),
              Scale(1.0 / m, MatMul(Transpose(a1, d.hidden), dz2, |y|, d.output), d.output),
              Scale(1.0 / m, ColumnSum(dz2, d.output), d.output))
  }

  /** `backpropagation(X, y)`: every parameter moved against its gradient, scaled by the learning rate. */
  function Backprop(d: Dims, fns: MultiLayer.Transcendentals, lr: real, p: Params, X: Matrix, y: Vector): (q: Params)
    requires Shaped(d, p) && IsShape(X, |y|, d.input) && |y| > 0
    ensures Shaped(d, q)
  {
    var g := ComputeGradients(d, fns, p, X, y);
    Params(Sub(p.W1, Scale(lr, g.dW1, d.hidden), d.hidden), Sub(p.b1, Scale(lr, g.db1, d.hidden), d.hidden),
           Sub(p.W2, Scale(lr, g.dW2, d.output), d.output), Sub(p.b2, Scale(lr, g.db2, d.output), d.output))
  }

  /**
   * Backpropagation is at a fixed point when every output already equals
   * its label: both errors vanish, so no parameter changes.
   */
  lemma BackpropFixedPoint(d: Dims, fns: MultiLayer.Transcendentals, lr: real, p: Params, X: Matrix, y: Vector)
    requires Shaped(d, p) && IsShape(X, |y|, d.input) && |y| > 0
    requires MultiLayer.FitsLabels(ForwardPass(d, fns, p, X).a2, y)
    ensures Backprop(d, fns, lr, p, X, y) == p
  {
    var r := ForwardPass(d, fns, p, X);
    var dz2 := OutputError(d, fns, p, X, y);
    assert IsZero(dz2);
    var da1 := MatMul(dz2, Transpose(p.W2, d.output), d.output, d.hidden);
    MatMulZeroLeft(dz2, Transpose(p.W2, d.output), d.output, d.hidden);
    var dz1 := HiddenError(d, fns, p, X, y);
    assert IsZero(dz1);
    var g := ComputeGradients(d, fns, p, X, y);
    MatMulZeroRight(Transpose(X, d.input), dz1, |y|, d.hidden);
    MatMulZeroRight(Transpose(r.a1, d.hidden), dz2, |y|, d.output);
    ColumnSumZero(dz1, d.hidden);
    ColumnSumZero(dz2, d.output);
    assert IsZero(g.dW1) && IsZero(g.db1) && IsZero(g.dW2) && IsZero(g.db2);
    SubScaledZero(p.W1, lr, g.dW1, d.hidden);
    SubScaledZero(p.b1, lr, g.db1, d.hidden);
    SubScaledZero(p.W2, lr, g.dW2, d.output);
    SubScaledZero(p.b2, lr, g.db2, d.output);
  }

  /** `k * (A / m)` is `(k / m) * A`. */
  lemma ScaleMean(k: real, m: real, A: Matrix, c: nat)
    requires IsShape(A, |A|, c) && m > 0.0
    ensures Scale(k, Scale(1.0 / m, A, c), c) == Scale(k / m, A, c)
  {
    var b := 1.0 / m;
    ScaleScale(k, b, A, c);
    assert k * b == k / m;
    assert Scale(k, Scale(1.0 / m, A, c), c) == Scale(k / m, A, c);
  }

  /**
   * The deltas of the general network for layer sizes `[input, hidden,
   * output]` with sigmoid hidden units are `dz1` and `dz2`: the sigmoid
   * derivative at `z1` is `sigmoid_derivative` of `a1 = sigmoid(z1)`.
   */
  lemma DeltasAreErrors(d: Dims, fns: MultiLayer.Transcendentals, p: Params, X: Matrix, y: Vector)
    requires Shaped(d, p) && IsShape(X, |y|, d.input)
    ensures MultiLayer.WellShaped(Sizes(d), AsNet(p))
    ensures var r := ForwardPass(d, fns, p, X);
      && MultiLayer.ForwardShaped(Sizes(d), |y|, [X, r.a1, r.a2], [r.z1, r.z2])
      && MultiLayer.Deltas(Sizes(d), MultiLayer.SigmoidUnit, fns, AsNet(p), [X, r.a1, r.a2], [r.z1, r.z2], y, 0)
         == [HiddenError(d, fns, p, X, y), OutputError(d, fns, p, X, y)]
  {
    var sizes, net, k := Sizes(d), AsNet(p), MultiLayer.SigmoidUnit;
    var r := ForwardPass(d, fns, p, X);
    var A, Z := [X, r.a1, r.a2], [r.z1, r.z2];
    AsNetShaped(d, p);
    assert MultiLayer.ForwardShaped(sizes, |y|, A, Z);
    var dz2 := OutputError(d, fns, p, X, y);
    assert MultiLayer.Deltas(sizes, k, fns, net, A, Z, y, 1) == [dz2];
    var S, T := Apply(SigmoidDerivative, r.a1, d.hidden), Apply(MultiLayer.DerivativeFn(k, fns), r.z1, d.hidden);
    forall i | 0 <= i < |y|
      ensures S[i] == T[i]
    {
      assert forall j :: 0 <= j < d.hidden ==> S[i][j] == T[i][j];
    }
    assert MultiLayer.HiddenDelta(sizes, k, fns, net, Z, 0, dz2) == HiddenError(d, fns, p, X, y);
  }

  /** Each layer's update is the general network's `UpdatedWeight` and `UpdatedBias` for the same delta. */
  lemma UpdatesAgree(d: Dims, fns: MultiLayer.Transcendentals, lr: real, p: Params, X: Matrix, y: Vector)
    requires Shaped(d, p) && IsShape(X, |y|, d.input) && |y| > 0
    ensures MultiLayer.WellShaped(Sizes(d), AsNet(p))
    ensures var r, q := ForwardPass(d, fns, p, X), Backprop(d, fns, lr, p, X, y);
      var dz1, dz2 := HiddenError(d, fns, p, X, y), OutputError(d, fns, p, X, y);
      && MultiLayer.UpdatedWeight(Sizes(d), AsNet(p), 0, X, dz1, lr) == q.W1
      && MultiLayer.UpdatedWeight(Sizes(d), AsNet(p), 1, r.a1, dz2, lr) == q.W2
      && MultiLayer.UpdatedBias(Sizes(d), AsNet(p), 0, dz1, lr) == q.b1
      && MultiLayer.UpdatedBias(Sizes(d), AsNet(p), 1, dz2, lr) == q.b2
  {
    AsNetShaped(d, p);
    var r := ForwardPass(d, fns, p, X);
    var m := |y| as real;
    var dz1, dz2 := HiddenError(d, fns, p, X, y), OutputError(d, fns, p, X, y);
    ScaleMean(lr, m, MatMul(Transpose(X, d.input), dz1, |y|, d.hidden), d.hidden);
    ScaleMean(lr, m, MatMul(Transpose(r.a1, d.hidden), dz2, |y|, d.output), d.output);
    ColumnMeanIsScaledSum(dz1, d.hidden);
    ColumnMeanIsScaledSum(dz2, d.output);
  }

  /**
   * `backpropagation` is the `backward_propagation` of the general network
   * of module MultiLayer for layer sizes `[input, hidden, output]` with
   * sigmoid hidden units: the same deltas and the same updated parameters,
   * although the one scales the sums by `1/m` and applies the sigmoid
   * derivative to `a1` where the other takes a mean and differentiates at `z1`.
   */
  lemma BackpropIsGeneralBackward(d: Dims, fns: MultiLayer.Transcendentals, lr: real, p: Params, X: Matrix, y: Vector)
    requires Shaped(d, p) && IsShape(X, |y|, d.input) && |y| > 0
    ensures MultiLayer.WellShaped(Sizes(d), AsNet(p))
    ensures var (A, Z) := MultiLayer.ForwardAll(Sizes(d), MultiLayer.SigmoidUnit, fns, AsNet(p), X);
      AsNet(Backprop(d, fns, lr, p, X, y)) == MultiLayer.Backward(Sizes(d), MultiLayer.SigmoidUnit, fns, AsNet(p), y, A, Z, lr)
  {
    ForwardIsGeneralForward(d, fns, p, X);
    DeltasAreErrors(d, fns, p, X, y);
    UpdatesAgree(d, fns, lr, p, X, y);
    var r := ForwardPass(d, fns, p, X);
    var next := MultiLayer.Backward(Sizes(d), MultiLayer.SigmoidUnit, fns, AsNet(p), y, [X, r.a1, r.a2], [r.z1, r.z2], lr);
    var q := Backprop(d, fns, lr, p, X, y);
    assert next.weights == [q.W1, q.W2];
    assert next.biases == [q.b1, q.b2];
  }
  /** The bounds `compute_loss` clips probabilities to, keeping `log` away from 0 and 1. */
  const ClipLow: real := 0.0000001
  const ClipHigh: real := 1.0 - ClipLow

  /** `np.clip(p, 1e-7, 1 - 1e-7)`. */
  function Clip(p: real): (r: real)
    ensures ClipLow <= r <= ClipHigh
    ensures ClipLow <= p <= ClipHigh ==> r == p
    ensures p < ClipLow ==> r == ClipLow
    ensures p > ClipHigh ==> r == ClipHigh
  {
    if p < ClipLow then ClipLow else if p > ClipHigh then ClipHigh else p
  }

  /** Clipping commutes with taking the complementary probability. */
  lemma ClipComplement(p: real)
    ensures 1.0 - Clip(p) == Clip(1.0 - p)
  {
  }

  /** One entry's `y log(p) + (1 - y) log(1 - p)`, with `p` clipped. */
  function LogLikelihood(log: real -> real, p: real, t: real): real
  {
    t * log(Clip(p)) + (1.0 - t) * log(1.0 - Clip(p))
  }

  /** For a 0/1 label it is the log of the clipped probability given to that label. */
  lemma LogLikelihoodOfLabel(log: real -> real, p: real, t: real)
    requires t == 0.0 || t == 1.0
    ensures LogLikelihood(log, p, t) == log(Clip(if t == 1.0 then p else 1.0 - p))
  {
    ClipComplement(p);
  }

  /**
   * `compute_loss(y.reshape(-1, 1), a)`: label `y[i]` is broadcast along row
   * `i` of `a`, and the loss is minus the mean log-likelihood over every
   * entry.
   */
  function Loss(log: real -> real, A: Matrix, y: Vector, c: nat): real
    requires IsShape(A, |y|, c) && |y| > 0 && c > 0
  {
    var L := seq(|y|, i requires 0 <= i < |y| => seq(c, j requires 0 <= j < c => LogLikelihood(log, A[i][j], y[i])));
    FlattenLength(L, c);
    -Mean(Flatten(L))
  }

  /** `predict(X)`: the output flattened, label 1 exactly where it exceeds one half. */
  function Predictions(d: Dims, fns: MultiLayer.Transcendentals, p: Params, X: Matrix): (r: Vector)
    requires Shaped(d, p) && IsShape(X, |X|, d.input)
    ensures IsBinary(r) && |r| == |X| * d.output
    ensures d.output == 1 ==> forall i :: 0 <= i < |X| ==> (r[i] == 1.0 <==> ForwardPass(d, fns, p, X).a2[i][0] > 0.5)
  {
    var a2 := ForwardPass(d, fns, p, X).a2;
    FlattenLength(a2, d.output);
    FlattenSingle(a2, d.output);
    MultiLayer.Threshold(Flatten(a2))
  }

  lemma FlattenSingle(M: Matrix, c: nat)
    requires IsShape(M, |M|, c)
    ensures c == 1 ==> |Flatten(M)| == |M| && forall i :: 0 <= i < |M| ==> Flatten(M)[i] == M[i][0]
  {
    if c == 1 {
      FlattenColumn(M);
    }
  }

  /** `predict` gives the labels the general network of module MultiLayer predicts for the same parameters. */
  lemma PredictionsAgree(d: Dims, fns: MultiLayer.Transcendentals, p: Params, X: Matrix)
    requires Shaped(d, p) && IsShape(X, |X|, d.input)
    ensures MultiLayer.WellShaped(Sizes(d), AsNet(p))
    ensures Predictions(d, fns, p, X) == MultiLayer.Threshold(MultiLayer.Probabilities(Sizes(d), MultiLayer.SigmoidUnit, fns, AsNet(p), X))
  {
    ForwardIsGeneralForward(d, fns, p, X);
  }

  /**
   * `score(X, y)`: the fraction of samples whose predicted label matches,
   * in [0, 1], and 1 exactly when every prediction is right.
   */
  function ScoreOf(d: Dims, fns: MultiLayer.Transcendentals, p: Params, X: Matrix, y: Vector): (s: real)
    requires Shaped(d, p) && IsShape(X, |y|, d.input) && |y| > 0 && d.output == 1
    ensures 0.0 <= s <= 1.0
    ensures s == 1.0 <==> Predictions(d, fns, p, X) == y
  {
    Accuracy(Predictions(d, fns, p, X), y)
  }

  /** numpy compares two vectors elementwise only when their lengths broadcast: equal, or one of them 1. */
  predicate Broadcasts(a: nat, b: nat)
  {
    a == b || a == 1 || b == 1
  }

  /**
   * The `score` on the progress line of `train` compares the `m * output`
   * flattened predictions with the `m` labels, and raises where they do not
   * broadcast.
   */
  predicate ScoreRaises(d: Dims, m: nat)
  {
    !Broadcasts(m * d.output, m)
  }

  /** That happens exactly with two samples or more and two output units or more. */
  lemma ScoreRaisesExactly(d: Dims, m: nat)
    requires m > 0 && d.output > 0
    ensures ScoreRaises(d, m) <==> m >= 2 && d.output >= 2
  {
    if d.output >= 2 {
      assert m * d.output >= m * 2 == m + m;
    }
  }

  /** The character of the decimal digit `n`. */
  function DigitChar(n: nat): (c: char)
    requires n < 10
    ensures '0' <= c <= '9' && c as int - '0' as int == n
  {
    ('0' as int + n) as char
  }

  /** `str(n)` for a natural number `n`: its decimal digits, with no leading zero. */
  function NatString(n: nat): (s: string)
    ensures |s| > 0 && forall i :: 0 <= i < |s| ==> '0' <= s[i] <= '9'
    ensures s[0] == '0' <==> n == 0
  {
    if n < 10 then [DigitChar(n)] else NatString(n / 10) + [DigitChar(n % 10)]
  }

  /** The number a string of decimal digits denotes. */
  function DecimalValue(s: string): nat
    requires forall i :: 0 <= i < |s| ==> '0' <= s[i] <= '9'
  {
    if |s| == 0 then 0 else DecimalValue(s[..|s| - 1]) * 10 + (s[|s| - 1] as int - '0' as int)
  }

  /** Reading back the digits of `n` gives `n`. */
  lemma {:induction false} NatStringRoundTrip(n: nat)
    ensures DecimalValue(NatString(n)) == n
  {
    if n >= 10 {
      NatStringRoundTrip(n / 10);
      var s := NatString(n);
      assert s[..|s| - 1] == NatString(n / 10);
    }
  }

  /** numpy's message for two one-dimensional operands of lengths `a` and `b` that do not broadcast. */
  function BroadcastMessage(a: nat, b: nat): string
  {
    "operands could not be broadcast together with shapes (" + NatString(a) + ",) (" + NatString(b) + ",) "
  }

  /** The error `score` raises on `m` samples: `m * output` predictions against `m` labels. */
  function ScoreMessage(d: Dims, m: nat): string
  {
    BroadcastMessage(m * d.output, m)
  }

  /** The two training methods `train` accepts. */
  datatype Method = UseBackprop | UseRandom

  /** `'backprop'` and `'random'` select their method; any other name raises `ValueError`. */
  function ParseMethod(name: string): (r: Result<Method>)
    ensures r.Success? <==> name == "backprop" || name == "random"
    ensures r.Success? ==> (r.value == UseBackprop <==> name == "backprop")
    ensures r.Failure? ==> r.message == "Unknown method: " + name
  {
    if name == "backprop" then Success(UseBackprop)
    else if name == "random" then Success(UseRandom)
    else Failure("Unknown method: " + name)
  }

  /**
   * The parameters `random_weight_update` leaves in the given epoch. Its
   * noise is random, so it is a parameter of the model, known only to keep
   * the shapes.
   */
  type Perturbation = (nat, Params) -> Params

  ghost predicate KeepsShape(d: Dims, perturb: Perturbation)
  {
    forall i: nat, p :: Shaped(d, p) ==> Shaped(d, perturb(i, p))
  }

  /** The data `train` runs on: one label per row, at least one row, at least one output unit. */
  predicate TrainData(d: Dims, X: Matrix, y: Vector)
  {
    IsShape(X, |y|, d.input) && |y| > 0 && d.output > 0
  }

  /** The epoch counter of `train`'s loop with the parameters it has reached. */
  datatype State = State(epoch: nat, params: Params)

  /** The parameters the chosen update leaves in the epoch `s.epoch`. */
  ghost function Update(d: Dims, fns: MultiLayer.Transcendentals, lr: real, perturb: Perturbation, mth: Method,
                        X: Matrix, y: Vector, s: State): (q: Params)
    requires Shaped(d, s.params) && TrainData(d, X, y) && KeepsShape(d, perturb)
    ensures Shaped(d, q)
  {
    match mth
    case UseBackprop => Backprop(d, fns, lr, s.params, X, y)
    case UseRandom => perturb(s.epoch, s.params)
  }

  /**
   * One pass of `train`'s loop from `s`: the chosen update, then the loss
   * of a forward pass with the new parameters. `train` records no accuracy,
   * so the epoch reports 0 for it.
   */
  ghost function TrainingEpoch(d: Dims, fns: MultiLayer.Transcendentals, lr: real, perturb: Perturbation, mth: Method,
                               X: Matrix, y: Vector, s: State): (e: Training.Epoch<State>)
    requires Shaped(d, s.params) && TrainData(d, X, y) && KeepsShape(d, perturb)
    ensures Shaped(d, e.params.params) && e.params.epoch == s.epoch + 1
  {
    var q := Update(d, fns, lr, perturb, mth, X, y, s);
    Training.Epoch(State(s.epoch + 1, q), Loss(fns.log, ForwardPass(d, fns, q, X).a2, y, d.output), 0.0)
  }

  ghost function EpochStep(d: Dims, fns: MultiLayer.Transcendentals, lr: real, perturb: Perturbation, mth: Method,
                           X: Matrix, y: Vector): State --> Training.Epoch<State>
  {
    (s: State) requires Shaped(d, s.params) && TrainData(d, X, y) && KeepsShape(d, perturb) =>
      TrainingEpoch(d, fns, lr, perturb, mth, X, y, s)
  }

  function ShapedState(d: Dims): State -> bool
  {
    (s: State) => Shaped(d, s.params)
  }

  /** `train` has no stopping rule. */
  function NeverStops(e: Training.Epoch<State>): bool
  {
    false
  }

  lemma EpochStepClosed(d: Dims, fns: MultiLayer.Transcendentals, lr: real, perturb: Perturbation, mth: Method,
                        X: Matrix, y: Vector)
    requires TrainData(d, X, y) && KeepsShape(d, perturb)
    ensures Training.Closed(EpochStep(d, fns, lr, perturb, mth, X, y), ShapedState(d))
  {
  }

  /** `n` epochs of `train` from the parameters `p`, counting from epoch 0. */
  ghost function TrainRun(d: Dims, fns: MultiLayer.Transcendentals, lr: real, perturb: Perturbation, mth: Method,
                          X: Matrix, y: Vector, p: Params, n: nat): (r: Training.Run<State>)
    requires Shaped(d, p) && TrainData(d, X, y) && KeepsShape(d, perturb)
    ensures Shaped(d, r.final.params)
  {
    EpochStepClosed(d, fns, lr, perturb, mth, X, y);
    Training.Train(EpochStep(d, fns, lr, perturb, mth, X, y), ShapedState(d), NeverStops, State(0, p), n)
  }

  /** With no stopping rule, `train` runs exactly `n` epochs. */
  lemma TrainRunLength(d: Dims, fns: MultiLayer.Transcendentals, lr: real, perturb: Perturbation, mth: Method,
                       X: Matrix, y: Vector, p: Params, n: nat)
    requires Shaped(d, p) && TrainData(d, X, y) && KeepsShape(d, perturb)
    ensures |TrainRun(d, fns, lr, perturb, mth, X, y, p, n).epochs| == n
  {
    EpochStepClosed(d, fns, lr, perturb, mth, X, y);
    Training.TrainNeverStops(EpochStep(d, fns, lr, perturb, mth, X, y), ShapedState(d), NeverStops, State(0, p), n);
  }

  /** The `loss_history` a run's epochs fill: one loss per epoch, in order. */
  function Losses(es: seq<Training.Epoch<State>>): (l: seq<real>)
    ensures |l| == |es| && forall i :: 0 <= i < |es| ==> l[i] == es[i].loss
  {
    seq(|es|, i requires 0 <= i < |es| => es[i].loss)
  }

  /** Recording one more epoch appends its loss. */
  lemma LossesSnoc(es: seq<Training.Epoch<State>>, e: Training.Epoch<State>)
    ensures Losses(es + [e]) == Losses(es) + [e.loss]
  {
    assert forall i :: 0 <= i < |es| ==> (es + [e])[i] == es[i];
  }

  /**
   * Where `train` stands after the epochs `done`: they ran chained from
   * `start` at epoch 0, `p` is where the last one left the parameters, and
   * `losses` holds their losses.
   */
  ghost predicate Progress(d: Dims, fns: MultiLayer.Transcendentals, lr: real, perturb: Perturbation, mth: Method,
                           X: Matrix, y: Vector, start: Params, done: seq<Training.Epoch<State>>, p: Params,
                           losses: seq<real>)
  {
    && Shaped(d, p)
    && Training.Chained(EpochStep(d, fns, lr, perturb, mth, X, y), ShapedState(d), State(0, start), done)
    && Training.Before(State(0, start), done, |done|) == State(|done|, p)
    && losses == Losses(done)
  }

  /** One more epoch, with its loss appended, keeps `Progress`. */
  lemma ProgressStep(d: Dims, fns: MultiLayer.Transcendentals, lr: real, perturb: Perturbation, mth: Method,
                     X: Matrix, y: Vector, start: Params, done: seq<Training.Epoch<State>>, p: Params,
                     losses: seq<real>, e: Training.Epoch<State>)
    requires TrainData(d, X, y) && KeepsShape(d, perturb)
    requires Progress(d, fns, lr, perturb, mth, X, y, start, done, p, losses)
    requires e == TrainingEpoch(d, fns, lr, perturb, mth, X, y, State(|done|, p))
    ensures Progress(d, fns, lr, perturb, mth, X, y, start, done + [e], e.params.params, losses + [e.loss])
  {
    var step := EpochStep(d, fns, lr, perturb, mth, X, y);
    EpochStepClosed(d, fns, lr, perturb, mth, X, y);
    assert step.requires(State(|done|, p)) && e == step(State(|done|, p));
    Training.ChainedSnoc(step, ShapedState(d), State(0, start), done, e);
    assert Training.Before(State(0, start), done + [e], |done| + 1) == e.params == State(|done| + 1, e.params.params);
    LossesSnoc(done, e);
  }

  /** After `n` epochs the parameters and the losses `train` reached are `TrainRun`'s. */
  lemma ProgressIsTrainRun(d: Dims, fns: MultiLayer.Transcendentals, lr: real, perturb: Perturbation, mth: Method,
                           X: Matrix, y: Vector, start: Params, n: nat, done: seq<Training.Epoch<State>>, p: Params,
                           losses: seq<real>)
    requires Shaped(d, start) && TrainData(d, X, y) && KeepsShape(d, perturb)
    requires Progress(d, fns, lr, perturb, mth, X, y, start, done, p, losses) && |done| == n
    ensures p == TrainRun(d, fns, lr, perturb, mth, X, y, start, n).final.params
    ensures losses == Losses(TrainRun(d, fns, lr, perturb, mth, X, y, start, n).epochs)
  {
    EpochStepClosed(d, fns, lr, perturb, mth, X, y);
    Training.LoopIsTrain(EpochStep(d, fns, lr, perturb, mth, X, y), ShapedState(d), NeverStops, State(0, start), n, done);
  }
  class MultiLayerPerceptron {
    const dims: Dims
    const learningRate: real
    /** The numpy functions the network evaluates; only `sigmoid` and `log` are used. */
    const fns: MultiLayer.Transcendentals
    var W1: Matrix
    var b1: Matrix
    var W2: Matrix
    var b2: Matrix
    var z1: Matrix
    var a1: Matrix
    var z2: Matrix
    var a2: Matrix
    var lossHistory: seq<real>

    function Parameters(): Params
      reads this`W1, this`b1, this`W2, this`b2
    {
      Params(W1, b1, W2, b2)
    }

    /** The arrays the last `forward` stored. */
    function Cache(): Pass
      reads this`z1, this`a1, this`z2, this`a2
    {
      Pass(z1, a1, z2, a2)
    }

    ghost predicate Valid()
      reads this`W1, this`b1, this`W2, this`b2
    {
      Shaped(dims, Parameters())
    }

    /**
     * `MultiLayerPerceptron(input_size, hidden_size, output_size,
     * learning_rate)`: the random initial weights are parameters, both
     * biases start at zero and the loss history is empty. The arrays
     * `forward` stores start empty.
     */
    constructor(inputSize: nat, hiddenSize: nat, outputSize: nat, learningRate: real, fns: MultiLayer.Transcendentals,
                initialW1: Matrix, initialW2: Matrix)
      requires IsShape(initialW1, inputSize, hiddenSize) && IsShape(initialW2, hiddenSize, outputSize)
      ensures Valid()
      ensures dims == Dims(inputSize, hiddenSize, outputSize) && this.learningRate == learningRate && this.fns == fns
      ensures Parameters() == Params(initialW1, Zeros(1, hiddenSize), initialW2, Zeros(1, outputSize))
      ensures lossHistory == [] && Cache() == Pass([], [], [], [])
    {
      dims := Dims(inputSize, hiddenSize, outputSize);
      this.learningRate := learningRate;
      this.fns := fns;
      W1 := initialW1;
      b1 := Zeros(1, hiddenSize);
      W2 := initialW2;
      b2 := Zeros(1, outputSize);
      z1, a1, z2, a2 := [], [], [], [];
      lossHistory := [];
    }

    /** `forward(X)`: stores `z1`, `a1`, `z2` and `a2` and returns `(a1, a2, X)`. */
    method Forward(X: Matrix) returns (hidden: Matrix, output: Matrix, input: Matrix)
      requires Valid() && IsShape(X, |X|, dims.input)
      modifies this`z1, this`a1, this`z2, this`a2
      ensures Cache() == ForwardPass(dims, fns, Parameters(), X)
      ensures hidden == a1 && output == a2 && input == X
    {
      z1 := AddRow(MatMul(X, W1, dims.input, dims.hidden), b1, dims.hidden);
      a1 := Apply(fns.sigmoid, z1, dims.hidden);
      z2 := AddRow(MatMul(a1, W2, dims.hidden, dims.output), b2, dims.output);
      a2 := Apply(fns.sigmoid, z2, dims.output);
      return a1, a2, X;
    }

    /** `predict(X)`: a forward pass, then label 1 exactly where the flattened output exceeds one half. */
    method Predict(X: Matrix) returns (labels: Vector)
      requires Valid() && IsShape(X, |X|, dims.input)
      modifies this`z1, this`a1, this`z2, this`a2
      ensures Cache() == ForwardPass(dims, fns, Parameters(), X)
      ensures labels == Predictions(dims, fns, Parameters(), X)
    {
      var hidden, output, input := Forward(X);
      labels := MultiLayer.Threshold(Flatten(output));
    }

    /** `score(X, y)`: the mean of `predict(X) == y`. */
    method Score(X: Matrix, y: Vector) returns (accuracy: real)
      requires Valid() && IsShape(X, |y|, dims.input) && |y| > 0 && dims.output == 1
      modifies this`z1, this`a1, this`z2, this`a2
      ensures Cache() == ForwardPass(dims, fns, Parameters(), X)
      ensures accuracy == ScoreOf(dims, fns, Parameters(), X, y)
    {
      var predictions := Predict(X);
      accuracy := Accuracy(predictions, y);
    }

    /**
     * `backpropagation(X, y)`: a forward pass, every gradient computed from
     * the parameters at entry, then `W2`, `b2`, `W1` and `b1` moved in place.
     */
    method Backpropagation(X: Matrix, y: Vector)
      requires Valid() && IsShape(X, |y|, dims.input) && |y| > 0
      modifies this`W1, this`b1, this`W2, this`b2, this`z1, this`a1, this`z2, this`a2
      ensures Valid()
      ensures Parameters() == Backprop(dims, fns, learningRate, old(Parameters()), X, y)
      ensures Cache() == ForwardPass(dims, fns, old(Parameters()), X)
    {
      ghost var p := Parameters();
      var m := |X|;
      var hidden, output, inputs := Forward(X);
      var dz2 := SubLabels(output, y, dims.output);
      var dW2 := Scale(1.0 / m as real, MatMul(Transpose(hidden, dims.hidden), dz2, m, dims.output), dims.output);
      var db2 := Scale(1.0 / m as real, ColumnSum(dz2, dims.output), dims.output);
      var da1 := MatMul(dz2, Transpose(W2, dims.output), dims.output, dims.hidden);
      var dz1 := Hadamard(da1, Apply(SigmoidDerivative, hidden, dims.hidden), dims.hidden);
      var dW1 := Scale(1.0 / m as real, MatMul(Transpose(inputs, dims.input), dz1, m, dims.hidden), dims.hidden);
      var db1 := Scale(1.0 / m as real, ColumnSum(dz1, dims.hidden), dims.hidden);
      assert Gradients(dW1, db1, dW2, db2) == ComputeGradients(dims, fns, p, X, y);
      W2 := Sub(W2, Scale(learningRate, dW2, dims.output), dims.output);
      b2 := Sub(b2, Scale(learningRate, db2, dims.output), dims.output);
      W1 := Sub(W1, Scale(learningRate, dW1, dims.hidden), dims.hidden);
      b1 := Sub(b1, Scale(learningRate, db1, dims.hidden), dims.hidden);
    }

    /** `random_weight_update(X, y)` in epoch `epoch`: the parameters the perturbation gives. */
    method RandomWeightUpdate(epoch: nat, perturb: Perturbation)
      requires Valid() && KeepsShape(dims, perturb)
      modifies this`W1, this`b1, this`W2, this`b2
      ensures Valid()
      ensures Parameters() == perturb(epoch, old(Parameters()))
    {
      var q := perturb(epoch, Parameters());
      W1, b1, W2, b2 := q.W1, q.b1, q.W2, q.b2;
    }

    /**
     * One pass of `train`'s loop: the update the method name selects, or
     * `ValueError` before anything changes, then the loss of a forward
     * pass with the new parameters, appended to the history.
     */
    method TrainEpoch(X: Matrix, y: Vector, epoch: nat, methodName: string, perturb: Perturbation) returns (r: Result<real>)
      requires Valid() && TrainData(dims, X, y) && KeepsShape(dims, perturb)
      modifies this`W1, this`b1, this`W2, this`b2, this`z1, this`a1, this`z2, this`a2, this`lossHistory
      ensures Valid()
      ensures r.Failure? <==> ParseMethod(methodName).Failure?
      ensures r.Failure? ==>
        && r.message == ParseMethod(methodName).message
        && Parameters() == old(Parameters()) && Cache() == old(Cache()) && lossHistory == old(lossHistory)
      ensures r.Success? ==>
        && Parameters() == Update(dims, fns, learningRate, perturb, ParseMethod(methodName).value, X, y, State(epoch, old(Parameters())))
        && Cache() == ForwardPass(dims, fns, Parameters(), X)
        && r.value == Loss(fns.log, Cache().a2, y, dims.output)
        && lossHistory == old(lossHistory) + [r.value]
    {
      if methodName == "backprop" {
        Backpropagation(X, y);
      } else if methodName == "random" {
        RandomWeightUpdate(epoch, perturb);
      } else {
        return Failure("Unknown method: " + methodName);
      }
      var hidden, output, input := Forward(X);
      var loss := Loss(fns.log, output, y, dims.output);
      lossHistory := lossHistory + [loss];
      return Success(loss);
    }

    /** `Progress` of `train` for the fields of this network. */
    ghost predicate TrainProgress(X: Matrix, y: Vector, perturb: Perturbation, mth: Method, start: Params,
                                  done: seq<Training.Epoch<State>>)
      reads this`W1, this`b1, this`W2, this`b2, this`lossHistory
    {
      Progress(dims, fns, learningRate, perturb, mth, X, y, start, done, Parameters(), lossHistory)
    }

    /** The fields after one more epoch from `p`, with its loss appended to `h`, keep `TrainProgress`. */
    lemma ProgressKept(X: Matrix, y: Vector, perturb: Perturbation, mth: Method, start: Params,
                       done: seq<Training.Epoch<State>>, p: Params, h: seq<real>, loss: real)
      returns (done': seq<Training.Epoch<State>>)
      requires TrainData(dims, X, y) && KeepsShape(dims, perturb)
      requires Progress(dims, fns, learningRate, perturb, mth, X, y, start, done, p, h)
      requires Parameters() == Update(dims, fns, learningRate, perturb, mth, X, y, State(|done|, p))
      requires loss == Loss(fns.log, ForwardPass(dims, fns, Parameters(), X).a2, y, dims.output)
      requires lossHistory == h + [loss]
      ensures done' == done + [Training.Epoch(State(|done| + 1, Parameters()), loss, 0.0)]
      ensures TrainProgress(X, y, perturb, mth, start, done')
    {
      done' := done + [Training.Epoch(State(|done| + 1, Parameters()), loss, 0.0)];
      ProgressStep(dims, fns, learningRate, perturb, mth, X, y, start, done, p, h, done'[|done|]);
    }

    /**
     * One pass of `train`'s loop with the epoch it ran recorded in the
     * ghost `done`, the run so far from `start`; a pass that raises changes
     * nothing.
     */
    method TrainStep(X: Matrix, y: Vector, epoch: nat, methodName: string, perturb: Perturbation, ghost mth: Method,
                     ghost start: Params, ghost done: seq<Training.Epoch<State>>)
      returns (r: Result<()>, ghost done': seq<Training.Epoch<State>>)
      requires TrainData(dims, X, y) && KeepsShape(dims, perturb)
      requires TrainProgress(X, y, perturb, mth, start, done) && |done| == epoch
      requires ParseMethod(methodName).Success? ==> mth == ParseMethod(methodName).value
      modifies this`W1, this`b1, this`W2, this`b2, this`z1, this`a1, this`z2, this`a2, this`lossHistory
      ensures TrainProgress(X, y, perturb, mth, start, done')
      ensures r.Failure? <==> ParseMethod(methodName).Failure?
      ensures r.Failure? ==> r.message == ParseMethod(methodName).message
      ensures r.Failure? ==>
        Parameters() == old(Parameters()) && Cache() == old(Cache()) && lossHistory == old(lossHistory) && done' == done
      ensures r.Success? ==> |done'| == |done| + 1 && Cache() == ForwardPass(dims, fns, Parameters(), X)
    {
      ghost var before, h := Parameters(), lossHistory;
      var step := TrainEpoch(X, y, epoch, methodName, perturb);
      if step.Failure? {
        return Failure(step.message), done;
      }
      done' := ProgressKept(X, y, perturb, mth, start, done, before, h, step.value);
      r := Success(());
    }

    /**
     * The loop of `train` from `start` with an empty history: each pass runs
     * one epoch and records it in the ghost `done`, until `epochs` have run
     * or the pass raises. An unknown method name raises on the first pass,
     * before any update; the `score` of the progress line, which `train`
     * computes after epochs 0, 100, 200 and so on, raises after the first
     * update when the predictions do not broadcast against the labels.
     */
    method RunEpochs(X: Matrix, y: Vector, epochs: int, methodName: string, perturb: Perturbation, ghost mth: Method,
                     ghost start: Params)
      returns (r: Result<()>, ghost done: seq<Training.Epoch<State>>)
      requires Valid() && TrainData(dims, X, y) && KeepsShape(dims, perturb)
      requires Parameters() == start && lossHistory == []
      requires ParseMethod(methodName).Success? ==> mth == ParseMethod(methodName).value
      modifies this`W1, this`b1, this`W2, this`b2, this`z1, this`a1, this`z2, this`a2, this`lossHistory
      ensures TrainProgress(X, y, perturb, mth, start, done)
      ensures r.Failure? <==> epochs > 0 && (ParseMethod(methodName).Failure? || ScoreRaises(dims, |y|))
      ensures r.Failure? && ParseMethod(methodName).Failure? ==> r.message == ParseMethod(methodName).message
      ensures r.Failure? && ParseMethod(methodName).Success? ==>
        && r.message == ScoreMessage(dims, |y|)
        && |done| == 1 && Cache() == ForwardPass(dims, fns, Parameters(), X)
      ensures ParseMethod(methodName).Failure? || epochs <= 0 ==>
        Parameters() == start && Cache() == old(Cache()) && lossHistory == []
      ensures r.Success? ==> |done| == if epochs > 0 then epochs else 0
      ensures r.Success? && epochs > 0 ==> Cache() == ForwardPass(dims, fns, Parameters(), X)
    {
      done := [];
      var epoch := 0;
      while epoch < epochs
        invariant 0 <= epoch == |done| && epoch <= (if epochs > 0 then epochs else 0)
        invariant TrainProgress(X, y, perturb, mth, start, done)
        invariant epoch == 0 ==> Parameters() == start && Cache() == old(Cache()) && lossHistory == []
        invariant epoch > 0 ==> ParseMethod(methodName).Success? && Cache() == ForwardPass(dims, fns, Parameters(), X)
        invariant epoch > 0 ==> !ScoreRaises(dims, |y|)
      {
        var step;
        step, done := TrainStep(X, y, epoch, methodName, perturb, mth, start, done);
        if step.Failure? {
          return step, done;
        }
        if ScoreRaises(dims, |y|) && epoch % 100 == 0 {
          return Failure(ScoreMessage(dims, |y|)), done;
        }
        epoch := epoch + 1;
      }
      return Success(()), done;
    }

    /**
     * `train(X, y, epochs, method)`: empties `loss_history`, then runs
     * exactly `epochs` epochs with no early stop, appending one loss per
     * epoch. An unknown method raises on the first epoch, so only when
     * `epochs > 0`, with the history already emptied and the parameters
     * untouched. With two samples or more and two output units or more,
     * the first progress line raises in `score` once the first epoch has
     * updated the parameters and recorded its loss.
     */
    method Train(X: Matrix, y: Vector, epochs: int, methodName: string, perturb: Perturbation) returns (r: Result<()>)
      requires Valid() && TrainData(dims, X, y) && KeepsShape(dims, perturb)
      modifies this`W1, this`b1, this`W2, this`b2, this`z1, this`a1, this`z2, this`a2, this`lossHistory
      ensures Valid()
      ensures r.Failure? <==> epochs > 0 && (ParseMethod(methodName).Failure? || ScoreRaises(dims, |y|))
      ensures r.Failure? && ParseMethod(methodName).Failure? ==> r.message == ParseMethod(methodName).message
      ensures ParseMethod(methodName).Failure? || epochs <= 0 ==>
        Parameters() == old(Parameters()) && Cache() == old(Cache()) && lossHistory == []
      ensures r.Success? && epochs > 0 ==>
        var run := TrainRun(dims, fns, learningRate, perturb, ParseMethod(methodName).value, X, y, old(Parameters()), epochs);
        && Parameters() == run.final.params
        && lossHistory == Losses(run.epochs)
        && Cache() == ForwardPass(dims, fns, Parameters(), X)
      ensures r.Failure? && ParseMethod(methodName).Success? ==>
        var run := TrainRun(dims, fns, learningRate, perturb, ParseMethod(methodName).value, X, y, old(Parameters()), 1);
        && r.message == ScoreMessage(dims, |y|)
        && Parameters() == run.final.params
        && lossHistory == Losses(run.epochs)
        && Cache() == ForwardPass(dims, fns, Parameters(), X)
      ensures r.Success? ==> |lossHistory| == if epochs > 0 then epochs else 0
    {
      lossHistory := [];
      ghost var mth := if ParseMethod(methodName).Success? then ParseMethod(methodName).value else UseBackprop;
      ghost var done;
      r, done := RunEpochs(X, y, epochs, methodName, perturb, mth, Parameters());
      if r.Success? && epochs > 0 {
        ProgressIsTrainRun(dims, fns, learningRate, perturb, mth, X, y, old(Parameters()), epochs, done, Parameters(), lossHistory);
      } else if r.Failure? && ParseMethod(methodName).Success? {
        ProgressIsTrainRun(dims, fns, learningRate, perturb, mth, X, y, old(Parameters()), 1, done, Parameters(), lossHistory);
      }
    }
  }
}
