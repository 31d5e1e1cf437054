/**
 * The multi-layer perceptron of
 * 03-implementation/perceptron-example/src/multi_layer_perceptron.py: a
 * stack of fully connected layers of sizes `layer_sizes`, hidden layers
 * with a configurable activation and a sigmoid output, trained by
 * backpropagation over the whole batch.
 *
 * The pure functions below specify one forward pass, the backpropagated
 * deltas and the parameter update; the class `MultiLayerPerceptron` keeps
 * the weights, biases and history the Python object keeps, and its methods
 * carry out the same loops in place and are proved to agree with those
 * functions. Sigmoid, tanh and the natural logarithm are supplied as
 * function values (the `Transcendentals` bundle below); the random initial
 * weights are parameters.
 */
module MultiLayer {
  import opened Wrappers
  import opened Vectors
  import opened Matrices
  import opened Activation
  import Training

  /**
   * The transcendental functions numpy supplies: the logistic sigmoid (the
   * clipped `1 / (1 + exp(-x))`), tanh and the natural logarithm. Only their
   * ranges are known: (0, 1) for sigmoid and (-1, 1) for tanh.
   */
  datatype Transcendental = Transcendental(sigmoid: real -> real, tanh: real -> real, log: real -> real)

  ghost predicate InRange(t: Transcendental)
  {
    forall x :: 0.0 < t.sigmoid(x) < 1.0 && -1.0 < t.tanh(x) < 1.0
  }

  type Transcendentals = t: Transcendental | InRange(t)
    witness Transcendental(x => 0.5, x => 0.0, x => 0.0)

  /** The three hidden-layer activations the constructor accepts. */
  datatype ActivationKind = SigmoidUnit | TanhUnit | ReluUnit

  /** The name each activation is selected by. */
  function ActivationName(k: ActivationKind): string
  {
    match k
    case SigmoidUnit => "sigmoid"
    case TanhUnit => "tanh"
    case ReluUnit => "relu"
  }

  /**
   * `_set_activation_functions(activation)`: the three known names select
   * their activation; any other name raises `ValueError`.
   */
  function ParseActivation(name: string): (r: Result<ActivationKind>)
    ensures r.Success? <==> name == "sigmoid" || name == "tanh" || name == "relu"
    ensures r.Success? ==> ActivationName(r.value) == name
    ensures r.Failure? ==> r.message == "Unknown activation: " + name
  {
    if name == "sigmoid" then Success(SigmoidUnit)
    else if name == "tanh" then Success(TanhUnit)
    else if name == "relu" then Success(ReluUnit)
    else Failure("Unknown activation: " + name)
  }

  /** Every activation is selected by its own name. */
  lemma ParseActivationName(k: ActivationKind)
    ensures ParseActivation(ActivationName(k)) == Success(k)
  {
  }

  /**
   * What `__init__` does before any training: layer `i` draws its weights
   * scaled by `sqrt(2 / layer_sizes[i])`, so a zero size among all but the
   * last layer raises `ZeroDivisionError` there, before the activation name
   * is looked at.
   */
  function Configure(sizes: seq<nat>, name: string): (r: Result<ActivationKind>)
    ensures r.Success? <==> (forall i :: 0 <= i < |sizes| - 1 ==> sizes[i] > 0) && ParseActivation(name).Success?
    ensures (exists i :: 0 <= i < |sizes| - 1 && sizes[i] == 0) ==> r == Failure("float division by zero")
    ensures r.Success? ==> ActivationName(r.value) == name
  {
    if exists i :: 0 <= i < |sizes| - 1 && sizes[i] == 0 then Failure("float division by zero")
    else ParseActivation(name)
  }

  /** `self.activation` on one entry: the configured hidden-layer activation. */
  function Activate(k: ActivationKind, fns: Transcendentals, x: real): (r: real)
    ensures k == SigmoidUnit ==> 0.0 < r < 1.0
    ensures k == TanhUnit ==> -1.0 < r < 1.0
    ensures k == ReluUnit ==> r >= 0.0 && (r > 0.0 <==> x > 0.0)
  {
    match k
    case SigmoidUnit => fns.sigmoid(x)
    case TanhUnit => fns.tanh(x)
    case ReluUnit => Relu(x)
  }

  /**
   * `self.activation_derivative` on one entry. Unlike the module Activation
   * helpers, it takes the WEIGHTED INPUT `z` and applies the activation
   * itself: `s(z) (1 - s(z))`, `1 - tanh(z)^2`, or `z > 0`. Each lies in
   * [0, 1]; sigmoid and tanh never give slope 0, and ReLU gives slope 1
   * exactly where it is active.
   */
  function Derivative(k: ActivationKind, fns: Transcendentals, z: real): (r: real)
    ensures 0.0 <= r <= 1.0
    ensures k == SigmoidUnit ==> r <= 0.25
    ensures k != ReluUnit ==> r > 0.0
    ensures k == ReluUnit ==> (r == 1.0 <==> Activate(k, fns, z) > 0.0) && (r == 0.0 || r == 1.0)
  {
    match k
    case SigmoidUnit => SigmoidDerivative(fns.sigmoid(z))
    case TanhUnit => TanhDerivative(fns.tanh(z))
    case ReluUnit => ReluDerivative(z)
  }

  function HiddenFn(k: ActivationKind, fns: Transcendentals): real -> real
  {
    x => Activate(k, fns, x)
  }

  function DerivativeFn(k: ActivationKind, fns: Transcendentals): real -> real
  {
    z => Derivative(k, fns, z)
  }

  /** The activation of layer `i` of `n`: the configured one for hidden layers, sigmoid for the output layer. */
  function LayerFn(k: ActivationKind, fns: Transcendentals, n: nat, i: nat): real -> real
  {
    if i + 1 < n then HiddenFn(k, fns) else fns.sigmoid
  }

  /** The trainable parameters: `self.weights` and `self.biases`. */
  datatype Net = Net(weights: seq<Matrix>, biases: seq<Matrix>)

  /**
   * One weight matrix of shape `(sizes[i], sizes[i+1])` and one bias row of
   * shape `(1, sizes[i+1])` per layer, `|sizes| - 1` layers in all.
   */
  predicate WellShaped(sizes: seq<nat>, net: Net)
  {
    && |sizes| > 0
    && |net.weights| == |sizes| - 1 && |net.biases| == |sizes| - 1
    && (forall i :: 0 <= i < |sizes| - 1 ==> IsShape(net.weights[i], sizes[i], sizes[i + 1]))
    && (forall i :: 0 <= i < |sizes| - 1 ==> IsShape(net.biases[i], 1, sizes[i + 1]))
  }

  /** The weighted input of layer `i`, `np.dot(a, W[i]) + b[i]`. */
  function WeightedInput(sizes: seq<nat>, net: Net, i: nat, a: Matrix): (z: Matrix)
    requires WellShaped(sizes, net) && i < |sizes| - 1 && IsShape(a, |a|, sizes[i])
    ensures IsShape(z, |a|, sizes[i + 1])
  {
    AddRow(MatMul(a, net.weights[i], sizes[i], sizes[i + 1]), net.biases[i], sizes[i + 1])
  }

  /**
   * The lists `forward_propagation` returns for `m` samples: one activation
   * per layer size, the input first, and one weighted input per layer.
   */
  predicate ForwardShaped(sizes: seq<nat>, m: nat, A: seq<Matrix>, Z: seq<Matrix>)
  {
    && |sizes| > 0 && |A| == |sizes| && |Z| == |sizes| - 1
    && (forall i :: 0 <= i < |sizes| ==> IsShape(A[i], m, sizes[i]))
    && (forall i :: 0 <= i < |sizes| - 1 ==> IsShape(Z[i], m, sizes[i + 1]))
  }

  /** The first `n` layers of `forward_propagation(X)`: `n + 1` activations and `n` weighted inputs. */
  function Forward(sizes: seq<nat>, k: ActivationKind, fns: Transcendentals, net: Net, X: Matrix, n: nat)
    : (r: (seq<Matrix>, seq<Matrix>))
    requires WellShaped(sizes, net) && IsShape(X, |X|, sizes[0]) && n < |sizes|
    ensures |r.0| == n + 1 && |r.1| == n && r.0[0] == X
    ensures forall i :: 0 <= i <= n ==> IsShape(r.0[i], |X|, sizes[i])
    ensures forall i :: 0 <= i < n ==> IsShape(r.1[i], |X|, sizes[i + 1])
    decreases n
  {
    if n == 0 then ([X], [])
    else
      var (A, Z) := Forward(sizes, k, fns, net, X, n - 1);
      var z := WeightedInput(sizes, net, n - 1, A[n - 1]);
      (A + [Apply(LayerFn(k, fns, |sizes| - 1, n - 1), z, sizes[n])], Z + [z])
  }

  /** The whole forward pass. */
  function ForwardAll(sizes: seq<nat>, k: ActivationKind, fns: Transcendentals, net: Net, X: Matrix)
    : (r: (seq<Matrix>, seq<Matrix>))
    requires WellShaped(sizes, net) && IsShape(X, |X|, sizes[0])
    ensures ForwardShaped(sizes, |X|, r.0, r.1)
  {
    Forward(sizes, k, fns, net, X, |sizes| - 1)
  }

  /**
   * Each layer of the forward pass feeds the next: among the first `n`
   * layers, the weighted input of layer `i` is computed from activation
   * `i`, and activation `i + 1` is the layer's activation function applied
   * to it -- the configured one for hidden layers, sigmoid for the output
   * layer. With `n = |sizes| - 1` this is the whole of `forward_propagation`.
   */
  lemma {:induction false} ForwardLayer(sizes: seq<nat>, k: ActivationKind, fns: Transcendentals, net: Net,
                                        X: Matrix, n: nat, i: nat)
    requires WellShaped(sizes, net) && IsShape(X, |X|, sizes[0]) && i < n < |sizes|
    ensures var (A, Z) := Forward(sizes, k, fns, net, X, n);
      && Z[i] == WeightedInput(sizes, net, i, A[i])
      && A[i + 1] == Apply(LayerFn(k, fns, |sizes| - 1, i), Z[i], sizes[i + 1])
    decreases n
  {
    var (A, Z) := Forward(sizes, k, fns, net, X, n - 1);
    var (A', Z') := Forward(sizes, k, fns, net, X, n);
    assert A' == A + [A'[n]] && Z' == Z + [Z'[n - 1]];
    if i < n - 1 {
      ForwardLayer(sizes, k, fns, net, X, n - 1, i);
      assert A'[i] == A[i] && A'[i + 1] == A[i + 1] && Z'[i] == Z[i];
    }
  }

  /** The last activation, `activations[-1]`, of shape `(m, sizes[-1])`. */
  function Output(sizes: seq<nat>, k: ActivationKind, fns: Transcendentals, net: Net, X: Matrix): (out: Matrix)
    requires WellShaped(sizes, net) && IsShape(X, |X|, sizes[0])
    ensures IsShape(out, |X|, sizes[|sizes| - 1])
  {
    ForwardAll(sizes, k, fns, net, X).0[|sizes| - 1]
  }

  /**
   * The output layer is a sigmoid: every entry of the last activation lies
   * strictly between 0 and 1 (when there is at least one layer).
   */
  lemma OutputInUnitInterval(sizes: seq<nat>, k: ActivationKind, fns: Transcendentals, net: Net, X: Matrix)
    requires WellShaped(sizes, net) && IsShape(X, |X|, sizes[0]) && |sizes| > 1
    ensures forall i, j :: 0 <= i < |X| && 0 <= j < sizes[|sizes| - 1] ==> 0.0 < Output(sizes, k, fns, net, X)[i][j] < 1.0
  {
    var L := |sizes| - 1;
    var (A, Z) := Forward(sizes, k, fns, net, X, L - 1);
    var z := WeightedInput(sizes, net, L - 1, A[L - 1]);
    assert Output(sizes, k, fns, net, X) == Apply(fns.sigmoid, z, sizes[L]);
  }

  /**
   * The delta of hidden layer `i` from the delta `next` of layer `i + 1`:
   * `np.dot(next, W[i+1].T) * activation_derivative(z[i])`.
   */
  function HiddenDelta(sizes: seq<nat>, k: ActivationKind, fns: Transcendentals, net: Net, Z: seq<Matrix>, i: nat,
                       next: Matrix): (d: Matrix)
    requires WellShaped(sizes, net) && i + 2 < |sizes| && i < |Z|
    requires IsShape(next, |next|, sizes[i + 2]) && IsShape(Z[i], |next|, sizes[i + 1])
    ensures IsShape(d, |next|, sizes[i + 1])
  {
    var error := MatMul(next, Transpose(net.weights[i + 1], sizes[i + 2]), sizes[i + 2], sizes[i + 1]);
    Hadamard(error, Apply(DerivativeFn(k, fns), Z[i], sizes[i + 1]), sizes[i + 1])
  }

  /**
   * `deltas[i:]` of `backward_propagation`, the deltas of layers `i` to the
   * last: the last is `activations[-1] - y.reshape(-1, 1)`, and each earlier
   * one is the `HiddenDelta` of the one after it, so every delta is computed
   * from the weights at entry.
   */
  function Deltas(sizes: seq<nat>, k: ActivationKind, fns: Transcendentals, net: Net, A: seq<Matrix>, Z: seq<Matrix>,
                  y: Vector, i: nat): (D: seq<Matrix>)
    requires WellShaped(sizes, net) && ForwardShaped(sizes, |y|, A, Z) && i + 1 < |sizes|
    ensures |D| == |sizes| - 1 - i && IsShape(D[0], |y|, sizes[i + 1])
    ensures forall j :: 0 <= j < |D| ==> IsShape(D[j], |y|, sizes[i + j + 1])
    decreases |sizes| - i
  {
    if i + 2 == |sizes| then [SubLabels(A[i + 1], y, sizes[i + 1])]
    else
      var D := Deltas(sizes, k, fns, net, A, Z, y, i + 1);
      [HiddenDelta(sizes, k, fns, net, Z, i, D[0])] + D
  }

  /** Inputs to the layer updates: `m > 0` rows each, activation `i` as wide as layer `i`, delta `i` as layer `i + 1`. */
  predicate GradientShaped(sizes: seq<nat>, m: nat, A: seq<Matrix>, D: seq<Matrix>)
  {
    && m > 0 && |A| >= |sizes| - 1 && |D| >= |sizes| - 1
    && (forall i :: 0 <= i < |sizes| - 1 ==> IsShape(A[i], m, sizes[i]))
    && (forall i :: 0 <= i < |sizes| - 1 ==> IsShape(D[i], m, sizes[i + 1]))
  }

  /** `W[i] - lr * np.dot(a.T, d) / m` for the layer's input activation `a` and its delta `d` over `m` samples. */
  function UpdatedWeight(sizes: seq<nat>, net: Net, i: nat, a: Matrix, d: Matrix, lr: real): (W: Matrix)
    requires WellShaped(sizes, net) && i + 1 < |sizes| && |a| > 0
    requires IsShape(a, |a|, sizes[i]) && IsShape(d, |a|, sizes[i + 1])
    ensures IsShape(W, sizes[i], sizes[i + 1])
  {
    Sub(net.weights[i], Scale(lr / |a| as real, MatMul(Transpose(a, sizes[i]), d, |a|, sizes[i + 1]), sizes[i + 1]), sizes[i + 1])
  }

  /** `b[i] - lr * np.mean(d, axis=0, keepdims=True)`. */
  function UpdatedBias(sizes: seq<nat>, net: Net, i: nat, d: Matrix, lr: real): (b: Matrix)
    requires WellShaped(sizes, net) && i + 1 < |sizes| && |d| > 0 && IsShape(d, |d|, sizes[i + 1])
    ensures IsShape(b, 1, sizes[i + 1])
  {
    Sub(net.biases[i], Scale(lr, ColumnMean(d, sizes[i + 1]), sizes[i + 1]), sizes[i + 1])
  }

  /**
   * `backward_propagation(X, y, activations, weighted_inputs)` as a
   * function of the parameters at entry: every delta first, then every
   * layer's weights and bias moved against its gradient. The shapes are
   * kept. With a single layer size there is nothing to update.
   */
  function Backward(sizes: seq<nat>, k: ActivationKind, fns: Transcendentals, net: Net, y: Vector, A: seq<Matrix>,
                    Z: seq<Matrix>, lr: real): (r: Net)
    requires WellShaped(sizes, net) && |y| > 0 && ForwardShaped(sizes, |y|, A, Z)
    ensures WellShaped(sizes, r)
  {
    if |sizes| == 1 then net
    else
      var D := Deltas(sizes, k, fns, net, A, Z, y, 0);
      var L := |sizes| - 1;
      Net(seq(L, i requires 0 <= i < L => UpdatedWeight(sizes, net, i, A[i], D[i], lr)),
          seq(L, i requires 0 <= i < L => UpdatedBias(sizes, net, i, D[i], lr)))
  }

  /** Every output equals its sample's label. */
  predicate FitsLabels(out: Matrix, y: Vector)
  {
    forall i, j :: 0 <= i < |y| && 0 <= i < |out| && 0 <= j < |out[i]| ==> out[i][j] == y[i]
  }

  /** A zero delta gives a zero delta one layer back. */
  lemma HiddenDeltaZero(sizes: seq<nat>, k: ActivationKind, fns: Transcendentals, net: Net, Z: seq<Matrix>, i: nat,
                        next: Matrix)
    requires WellShaped(sizes, net) && i + 2 < |sizes| && i < |Z|
    requires IsShape(next, |next|, sizes[i + 2]) && IsShape(Z[i], |next|, sizes[i + 1]) && IsZero(next)
    ensures IsZero(HiddenDelta(sizes, k, fns, net, Z, i, next))
  {
    MatMulZeroLeft(next, Transpose(net.weights[i + 1], sizes[i + 2]), sizes[i + 2], sizes[i + 1]);
  }

  /** A zero output delta makes every earlier delta zero. */
  lemma {:induction false} DeltasZero(sizes: seq<nat>, k: ActivationKind, fns: Transcendentals, net: Net, A: seq<Matrix>,
                                      Z: seq<Matrix>, y: Vector, i: nat, j: nat)
    requires WellShaped(sizes, net) && ForwardShaped(sizes, |y|, A, Z) && i + 1 + j < |sizes|
    requires IsZero(SubLabels(A[|sizes| - 1], y, sizes[|sizes| - 1]))
    ensures IsZero(Deltas(sizes, k, fns, net, A, Z, y, i)[j])
    decreases |sizes| - i
  {
    if i + 2 < |sizes| {
      var D := Deltas(sizes, k, fns, net, A, Z, y, i + 1);
      if j == 0 {
        DeltasZero(sizes, k, fns, net, A, Z, y, i + 1, 0);
        HiddenDeltaZero(sizes, k, fns, net, Z, i, D[0]);
      } else {
        DeltasZero(sizes, k, fns, net, A, Z, y, i + 1, j - 1);
      }
    }
  }

  /**
   * Backpropagation is at a fixed point when the output already equals the
   * labels: all deltas vanish, so no weight and no bias changes.
   */
  lemma ZeroErrorIsFixedPoint(sizes: seq<nat>, k: ActivationKind, fns: Transcendentals, net: Net, y: Vector,
                              A: seq<Matrix>, Z: seq<Matrix>, lr: real)
    requires WellShaped(sizes, net) && |y| > 0 && ForwardShaped(sizes, |y|, A, Z)
    requires FitsLabels(A[|sizes| - 1], y)
    ensures Backward(sizes, k, fns, net, y, A, Z, lr) == net
  {
    var L := |sizes| - 1;
    if L > 0 {
      assert IsZero(SubLabels(A[L], y, sizes[L]));
      var D := Deltas(sizes, k, fns, net, A, Z, y, 0);
      var r := Backward(sizes, k, fns, net, y, A, Z, lr);
      forall i | 0 <= i < L
        ensures r.weights[i] == net.weights[i] && r.biases[i] == net.biases[i]
      {
        DeltasZero(sizes, k, fns, net, A, Z, y, 0, i);
        var G := MatMul(Transpose(A[i], sizes[i]), D[i], |y|, sizes[i + 1]);
        MatMulZeroRight(Transpose(A[i], sizes[i]), D[i], |y|, sizes[i + 1]);
        SubScaledZero(net.weights[i], lr / |y| as real, G, sizes[i + 1]);
        ColumnSumZero(D[i], sizes[i + 1]);
        SubScaledZero(net.biases[i], lr, ColumnMean(D[i], sizes[i + 1]), sizes[i + 1]);
      }
      assert r.weights == net.weights && r.biases == net.biases;
    }
  }

  /** `activations[-1] - y.reshape(-1, 1)` for the forward pass of `X`. */
  function OutputDelta(sizes: seq<nat>, k: ActivationKind, fns: Transcendentals, net: Net, X: Matrix, y: Vector): (D: Matrix)
    requires WellShaped(sizes, net) && IsShape(X, |y|, sizes[0])
    ensures IsShape(D, |y|, sizes[|sizes| - 1])
  {
    SubLabels(Output(sizes, k, fns, net, X), y, sizes[|sizes| - 1])
  }

  /**
   * The output delta pushes every output toward its 0/1 label: it is
   * positive exactly where the label is 0, negative where it is 1, never
   * zero, and strictly between -1 and 1.
   */
  lemma OutputDeltaTowardLabel(sizes: seq<nat>, k: ActivationKind, fns: Transcendentals, net: Net, X: Matrix, y: Vector)
    requires WellShaped(sizes, net) && IsShape(X, |y|, sizes[0]) && |sizes| > 1 && IsBinary(y)
    ensures forall i, j :: 0 <= i < |y| && 0 <= j < sizes[|sizes| - 1] ==>
      && -1.0 < OutputDelta(sizes, k, fns, net, X, y)[i][j] < 1.0
      && OutputDelta(sizes, k, fns, net, X, y)[i][j] != 0.0
      && (OutputDelta(sizes, k, fns, net, X, y)[i][j] > 0.0 <==> y[i] == 0.0)
  {
    OutputInUnitInterval(sizes, k, fns, net, X);
  }

  /** `predict_proba(X)`: `activations[-1].flatten()`. */
  function Probabilities(sizes: seq<nat>, k: ActivationKind, fns: Transcendentals, net: Net, X: Matrix): Vector
    requires WellShaped(sizes, net) && IsShape(X, |X|, sizes[0])
  {
    Flatten(Output(sizes, k, fns, net, X))
  }

  /**
   * With a single output unit there is one probability per sample, the
   * sample's output; behind at least one layer it lies strictly between 0
   * and 1.
   */
  lemma SingleOutputProbabilities(sizes: seq<nat>, k: ActivationKind, fns: Transcendentals, net: Net, X: Matrix)
    requires WellShaped(sizes, net) && IsShape(X, |X|, sizes[0]) && sizes[|sizes| - 1] == 1
    ensures var p := Probabilities(sizes, k, fns, net, X);
      && |p| == |X|
      && (forall i :: 0 <= i < |X| ==> p[i] == Output(sizes, k, fns, net, X)[i][0])
      && (|sizes| > 1 ==> forall i :: 0 <= i < |X| ==> 0.0 < p[i] < 1.0)
  {
    FlattenColumn(Output(sizes, k, fns, net, X));
    if |sizes| > 1 {
      OutputInUnitInterval(sizes, k, fns, net, X);
    }
  }

  /** `(probabilities > 0.5).astype(int)`: label 1 exactly above one half. */
  function Threshold(p: Vector): (r: Vector)
    ensures |r| == |p| && IsBinary(r)
    ensures forall i :: 0 <= i < |p| ==> (r[i] == 1.0 <==> p[i] > 0.5)
  {
    seq(|p|, i requires 0 <= i < |p| => if p[i] > 0.5 then 1.0 else 0.0)
  }

  /** The `epsilon` that keeps `compute_loss` away from `log(0)`. */
  const Epsilon: real := 0.0000001

  /** One sample's `y log(p + eps) + (1 - y) log(1 - p + eps)`. */
  function LogLikelihood(log: real -> real, p: real, t: real): real
  {
    t * log(p + Epsilon) + (1.0 - t) * log(1.0 - p + Epsilon)
  }

  function LogLikelihoods(log: real -> real, p: Vector, y: Vector): Vector
    requires |p| == |y|
  {
    seq(|y|, i requires 0 <= i < |y| => LogLikelihood(log, p[i], y[i]))
  }

  /** `compute_loss`: the binary cross-entropy, minus the mean log-likelihood. */
  function CrossEntropy(log: real -> real, p: Vector, y: Vector): real
    requires |p| == |y| > 0
  {
    -Mean(LogLikelihoods(log, p, y))
  }

  /** The probability `p` of label 1 gives to label `t`. */
  function LabelProbability(p: real, t: real): real
  {
    if t == 1.0 then p else 1.0 - p
  }

  lemma LogLikelihoodOfLabel(log: real -> real, p: real, t: real)
    requires t == 0.0 || t == 1.0
    ensures LogLikelihood(log, p, t) == log(LabelProbability(p, t) + Epsilon)
  {
  }

  /**
   * Over 0/1 labels the loss is minus the mean log of the probability the
   * network gives each sample's true label.
   */
  lemma CrossEntropyOfLabels(log: real -> real, p: Vector, y: Vector)
    requires |p| == |y| > 0 && IsBinary(y)
    ensures CrossEntropy(log, p, y) == -Mean(seq(|y|, i requires 0 <= i < |y| => log(LabelProbability(p[i], y[i]) + Epsilon)))
  {
    var l := LogLikelihoods(log, p, y);
    var r := seq(|y|, i requires 0 <= i < |y| => log(LabelProbability(p[i], y[i]) + Epsilon));
    forall i | 0 <= i < |y|
      ensures l[i] == r[i]
    {
      LogLikelihoodOfLabel(log, p[i], y[i]);
    }
    assert l == r;
  }

  /** The data `fit` runs on and the parameter shapes it keeps: one output unit, 0 < m samples. */
  predicate Trainable(sizes: seq<nat>, X: Matrix, y: Vector, net: Net)
  {
    WellShaped(sizes, net) && IsShape(X, |y|, sizes[0]) && |y| > 0 && sizes[|sizes| - 1] == 1
  }

  /**
   * One epoch of `fit` from `net`: forward pass, backward pass, then the
   * loss and accuracy of the updated network.
   */
  function TrainingEpoch(sizes: seq<nat>, k: ActivationKind, fns: Transcendentals, X: Matrix, y: Vector, lr: real,
                         net: Net): (e: Training.Epoch<Net>)
    requires Trainable(sizes, X, y, net)
    ensures Trainable(sizes, X, y, e.params)
  {
    var (A, Z) := ForwardAll(sizes, k, fns, net, X);
    var next := Backward(sizes, k, fns, net, y, A, Z, lr);
    SingleOutputProbabilities(sizes, k, fns, next, X);
    var p := Probabilities(sizes, k, fns, next, X);
    Training.Epoch(next, CrossEntropy(fns.log, p, y), Accuracy(Threshold(p), y))
  }

  /** `TrainingEpoch` as the step of the shared epoch loop. */
  function EpochStep(sizes: seq<nat>, k: ActivationKind, fns: Transcendentals, X: Matrix, y: Vector, lr: real)
    : Net --> Training.Epoch<Net>
  {
    (net: Net) requires Trainable(sizes, X, y, net) => TrainingEpoch(sizes, k, fns, X, y, lr, net)
  }

  function Shaped(sizes: seq<nat>, X: Matrix, y: Vector): Net -> bool
  {
    (net: Net) => Trainable(sizes, X, y, net)
  }

  /** `fit` stops after an epoch with accuracy 1 and loss below 0.01. */
  function Converged(e: Training.Epoch<Net>): bool
  {
    e.accuracy == 1.0 && e.loss < 0.01
  }

  lemma EpochStepClosed(sizes: seq<nat>, k: ActivationKind, fns: Transcendentals, X: Matrix, y: Vector, lr: real)
    ensures Training.Closed(EpochStep(sizes, k, fns, X, y, lr), Shaped(sizes, X, y))
  {
  }

  /** At most `n` epochs of `fit` from `net`. */
  function FitRun(sizes: seq<nat>, k: ActivationKind, fns: Transcendentals, X: Matrix, y: Vector, lr: real, net: Net,
                  n: nat): (r: Training.Run<Net>)
    requires Trainable(sizes, X, y, net)
    ensures Trainable(sizes, X, y, r.final)
  {
    EpochStepClosed(sizes, k, fns, X, y, lr);
    Training.Train(EpochStep(sizes, k, fns, X, y, lr), Shaped(sizes, X, y), Converged, net, n)
  }

  /**
   * `fit(X, y, epochs)` runs between 1 and `epochs` epochs (none when
   * `epochs` is 0), and every epoch but the last missed the stopping rule.
   */
  lemma FitRunLength(sizes: seq<nat>, k: ActivationKind, fns: Transcendentals, X: Matrix, y: Vector, lr: real, net: Net,
                     n: nat)
    requires Trainable(sizes, X, y, net)
    ensures var r := FitRun(sizes, k, fns, X, y, lr, net, n);
      && |r.epochs| <= n
      && (n > 0 ==> |r.epochs| > 0)
      && (forall i :: 0 <= i < |r.epochs| - 1 ==> !Converged(r.epochs[i]))
  {
    EpochStepClosed(sizes, k, fns, X, y, lr);
    Training.TrainIsRun(EpochStep(sizes, k, fns, X, y, lr), Shaped(sizes, X, y), Converged, net, n);
  }

  /**
   * The epochs a `fit` loop recorded are `FitRun`'s when they are chained
   * from the starting parameters, only the last one converged, and fewer
   * than `n` ran only when the last one did.
   */
  lemma FitLoopIsFitRun(sizes: seq<nat>, k: ActivationKind, fns: Transcendentals, X: Matrix, y: Vector, lr: real,
                        start: Net, n: nat, done: seq<Training.Epoch<Net>>)
    requires Trainable(sizes, X, y, start)
    requires Training.Chained(EpochStep(sizes, k, fns, X, y, lr), Shaped(sizes, X, y), start, done)
    requires |done| <= n && (|done| < n ==> |done| > 0 && Converged(done[|done| - 1]))
    requires forall i :: 0 <= i < |done| - 1 ==> !Converged(done[i])
    ensures FitRun(sizes, k, fns, X, y, lr, start, n) == Training.Run(Training.Before(start, done, |done|), done)
  {
    EpochStepClosed(sizes, k, fns, X, y, lr);
    Training.LoopIsTrain(EpochStep(sizes, k, fns, X, y, lr), Shaped(sizes, X, y), Converged, start, n, done);
  }

  /**
   * Where `fit` stands after the epochs `done`: they ran chained from
   * `start`, `net` is where the last one left the parameters, and the
   * history `h` is `h0` followed by their loss and accuracy.
   */
  ghost predicate Progress(sizes: seq<nat>, k: ActivationKind, fns: Transcendentals, X: Matrix, y: Vector, lr: real,
                           start: Net, done: seq<Training.Epoch<Net>>, h0: History, net: Net, h: History)
  {
    && Trainable(sizes, X, y, net)
    && Training.Chained(EpochStep(sizes, k, fns, X, y, lr), Shaped(sizes, X, y), start, done)
    && Training.Before(start, done, |done|) == net
    && h == h0.Append(HistoryOf(done))
  }

  /** One more epoch, recorded in the history, keeps `Progress`. */
  lemma ProgressStep(sizes: seq<nat>, k: ActivationKind, fns: Transcendentals, X: Matrix, y: Vector, lr: real,
                     start: Net, done: seq<Training.Epoch<Net>>, h0: History, h: History, e: Training.Epoch<Net>)
    requires Progress(sizes, k, fns, X, y, lr, start, done, h0, Training.Before(start, done, |done|), h)
    requires e == TrainingEpoch(sizes, k, fns, X, y, lr, Training.Before(start, done, |done|))
    ensures Progress(sizes, k, fns, X, y, lr, start, done + [e], h0, e.params, h.Append(History([e.loss], [e.accuracy])))
  {
    EpochStepClosed(sizes, k, fns, X, y, lr);
    Training.ChainedSnoc(EpochStep(sizes, k, fns, X, y, lr), Shaped(sizes, X, y), start, done, e);
    HistoryOfSnoc(h0, done, e);
  }

  /**
   * When the loop of `fit` leaves off -- at most `n` epochs, none but the
   * last converged, fewer than `n` only when the last did -- the parameters
   * and the history it reached are `FitRun`'s.
   */
  lemma ProgressIsFitRun(sizes: seq<nat>, k: ActivationKind, fns: Transcendentals, X: Matrix, y: Vector, lr: real,
                         start: Net, n: nat, done: seq<Training.Epoch<Net>>, h0: History, net: Net, h: History)
    requires Progress(sizes, k, fns, X, y, lr, start, done, h0, net, h) && Trainable(sizes, X, y, start)
    requires |done| <= n && (|done| < n ==> |done| > 0 && Converged(done[|done| - 1]))
    requires forall i :: 0 <= i < |done| - 1 ==> !Converged(done[i])
    ensures net == FitRun(sizes, k, fns, X, y, lr, start, n).final
    ensures h == h0.Append(HistoryOf(FitRun(sizes, k, fns, X, y, lr, start, n).epochs))
  {
    FitLoopIsFitRun(sizes, k, fns, X, y, lr, start, n, done);
  }

  /** No epoch of `es + [e]` converged when none of `es` did and `e` did not. */
  lemma NoneConvergedSnoc(es: seq<Training.Epoch<Net>>, e: Training.Epoch<Net>)
    requires forall i :: 0 <= i < |es| ==> !Converged(es[i])
    requires !Converged(e)
    ensures forall i :: 0 <= i < |es + [e]| ==> !Converged((es + [e])[i])
  {
    forall i | 0 <= i < |es + [e]|
      ensures !Converged((es + [e])[i])
    {
      if i < |es| {
        assert (es + [e])[i] == es[i];
      }
    }
  }

  /** A network that predicts every training label with a loss below 0.01. */
  predicate Fits(sizes: seq<nat>, k: ActivationKind, fns: Transcendentals, X: Matrix, y: Vector, net: Net)
  {
    && Trainable(sizes, X, y, net)
    && |Probabilities(sizes, k, fns, net, X)| == |y|
    && Threshold(Probabilities(sizes, k, fns, net, X)) == y
    && CrossEntropy(fns.log, Probabilities(sizes, k, fns, net, X), y) < 0.01
  }

  function Fitting(sizes: seq<nat>, k: ActivationKind, fns: Transcendentals, X: Matrix, y: Vector): Net -> bool
  {
    net => Fits(sizes, k, fns, X, y, net)
  }

  lemma EpochFitsIfConverged(sizes: seq<nat>, k: ActivationKind, fns: Transcendentals, X: Matrix, y: Vector, lr: real,
                             net: Net)
    requires Trainable(sizes, X, y, net)
    ensures Converged(TrainingEpoch(sizes, k, fns, X, y, lr, net)) ==>
      Fits(sizes, k, fns, X, y, TrainingEpoch(sizes, k, fns, X, y, lr, net).params)
  {
    var e := TrainingEpoch(sizes, k, fns, X, y, lr, net);
    SingleOutputProbabilities(sizes, k, fns, e.params, X);
    var p := Threshold(Probabilities(sizes, k, fns, e.params, X));
    if Converged(e) {
      assert p == y;
    }
  }

  /**
   * Every epoch that meets the stopping rule leaves a network that `Fits`,
   * stated for the step, invariant, rule and property given by name.
   */
  lemma ConvergedEpochsFit(sizes: seq<nat>, k: ActivationKind, fns: Transcendentals, X: Matrix, y: Vector, lr: real,
                           step: Net --> Training.Epoch<Net>, inv: Net -> bool, stop: Training.Epoch<Net> -> bool,
                           fin: Net -> bool)
    requires step == EpochStep(sizes, k, fns, X, y, lr) && inv == Shaped(sizes, X, y)
    requires stop == Converged && fin == Fitting(sizes, k, fns, X, y)
    ensures forall q :: inv(q) && stop(step(q)) ==> fin(step(q).params)
  {
    forall q | inv(q) && stop(step(q))
      ensures fin(step(q).params)
    {
      EpochFitsIfConverged(sizes, k, fns, X, y, lr, q);
    }
  }

  /**
   * A run of `fit` that stopped early -- or whose last epoch met the
   * stopping rule -- ends with a network that predicts every training label
   * and whose loss is below 0.01.
   */
  lemma ConvergedFitIsExact(sizes: seq<nat>, k: ActivationKind, fns: Transcendentals, X: Matrix, y: Vector, lr: real,
                            net: Net, n: nat)
    requires Trainable(sizes, X, y, net)
    ensures Training.EndedOnStop(Converged, FitRun(sizes, k, fns, X, y, lr, net, n), n) ==>
      Fits(sizes, k, fns, X, y, FitRun(sizes, k, fns, X, y, lr, net, n).final)
  {
    EpochStepClosed(sizes, k, fns, X, y, lr);
    var step, inv, fin := EpochStep(sizes, k, fns, X, y, lr), Shaped(sizes, X, y), Fitting(sizes, k, fns, X, y);
    ConvergedEpochsFit(sizes, k, fns, X, y, lr, step, inv, Converged, fin);
    Training.TrainStopsAt(step, inv, Converged, fin, net, n);
  }

  /** The `history` dictionary: the loss and accuracy lists, one entry per epoch. */
  datatype History = History(loss: seq<real>, accuracy: seq<real>)
  {
    predicate Aligned()
    {
      |loss| == |accuracy|
    }

    function Append(other: History): (h: History)
      ensures Aligned() && other.Aligned() ==> h.Aligned()
    {
      History(loss + other.loss, accuracy + other.accuracy)
    }
  }

  const EmptyHistory := History([], [])

  /** The history lists a run's epochs fill. */
  function HistoryOf(es: seq<Training.Epoch<Net>>): (h: History)
    ensures h.Aligned() && |h.loss| == |es|
    ensures forall i :: 0 <= i < |es| ==> h.loss[i] == es[i].loss && h.accuracy[i] == es[i].accuracy
  {
    History(seq(|es|, i requires 0 <= i < |es| => es[i].loss), seq(|es|, i requires 0 <= i < |es| => es[i].accuracy))
  }

  /** Recording one more epoch appends one entry to each list. */
  lemma HistoryOfSnoc(h: History, es: seq<Training.Epoch<Net>>, e: Training.Epoch<Net>)
    ensures h.Append(HistoryOf(es + [e])) == h.Append(HistoryOf(es)).Append(History([e.loss], [e.accuracy]))
  {
    var l, r := HistoryOf(es + [e]), HistoryOf(es).Append(History([e.loss], [e.accuracy]));
    assert l.loss == r.loss && l.accuracy == r.accuracy;
    assert h.loss + l.loss == (h.loss + HistoryOf(es).loss) + [e.loss];
    assert h.accuracy + l.accuracy == (h.accuracy + HistoryOf(es).accuracy) + [e.accuracy];
  }

  /** The zero bias rows `__init__` and `reset` give every layer. */
  function ZeroBiases(sizes: seq<nat>): (B: seq<Matrix>)
    requires |sizes| > 0
    ensures |B| == |sizes| - 1
    ensures forall i :: 0 <= i < |B| ==> IsShape(B[i], 1, sizes[i + 1]) && IsZero(B[i])
  {
    seq(|sizes| - 1, i requires 0 <= i < |sizes| - 1 => Zeros(1, sizes[i + 1]))
  }

  /** Initial weights of the shapes `__init__` draws: `(sizes[i], sizes[i+1])` for each layer. */
  predicate InitialWeights(sizes: seq<nat>, W: seq<Matrix>)
  {
    |sizes| > 0 && |W| == |sizes| - 1 && forall i :: 0 <= i < |W| ==> IsShape(W[i], sizes[i], sizes[i + 1])
  }

  class MultiLayerPerceptron {
    const layerSizes: seq<nat>
    const activation: ActivationKind
    const learningRate: real
    /** The numpy functions the network evaluates. */
    const fns: Transcendentals
    var weights: seq<Matrix>
    var biases: seq<Matrix>
    var history: History

    ghost predicate Valid()
      reads this
    {
      WellShaped(layerSizes, Net(weights, biases)) && history.Aligned()
    }

    /**
     * `MultiLayerPerceptron(layer_sizes, activation, learning_rate)` for a
     * configuration `Configure` accepts; the random initial weights are a
     * parameter, the biases start at zero and the history is empty.
     */
    constructor(layerSizes: seq<nat>, activation: string, learningRate: real, fns: Transcendentals,
                initialWeights: seq<Matrix>)
      requires Configure(layerSizes, activation).Success? && InitialWeights(layerSizes, initialWeights)
      ensures Valid()
      ensures this.layerSizes == layerSizes && this.activation == Configure(layerSizes, activation).value
      ensures this.learningRate == learningRate && this.fns == fns
      ensures weights == initialWeights && biases == ZeroBiases(layerSizes) && history == EmptyHistory
    {
      this.layerSizes := layerSizes;
      this.activation := Configure(layerSizes, activation).value;
      this.learningRate := learningRate;
      this.fns := fns;
      weights := initialWeights;
      biases := ZeroBiases(layerSizes);
      history := EmptyHistory;
    }

    /**
     * `forward_propagation(X)`: the loop over the layers, appending each
     * weighted input and activation; the lists are `ForwardAll`'s.
     */
    method ForwardPropagation(X: Matrix) returns (activations: seq<Matrix>, weightedInputs: seq<Matrix>)
      requires Valid() && IsShape(X, |X|, layerSizes[0])
      ensures (activations, weightedInputs) == ForwardAll(layerSizes, activation, fns, Net(weights, biases), X)
    {
      ghost var net := Net(weights, biases);
      activations := [X];
      weightedInputs := [];
      var i := 0;
      while i < |layerSizes| - 1
        invariant 0 <= i <= |layerSizes| - 1
        invariant (activations, weightedInputs) == Forward(layerSizes, activation, fns, net, X, i)
      {
        var z := AddRow(MatMul(activations[|activations| - 1], weights[i], layerSizes[i], layerSizes[i + 1]),
                        biases[i], layerSizes[i + 1]);
        weightedInputs := weightedInputs + [z];
        var a;
        if i < |layerSizes| - 2 {
          a := Apply(HiddenFn(activation, fns), z, layerSizes[i + 1]);
        } else {
          a := Apply(fns.sigmoid, z, layerSizes[i + 1]);
        }
        activations := activations + [a];
        i := i + 1;
      }
    }

    /**
     * `backward_propagation(X, y, activations, weighted_inputs)`: every
     * delta first, then the update of every layer in place; the new
     * parameters are `Backward`'s.
     */
    method BackwardPropagation(X: Matrix, y: Vector, activations: seq<Matrix>, weightedInputs: seq<Matrix>)
      requires Valid() && IsShape(X, |y|, layerSizes[0]) && |y| > 0
      requires ForwardShaped(layerSizes, |y|, activations, weightedInputs)
      modifies this`weights, this`biases
      ensures Valid()
      ensures Net(weights, biases) ==
        Backward(layerSizes, activation, fns, old(Net(weights, biases)), y, activations, weightedInputs, learningRate)
    {
      ghost var target := Backward(layerSizes, activation, fns, Net(weights, biases), y, activations, weightedInputs, learningRate);
      var deltas := ComputeDeltas(y, activations, weightedInputs);
      UpdateLayers(|X|, activations, deltas);
      assert weights == target.weights && biases == target.biases;
    }

    /**
     * The first half of `backward_propagation`: the output delta
     * `activations[-1] - y`, then the hidden deltas from the last layer back
     * to the first, each prepended to the list.
     */
    method ComputeDeltas(y: Vector, activations: seq<Matrix>, weightedInputs: seq<Matrix>) returns (deltas: seq<Matrix>)
      requires Valid() && |y| > 0 && ForwardShaped(layerSizes, |y|, activations, weightedInputs)
      ensures |layerSizes| == 1 ==> |deltas| == 1
      ensures |layerSizes| > 1 ==>
        deltas == Deltas(layerSizes, activation, fns, Net(weights, biases), activations, weightedInputs, y, 0)
    {
      ghost var net := Net(weights, biases);
      var L := |layerSizes| - 1;
      deltas := [SubLabels(activations[L], y, layerSizes[L])];
      var i := L - 1;
      while i > 0
        invariant L > 0 ==> 0 <= i < L && deltas == Deltas(layerSizes, activation, fns, net, activations, weightedInputs, y, i)
        invariant L == 0 ==> i == -1 && |deltas| == 1
      {
        assert IsShape(weights[i], layerSizes[i], layerSizes[i + 1]) && IsShape(deltas[0], |y|, layerSizes[i + 1]);
        var error := MatMul(deltas[0], Transpose(weights[i], layerSizes[i + 1]), layerSizes[i + 1], layerSizes[i]);
        var delta := Hadamard(error, Apply(DerivativeFn(activation, fns), weightedInputs[i - 1], layerSizes[i]), layerSizes[i]);
        assert delta == HiddenDelta(layerSizes, activation, fns, net, weightedInputs, i - 1, deltas[0]);
        deltas := [delta] + deltas;
        i := i - 1;
      }
    }

    /**
     * The second half of `backward_propagation`: for each layer in turn,
     * `weights[i] -= learning_rate * dot(activations[i].T, deltas[i]) / m`
     * and `biases[i] -= learning_rate * mean(deltas[i], axis=0)`.
     */
    method UpdateLayers(m: nat, activations: seq<Matrix>, deltas: seq<Matrix>)
      requires Valid() && GradientShaped(layerSizes, m, activations, deltas)
      modifies this`weights, this`biases
      ensures |weights| == |biases| == |layerSizes| - 1
      ensures forall t :: 0 <= t < |layerSizes| - 1 ==>
        weights[t] == UpdatedWeight(layerSizes, old(Net(weights, biases)), t, activations[t], deltas[t], learningRate)
      ensures forall t :: 0 <= t < |layerSizes| - 1 ==>
        biases[t] == UpdatedBias(layerSizes, old(Net(weights, biases)), t, deltas[t], learningRate)
    {
      ghost var net := Net(weights, biases);
      var L := |layerSizes| - 1;
      var j := 0;
      while j < L
        invariant 0 <= j <= L && |weights| == L && |biases| == L
        invariant forall t :: 0 <= t < j ==> weights[t] == UpdatedWeight(layerSizes, net, t, activations[t], deltas[t], learningRate)
        invariant forall t :: 0 <= t < j ==> biases[t] == UpdatedBias(layerSizes, net, t, deltas[t], learningRate)
        invariant forall t :: j <= t < L ==> weights[t] == net.weights[t] && biases[t] == net.biases[t]
      {
        UpdateLayer(j, m, activations[j], deltas[j], net);
        j := j + 1;
      }
    }

    /** One pass of that loop: layer `j` moved against its gradient, every other layer as it was. */
    method UpdateLayer(j: nat, m: nat, a: Matrix, d: Matrix, ghost net: Net)
      requires WellShaped(layerSizes, net) && j + 1 < |layerSizes| && |weights| == |biases| == |layerSizes| - 1
      requires weights[j] == net.weights[j] && biases[j] == net.biases[j]
      requires m == |a| > 0 && IsShape(a, m, layerSizes[j]) && IsShape(d, m, layerSizes[j + 1])
      modifies this`weights, this`biases
      ensures weights == old(weights)[j := UpdatedWeight(layerSizes, net, j, a, d, learningRate)]
      ensures biases == old(biases)[j := UpdatedBias(layerSizes, net, j, d, learningRate)]
    {
      var gradient := MatMul(Transpose(a, layerSizes[j]), d, m, layerSizes[j + 1]);
      weights := weights[j := Sub(weights[j], Scale(learningRate / m as real, gradient, layerSizes[j + 1]), layerSizes[j + 1])];
      biases := biases[j := Sub(biases[j], Scale(learningRate, ColumnMean(d, layerSizes[j + 1]), layerSizes[j + 1]),
                                layerSizes[j + 1])];
    }

    /** `predict_proba(X)`: a forward pass, then the last activation flattened. */
    method PredictProba(X: Matrix) returns (p: Vector)
      requires Valid() && IsShape(X, |X|, layerSizes[0])
      ensures p == Probabilities(layerSizes, activation, fns, Net(weights, biases), X)
    {
      var activations, weightedInputs := ForwardPropagation(X);
      p := Flatten(activations[|activations| - 1]);
    }

    /** `predict(X)`: label 1 exactly where the probability exceeds one half. */
    method Predict(X: Matrix) returns (p: Vector)
      requires Valid() && IsShape(X, |X|, layerSizes[0])
      ensures p == Threshold(Probabilities(layerSizes, activation, fns, Net(weights, biases), X))
    {
      var probabilities := PredictProba(X);
      p := Threshold(probabilities);
    }

    /** `compute_loss(X, y)`: the cross-entropy of the predicted probabilities. */
    method ComputeLoss(X: Matrix, y: Vector) returns (loss: real)
      requires Valid() && Trainable(layerSizes, X, y, Net(weights, biases))
      ensures |Probabilities(layerSizes, activation, fns, Net(weights, biases), X)| == |y|
      ensures loss == CrossEntropy(fns.log, Probabilities(layerSizes, activation, fns, Net(weights, biases), X), y)
    {
      var predictions := PredictProba(X);
      SingleOutputProbabilities(layerSizes, activation, fns, Net(weights, biases), X);
      loss := CrossEntropy(fns.log, predictions, y);
    }

    /**
     * `fit(X, y, epochs)`: up to `epochs` epochs, each a forward pass, a
     * backward pass and the loss and accuracy of the updated network
     * appended to the history, stopping after the first epoch with accuracy
     * 1 and loss below 0.01. Earlier history is kept; the new entries and
     * the final parameters are `FitRun`'s.
     */
    method Fit(X: Matrix, y: Vector, epochs: int)
      requires Valid() && Trainable(layerSizes, X, y, Net(weights, biases))
      modifies this`weights, this`biases, this`history
      ensures Valid()
      ensures var r := FitRun(layerSizes, activation, fns, X, y, learningRate, old(Net(weights, biases)),
                              if epochs > 0 then epochs else 0);
        && Net(weights, biases) == r.final
        && history == old(history).Append(HistoryOf(r.epochs))
    {
      ghost var n: nat := if epochs > 0 then epochs else 0;
      ghost var start := Net(weights, biases);
      ghost var done := FitLoop(X, y, epochs, start, old(history));
      ProgressIsFitRun(layerSizes, activation, fns, X, y, learningRate, start, n, done, old(history), Net(weights, biases), history);
    }

    /**
     * The epoch loop of `fit`. The ghost `done` is the run it makes from
     * `start`: at most `epochs` epochs, none but the last converged, and
     * fewer than `epochs` only when the last one did.
     */
    method FitLoop(X: Matrix, y: Vector, epochs: int, ghost start: Net, ghost h0: History)
      returns (ghost done: seq<Training.Epoch<Net>>)
      requires FitProgress(X, y, start, [], h0)
      modifies this`weights, this`biases, this`history
      ensures FitProgress(X, y, start, done, h0)
      ensures |done| <= (if epochs > 0 then epochs else 0)
      ensures |done| < epochs ==> |done| > 0 && Converged(done[|done| - 1])
      ensures forall i :: 0 <= i < |done| - 1 ==> !Converged(done[i])
    {
      done := [];
      ghost var n: nat := if epochs > 0 then epochs else 0;
      var epoch := 0;
      while epoch < epochs
        invariant FitProgress(X, y, start, done, h0)
        invariant 0 <= epoch <= n && |done| == epoch
        invariant forall i :: 0 <= i < |done| ==> !Converged(done[i])
      {
        ghost var before := done;
        var loss, accuracy;
        loss, accuracy, done := FitEpoch(X, y, start, done, h0);
        ghost var e := Training.Epoch(Net(weights, biases), loss, accuracy);
        if accuracy == 1.0 && loss < 0.01 {
          assert Converged(done[|done| - 1]);
          break;
        }
        NoneConvergedSnoc(before, e);
        epoch := epoch + 1;
      }
    }

    /**
     * Where `fit` stands after the epochs `done`: they ran chained from
     * `start`, the parameters are where the last one left them, and the
     * history is `h0` followed by their loss and accuracy.
     */
    ghost predicate FitProgress(X: Matrix, y: Vector, start: Net, done: seq<Training.Epoch<Net>>, h0: History)
      reads this
    {
      Valid() && Progress(layerSizes, activation, fns, X, y, learningRate, start, done, h0, Net(weights, biases), history)
    }

    /**
     * One pass of the `fit` loop body. The ghost `done` is the run so far,
     * from `start`; the pass extends it by the epoch `TrainingEpoch` reports
     * from the parameters at entry.
     */
    method FitEpoch(X: Matrix, y: Vector, ghost start: Net, ghost done: seq<Training.Epoch<Net>>, ghost h0: History)
      returns (loss: real, accuracy: real, ghost done': seq<Training.Epoch<Net>>)
      requires FitProgress(X, y, start, done, h0)
      modifies this`weights, this`biases, this`history
      ensures done' == done + [Training.Epoch(Net(weights, biases), loss, accuracy)]
      ensures FitProgress(X, y, start, done', h0)
    {
      ghost var h := history;
      loss, accuracy := TrainEpoch(X, y);
      history := history.Append(History([loss], [accuracy]));
      ghost var e := Training.Epoch(Net(weights, biases), loss, accuracy);
      ProgressStep(layerSizes, activation, fns, X, y, learningRate, start, done, h0, h, e);
      done' := done + [e];
    }

    /**
     * The work of one pass of the `fit` loop: a forward pass, a backward
     * pass, then the loss and the accuracy of the predictions of the updated
     * network. Together with the new parameters they are `TrainingEpoch`'s.
     */
    method TrainEpoch(X: Matrix, y: Vector) returns (loss: real, accuracy: real)
      requires Valid() && Trainable(layerSizes, X, y, Net(weights, biases))
      modifies this`weights, this`biases
      ensures Valid()
      ensures Training.Epoch(Net(weights, biases), loss, accuracy) ==
        TrainingEpoch(layerSizes, activation, fns, X, y, learningRate, old(Net(weights, biases)))
    {
      var activations, weightedInputs := ForwardPropagation(X);
      BackwardPropagation(X, y, activations, weightedInputs);
      loss := ComputeLoss(X, y);
      var predictions := Predict(X);
      accuracy := Accuracy(predictions, y);
    }

    /** `reset()`: fresh weights (given here), zero biases and an empty history. */
    method Reset(newWeights: seq<Matrix>)
      requires InitialWeights(layerSizes, newWeights)
      modifies this`weights, this`biases, this`history
      ensures Valid()
      ensures weights == newWeights && biases == ZeroBiases(layerSizes) && history == EmptyHistory
    {
      weights := [];
      biases := [];
      var i := 0;
      while i < |layerSizes| - 1
        invariant 0 <= i <= |layerSizes| - 1
        invariant weights == newWeights[..i] && biases == ZeroBiases(layerSizes)[..i]
      {
        weights := weights + [newWeights[i]];
        biases := biases + [Zeros(1, layerSizes[i + 1])];
        i := i + 1;
      }
      history := EmptyHistory;
    }
  }

  /**
   * Construction with its errors: a zero layer size before the last raises
   * `ZeroDivisionError`, an unknown activation name `ValueError`, and
   * otherwise a new perceptron is returned.
   */
  method Create(layerSizes: seq<nat>, activation: string, learningRate: real, fns: Transcendentals,
                initialWeights: seq<Matrix>) returns (r: Result<MultiLayerPerceptron>)
    requires InitialWeights(layerSizes, initialWeights)
    ensures r.Success? <==> Configure(layerSizes, activation).Success?
    ensures r.Failure? ==> r.message == Configure(layerSizes, activation).message
    ensures r.Success? ==> fresh(r.value) && r.value.Valid()
    ensures r.Success? ==>
      && r.value.layerSizes == layerSizes && r.value.activation == Configure(layerSizes, activation).value
      && r.value.learningRate == learningRate && r.value.fns == fns
      && r.value.weights == initialWeights && r.value.biases == ZeroBiases(layerSizes)
      && r.value.history == EmptyHistory
  {
    var c := Configure(layerSizes, activation);
    if c.Failure? {
      return Failure(c.message);
    }
    var mlp := new MultiLayerPerceptron(layerSizes, activation, learningRate, fns, initialWeights);
    return Success(mlp);
  }
}
