/**
 * The batch-then-apply single-layer perceptron
 * (03-implementation/perceptron-example/src/single_layer_perceptron.py).
 *
 * A training step computes every sample's error from the weights at entry
 * and only then applies the errors one sample after another, so its net
 * effect is a single sum. Predictions use the strict step `x > 0`. The
 * training history is a record of four lists that `fit` extends, without
 * clearing, by one entry each per epoch.
 */
module SingleLayer {
  import opened Vectors
  import opened Matrices
  import DataUtils
  import Training

  /** `step_activation`: 1 exactly when `x > 0`, so 0 at exactly 0. */
  function StepActivation(x: real): (r: real)
    ensures r == 0.0 || r == 1.0
    ensures r == 1.0 <==> x > 0.0
  {
    if x > 0.0 then 1.0 else 0.0
  }

  /** `step_activation(X . w + b)`: one 0/1 label per row of `X`. */
  function Predictions(X: Matrix, w: Vector, b: real): (p: Vector)
    requires IsShape(X, |X|, |w|)
    ensures |p| == |X| && IsBinary(p)
    ensures forall i :: 0 <= i < |X| ==> (p[i] == 1.0 <==> Dot(X[i], w) + b > 0.0)
  {
    seq(|X|, i requires 0 <= i < |X| => StepActivation(Dot(X[i], w) + b))
  }

  /** `y - predictions`. */
  function Errors(y: Vector, p: Vector): (e: Vector)
    requires |p| == |y|
    ensures |e| == |y|
    ensures forall i :: 0 <= i < |y| ==> e[i] == y[i] - p[i]
  {
    seq(|y|, i requires 0 <= i < |y| => y[i] - p[i])
  }

  /** `errors ** 2`. */
  function Squares(e: Vector): (s: Vector)
    ensures |s| == |e|
    ensures forall i :: 0 <= i < |e| ==> s[i] == e[i] * e[i]
  {
    seq(|e|, i requires 0 <= i < |e| => e[i] * e[i])
  }

  datatype Params = Params(weights: Vector, bias: real)

  /** One application of the rule: `w += lr * e * x` and `b += lr * e`. */
  function Update(p: Params, x: Vector, lr: real, e: real): (q: Params)
    requires |x| == |p.weights|
    ensures |q.weights| == |p.weights|
  {
    Params(AddScaled(p.weights, lr * e, x), p.bias + lr * e)
  }

  /** The first `k` iterations of the update loop, with the errors fixed in advance. */
  function ApplyErrors(X: Matrix, e: Vector, w: Vector, b: real, lr: real, k: nat): (p: Params)
    requires IsShape(X, |e|, |w|) && k <= |e|
    ensures |p.weights| == |w|
  {
    if k == 0 then Params(w, b)
    else Update(ApplyErrors(X, e, w, b, lr, k - 1), X[k - 1], lr, e[k - 1])
  }

  /** `sum_{i < k} e[i] * X[i][j]`, coordinate `j` of the error-weighted input sum. */
  function WeightedErrorSum(X: Matrix, e: Vector, j: nat, k: nat): real
    requires k <= |e| <= |X| && forall i :: 0 <= i < k ==> j < |X[i]|
  {
    if k == 0 then 0.0 else WeightedErrorSum(X, e, j, k - 1) + e[k - 1] * X[k - 1][j]
  }

  /** One more update term added to a closed form `base + lr * s`. */
  lemma AddTerm(v: real, base: real, lr: real, s: real, e: real, x: real)
    requires v == base + lr * s
    ensures v + (lr * e) * x == base + lr * (s + e * x)
  {
    assert (lr * e) * x == lr * (e * x);
    assert lr * s + lr * (e * x) == lr * (s + e * x);
  }

  /** Coordinate `j` after `k` updates: `w[j] + lr * sum_{i < k} e_i X_i[j]`. */
  lemma {:induction false} ApplyErrorsWeight(X: Matrix, e: Vector, w: Vector, b: real, lr: real, k: nat, j: nat)
    requires IsShape(X, |e|, |w|) && k <= |e| && j < |w|
    ensures ApplyErrors(X, e, w, b, lr, k).weights[j] == w[j] + lr * WeightedErrorSum(X, e, j, k)
  {
    if k > 0 {
      ApplyErrorsWeight(X, e, w, b, lr, k - 1, j);
      var p := ApplyErrors(X, e, w, b, lr, k - 1);
      assert ApplyErrors(X, e, w, b, lr, k).weights[j] == p.weights[j] + (lr * e[k - 1]) * X[k - 1][j];
      AddTerm(p.weights[j], w[j], lr, WeightedErrorSum(X, e, j, k - 1), e[k - 1], X[k - 1][j]);
    }
  }

  /** The bias after `k` updates: `b + lr * sum_{i < k} e_i`. */
  lemma {:induction false} ApplyErrorsBias(X: Matrix, e: Vector, w: Vector, b: real, lr: real, k: nat)
    requires IsShape(X, |e|, |w|) && k <= |e|
    ensures ApplyErrors(X, e, w, b, lr, k).bias == b + lr * Sum(e[..k])
  {
    if k > 0 {
      ApplyErrorsBias(X, e, w, b, lr, k - 1);
      var p := ApplyErrors(X, e, w, b, lr, k - 1);
      assert ApplyErrors(X, e, w, b, lr, k).bias == p.bias + (lr * e[k - 1]) * 1.0;
      assert e[..k][..k - 1] == e[..k - 1];
      assert Sum(e[..k]) == Sum(e[..k - 1]) + e[k - 1] * 1.0;
      AddTerm(p.bias, b, lr, Sum(e[..k - 1]), e[k - 1], 1.0);
    }
  }

  /**
   * The net effect of the update loop: `w + lr * sum_i e_i X_i` and
   * `b + lr * sum_i e_i`, whatever the order of the samples.
   */
  lemma ApplyErrorsClosedForm(X: Matrix, e: Vector, w: Vector, b: real, lr: real)
    requires IsShape(X, |e|, |w|)
    ensures forall j :: 0 <= j < |w| ==>
      ApplyErrors(X, e, w, b, lr, |e|).weights[j] == w[j] + lr * WeightedErrorSum(X, e, j, |e|)
    ensures ApplyErrors(X, e, w, b, lr, |e|).bias == b + lr * Sum(e)
  {
    forall j | 0 <= j < |w|
      ensures ApplyErrors(X, e, w, b, lr, |e|).weights[j] == w[j] + lr * WeightedErrorSum(X, e, j, |e|)
    {
      ApplyErrorsWeight(X, e, w, b, lr, |e|, j);
    }
    ApplyErrorsBias(X, e, w, b, lr, |e|);
    assert e[..|e|] == e;
  }

  /** When every error is 0 the update loop leaves `w` and `b` as they were. */
  lemma {:induction false} ApplyZeroErrors(X: Matrix, e: Vector, w: Vector, b: real, lr: real, k: nat)
    requires IsShape(X, |e|, |w|) && k <= |e|
    requires forall i :: 0 <= i < |e| ==> e[i] == 0.0
    ensures ApplyErrors(X, e, w, b, lr, k) == Params(w, b)
  {
    if k > 0 {
      ApplyZeroErrors(X, e, w, b, lr, k - 1);
      AddScaledZero(w, X[k - 1]);
    }
  }

  /** The squared difference of two 0/1 values is 0 when they agree and 1 otherwise. */
  lemma SquaredBinaryDifference(a: real, c: real, d: real)
    requires (a == 0.0 || a == 1.0) && (c == 0.0 || c == 1.0) && d == a - c
    ensures d * d == if c == a then 0.0 else 1.0
  {
  }

  /** 1 where `p` and `y` disagree, 0 where they agree. */
  function Mismatches(p: Vector, y: Vector): Vector
    requires |p| == |y|
  {
    seq(|p|, i requires 0 <= i < |p| => if p[i] == y[i] then 0.0 else 1.0)
  }

  lemma {:induction false} SumMismatches(p: Vector, y: Vector)
    requires |p| == |y|
    ensures Sum(Mismatches(p, y)) == (|y| - MatchCount(p, y)) as real
  {
    if |y| > 0 {
      var n := |y|;
      SumMismatches(p[..n - 1], y[..n - 1]);
      assert Mismatches(p, y)[..n - 1] == Mismatches(p[..n - 1], y[..n - 1]);
    }
  }

  lemma SquaredErrorAt(y: Vector, p: Vector, i: nat)
    requires |p| == |y| && i < |y|
    requires (y[i] == 0.0 || y[i] == 1.0) && (p[i] == 0.0 || p[i] == 1.0)
    ensures Squares(Errors(y, p))[i] == Mismatches(p, y)[i]
  {
    var d := Errors(y, p)[i];
    assert Squares(Errors(y, p))[i] == d * d;
    SquaredBinaryDifference(y[i], p[i], d);
  }

  /** With 0/1 labels and predictions, the sum of squared errors counts the mismatches. */
  lemma SquaredErrorsCountMismatches(y: Vector, p: Vector)
    requires |p| == |y| && IsBinary(y) && IsBinary(p)
    ensures Sum(Squares(Errors(y, p))) == (|y| - MatchCount(p, y)) as real
  {
    forall i | 0 <= i < |y|
      ensures Squares(Errors(y, p))[i] == Mismatches(p, y)[i]
    {
      SquaredErrorAt(y, p, i);
    }
    assert Squares(Errors(y, p)) == Mismatches(p, y);
    SumMismatches(p, y);
  }

  /**
   * `np.mean(errors ** 2)` over 0/1 labels and predictions is the fraction
   * misclassified: it equals `1 - accuracy`, lies in [0, 1], and is 0 exactly
   * when every prediction is right.
   */
  lemma LossIsErrorRate(y: Vector, p: Vector)
    requires |p| == |y| > 0 && IsBinary(y) && IsBinary(p)
    ensures Mean(Squares(Errors(y, p))) == 1.0 - Accuracy(p, y)
    ensures 0.0 <= Mean(Squares(Errors(y, p))) <= 1.0
    ensures Mean(Squares(Errors(y, p))) == 0.0 <==> forall i :: 0 <= i < |y| ==> p[i] == y[i]
  {
    SquaredErrorsCountMismatches(y, p);
    var n := |y| as real;
    var m := MatchCount(p, y) as real;
    assert Mean(Squares(Errors(y, p))) == (n - m) / n;
    assert Accuracy(p, y) == m / n;
    SubtractFraction(n, m);
  }

  lemma SubtractFraction(n: real, m: real)
    requires n > 0.0
    ensures (n - m) / n == 1.0 - m / n
  {
    assert n / n == 1.0;
    assert (n - m) / n == n / n - m / n;
  }

  /** The outcome of one `train_step` from `(w, b)`: the new parameters and the loss. */
  datatype StepResult = StepResult(params: Params, loss: real)

  function BatchStep(X: Matrix, y: Vector, w: Vector, b: real, lr: real): (r: StepResult)
    requires IsShape(X, |y|, |w|) && |y| > 0
    ensures |r.params.weights| == |w|
  {
    var e := Errors(y, Predictions(X, w, b));
    StepResult(ApplyErrors(X, e, w, b, lr, |y|), Mean(Squares(e)))
  }

  /**
   * One training step over 0/1 labels: the loss is the misclassification
   * rate of the parameters at entry, and a zero loss leaves them unchanged.
   */
  lemma BatchStepLoss(X: Matrix, y: Vector, w: Vector, b: real, lr: real)
    requires IsShape(X, |y|, |w|) && |y| > 0 && IsBinary(y)
    ensures var r := BatchStep(X, y, w, b, lr);
      && r.loss == 1.0 - Accuracy(Predictions(X, w, b), y)
      && 0.0 <= r.loss <= 1.0
      && (r.loss == 0.0 ==> r.params == Params(w, b))
  {
    var p := Predictions(X, w, b);
    var e := Errors(y, p);
    LossIsErrorRate(y, p);
    if Mean(Squares(e)) == 0.0 {
      ApplyZeroErrors(X, e, w, b, lr, |y|);
    }
  }

  /** One epoch of `fit` from `p`: a training step, then the accuracy of the updated parameters. */
  function EpochOf(X: Matrix, y: Vector, lr: real, p: Params): (e: Training.Epoch<Params>)
    requires IsShape(X, |y|, |p.weights|) && |y| > 0
    ensures |e.params.weights| == |p.weights|
  {
    var r := BatchStep(X, y, p.weights, p.bias, lr);
    Training.Epoch(r.params, r.loss, Accuracy(Predictions(X, r.params.weights, r.params.bias), y))
  }

  /** `EpochOf` as the step of the shared epoch loop. */
  function EpochStep(X: Matrix, y: Vector, lr: real): Params --> Training.Epoch<Params>
  {
    (p: Params) requires IsShape(X, |y|, |p.weights|) && |y| > 0 => EpochOf(X, y, lr, p)
  }

  /** The shape invariant of the parameters: one weight per input column. */
  function Shaped(X: Matrix, y: Vector): Params -> bool
  {
    (p: Params) => IsShape(X, |y|, |p.weights|) && |y| > 0
  }

  /** `fit` stops after an epoch with accuracy 1. */
  function Converged(e: Training.Epoch<Params>): bool
  {
    e.accuracy == 1.0
  }

  lemma EpochStepClosed(X: Matrix, y: Vector, lr: real)
    ensures Training.Closed(EpochStep(X, y, lr), Shaped(X, y))
  {
  }

  /** At most `n` epochs of `fit` from `(w, b)`. */
  function BatchFit(X: Matrix, y: Vector, w: Vector, b: real, lr: real, n: nat): (r: Training.Run<Params>)
    requires IsShape(X, |y|, |w|) && |y| > 0
    ensures |r.final.weights| == |w|
  {
    EpochStepClosed(X, y, lr);
    Training.Train(EpochStep(X, y, lr), Shaped(X, y), Converged, Params(w, b), n)
  }

  /**
   * The epochs a `fit` loop recorded are `BatchFit`'s when they are chained
   * from the starting parameters, only the last one converged, and fewer
   * than `n` ran only when the last one did.
   */
  lemma FitLoopIsBatchFit(X: Matrix, y: Vector, lr: real, start: Params, n: nat, done: seq<Training.Epoch<Params>>)
    requires IsShape(X, |y|, |start.weights|) && |y| > 0
    requires Training.Chained(EpochStep(X, y, lr), Shaped(X, y), start, done)
    requires |done| <= n && (|done| < n ==> |done| > 0 && Converged(done[|done| - 1]))
    requires forall i :: 0 <= i < |done| - 1 ==> !Converged(done[i])
    ensures BatchFit(X, y, start.weights, start.bias, lr, n) == Training.Run(Training.Before(start, done, |done|), done)
  {
    EpochStepClosed(X, y, lr);
    Training.LoopIsTrain(EpochStep(X, y, lr), Shaped(X, y), Converged, start, n, done);
  }

  /** The `history` dictionary: four lists, one entry per epoch. */
  datatype History = History(loss: seq<real>, accuracy: seq<real>, weights: seq<Vector>, bias: seq<real>)
  {
    predicate Aligned()
    {
      |loss| == |accuracy| == |weights| == |bias|
    }

    function Append(other: History): (h: History)
      ensures Aligned() && other.Aligned() ==> h.Aligned()
    {
      History(loss + other.loss, accuracy + other.accuracy, weights + other.weights, bias + other.bias)
    }
  }

  const EmptyHistory := History([], [], [], [])

  /** The history lists a run's epochs fill: loss, accuracy, and copies of the weights and bias. */
  function HistoryOf(es: seq<Training.Epoch<Params>>): (h: History)
    ensures h.Aligned() && |h.loss| == |es|
    ensures forall i :: 0 <= i < |es| ==>
      && h.loss[i] == es[i].loss && h.accuracy[i] == es[i].accuracy
      && h.weights[i] == es[i].params.weights && h.bias[i] == es[i].params.bias
  {
    History(seq(|es|, i requires 0 <= i < |es| => es[i].loss),
            seq(|es|, i requires 0 <= i < |es| => es[i].accuracy),
            seq(|es|, i requires 0 <= i < |es| => es[i].params.weights),
            seq(|es|, i requires 0 <= i < |es| => es[i].params.bias))
  }

  /** Recording one more epoch appends one entry to each list. */
  lemma HistoryOfSnoc(h: History, es: seq<Training.Epoch<Params>>, e: Training.Epoch<Params>)
    ensures h.Append(HistoryOf(es + [e])) ==
      h.Append(HistoryOf(es)).Append(History([e.loss], [e.accuracy], [e.params.weights], [e.params.bias]))
  {
    var l, r := HistoryOf(es + [e]), HistoryOf(es).Append(History([e.loss], [e.accuracy], [e.params.weights], [e.params.bias]));
    assert l.loss == r.loss && l.accuracy == r.accuracy && l.weights == r.weights && l.bias == r.bias;
    assert h.loss + l.loss == (h.loss + HistoryOf(es).loss) + [e.loss];
    assert h.accuracy + l.accuracy == (h.accuracy + HistoryOf(es).accuracy) + [e.accuracy];
    assert h.weights + l.weights == (h.weights + HistoryOf(es).weights) + [e.params.weights];
    assert h.bias + l.bias == (h.bias + HistoryOf(es).bias) + [e.params.bias];
  }

  /**
   * One epoch of `fit` over 0/1 labels: its loss is the misclassification
   * rate before the update, both loss and accuracy lie in [0, 1], and an
   * accuracy of 1 means the new parameters classify every training sample.
   */
  lemma EpochStepFacts(X: Matrix, y: Vector, lr: real, q: Params)
    requires IsShape(X, |y|, |q.weights|) && |y| > 0 && IsBinary(y)
    ensures var e := EpochOf(X, y, lr, q);
      && e.loss == 1.0 - Accuracy(Predictions(X, q.weights, q.bias), y)
      && 0.0 <= e.loss <= 1.0 && 0.0 <= e.accuracy <= 1.0
      && |e.params.weights| == |q.weights|
      && (e.accuracy == 1.0 <==> Predictions(X, e.params.weights, e.params.bias) == y)
  {
    BatchStepLoss(X, y, q.weights, q.bias, lr);
    var p := BatchStep(X, y, q.weights, q.bias, lr).params;
    var r := Predictions(X, p.weights, p.bias);
    if Accuracy(r, y) == 1.0 {
      assert r == y;
    }
  }

  /**
   * Under the strict step no `(w1, w2, b)` reproduces XOR: once the first
   * three rows are right, the fourth row's sum `w1 + w2 + b` is positive.
   */
  lemma XorNotSeparableStrict(w: Vector, b: real)
    requires |w| == 2
    ensures exists i :: 0 <= i < 4 && Predictions(DataUtils.Inputs, w, b)[i] != DataUtils.GateLabels("XOR").value[i]
  {
    var X := DataUtils.Inputs;
    var p := Predictions(X, w, b);
    var y := DataUtils.GateLabels("XOR").value;
    assert Dot(X[0], w) == 0.0 * w[0] + (0.0 * w[1] + Dot(X[0][2..], w[2..]));
    assert Dot(X[1], w) == 0.0 * w[0] + (1.0 * w[1] + Dot(X[1][2..], w[2..]));
    assert Dot(X[2], w) == 1.0 * w[0] + (0.0 * w[1] + Dot(X[2][2..], w[2..]));
    assert Dot(X[3], w) == 1.0 * w[0] + (1.0 * w[1] + Dot(X[3][2..], w[2..]));
    if p[0] == 0.0 && p[1] == 1.0 && p[2] == 1.0 {
      assert p[3] != y[3];
    } else if p[0] != 0.0 {
      assert p[0] != y[0];
    } else if p[1] != 1.0 {
      assert p[1] != y[1];
    } else {
      assert p[2] != y[2];
    }
  }

  /**
   * No weights and bias classify all four XOR rows, so the accuracy on XOR
   * is at most 3/4 after any training.
   */
  lemma XorAccuracyBound(w: Vector, b: real)
    requires |w| == 2
    ensures Accuracy(Predictions(DataUtils.Inputs, w, b), DataUtils.GateLabels("XOR").value) <= 0.75
  {
    var p := Predictions(DataUtils.Inputs, w, b);
    var y := DataUtils.GateLabels("XOR").value;
    XorNotSeparableStrict(w, b);
    MatchCountAll(p, y);
    assert MatchCount(p, y) <= 3;
    assert MatchCount(p, y) as real / 4.0 <= 0.75;
  }

  /** Training on XOR never stops early: every run records exactly `n` epochs. */
  lemma XorRunsAllEpochs(w: Vector, b: real, lr: real, n: nat)
    requires |w| == 2
    ensures |BatchFit(DataUtils.Inputs, DataUtils.GateLabels("XOR").value, w, b, lr, n).epochs| == n
  {
    var X, y := DataUtils.Inputs, DataUtils.GateLabels("XOR").value;
    EpochStepClosed(X, y, lr);
    var step, inv := EpochStep(X, y, lr), Shaped(X, y);
    forall q | inv(q)
      ensures !Converged(step(q))
    {
      var p := BatchStep(X, y, q.weights, q.bias, lr).params;
      XorAccuracyBound(p.weights, p.bias);
    }
    Training.TrainNeverStops(step, inv, Converged, Params(w, b), n);
  }

  /** Parameters of the right shape that classify every training sample. */
  predicate Exact(X: Matrix, y: Vector, p: Params)
  {
    IsShape(X, |y|, |p.weights|) && Predictions(X, p.weights, p.bias) == y
  }

  /** Perfect accuracy means the predictions are the labels. */
  lemma PerfectAccuracy(p: Vector, y: Vector)
    requires |p| == |y| > 0 && Accuracy(p, y) == 1.0
    ensures p == y
  {
  }

  lemma EpochExactIfConverged(X: Matrix, y: Vector, lr: real, q: Params)
    requires IsShape(X, |y|, |q.weights|) && |y| > 0
    ensures Converged(EpochOf(X, y, lr, q)) ==> Exact(X, y, EpochOf(X, y, lr, q).params)
  {
    var e := EpochOf(X, y, lr, q);
    if Converged(e) {
      PerfectAccuracy(Predictions(X, e.params.weights, e.params.bias), y);
    }
  }

  /**
   * A run of `fit` that ended on an epoch with accuracy 1 -- which is every
   * run that stopped before `n` epochs -- ends with parameters that classify
   * every training sample.
   */
  lemma ConvergedFitIsExact(X: Matrix, y: Vector, w: Vector, b: real, lr: real, n: nat)
    requires IsShape(X, |y|, |w|) && |y| > 0
    ensures Training.EndedOnStop(Converged, BatchFit(X, y, w, b, lr, n), n) ==>
      Predictions(X, BatchFit(X, y, w, b, lr, n).final.weights, BatchFit(X, y, w, b, lr, n).final.bias) == y
  {
    EpochStepClosed(X, y, lr);
    var step, inv := EpochStep(X, y, lr), Shaped(X, y);
    forall q | inv(q) && Converged(step(q))
      ensures Exact(X, y, step(q).params)
    {
      EpochExactIfConverged(X, y, lr, q);
    }
    Training.TrainStopsAt(step, inv, Converged, p => Exact(X, y, p), Params(w, b), n);
  }

  class SingleLayerPerceptron {
    const inputSize: nat
    const learningRate: real
    var weights: Vector
    var bias: real
    var history: History

    ghost predicate Valid()
      reads this
    {
      |weights| == inputSize && history.Aligned()
    }

    /** `SingleLayerPerceptron(input_size, learning_rate)`; the random initial parameters are parameters. */
    constructor(inputSize: nat, learningRate: real, initialWeights: Vector, initialBias: real)
      requires |initialWeights| == inputSize
      ensures Valid()
      ensures this.inputSize == inputSize && this.learningRate == learningRate
      ensures weights == initialWeights && bias == initialBias && history == EmptyHistory
    {
      this.inputSize := inputSize;
      this.learningRate := learningRate;
      weights := initialWeights;
      bias := initialBias;
      history := EmptyHistory;
    }

    /** `predict(X)`: one 0/1 label per row, 1 exactly when `X[i] . w + b > 0`. */
    function Predict(X: Matrix): (p: Vector)
      reads this
      requires Valid() && IsShape(X, |X|, inputSize)
      ensures |p| == |X| && IsBinary(p)
      ensures forall i :: 0 <= i < |X| ==> (p[i] == 1.0 <==> Dot(X[i], weights) + bias > 0.0)
    {
      Predictions(X, weights, bias)
    }

    /**
     * `train_step(X, y)`: errors from the parameters at entry, then the
     * update loop over the samples; returns the mean squared error. With 0/1
     * labels the loss is the entry misclassification rate, and a zero loss
     * leaves the parameters unchanged.
     */
    method TrainStep(X: Matrix, y: Vector) returns (loss: real)
      requires Valid() && IsShape(X, |y|, inputSize) && |y| > 0
      modifies this`weights, this`bias
      ensures Valid()
      ensures BatchStep(X, y, old(weights), old(bias), learningRate) == StepResult(Params(weights, bias), loss)
      ensures IsBinary(y) ==> 0.0 <= loss <= 1.0 && (loss == 0.0 ==> weights == old(weights) && bias == old(bias))
    {
      var predictions := Predict(X);
      var errors := Errors(y, predictions);
      ghost var w0, b0 := weights, bias;
      var i := 0;
      while i < |y|
        invariant 0 <= i <= |y| && |weights| == inputSize
        invariant ApplyErrors(X, errors, w0, b0, learningRate, i) == Params(weights, bias)
      {
        weights := AddScaled(weights, learningRate * errors[i], X[i]);
        bias := bias + learningRate * errors[i];
        i := i + 1;
      }
      loss := Mean(Squares(errors));
      if IsBinary(y) {
        BatchStepLoss(X, y, w0, b0, learningRate);
      }
    }

    /**
     * `fit(X, y, epochs)`: up to `epochs` epochs, each recording loss,
     * accuracy and copies of the parameters, stopping after the first epoch
     * with accuracy 1. Earlier history is kept; the new entries are those of
     * `BatchFit`, and over 0/1 labels a run that ended on accuracy 1 leaves a
     * perceptron that predicts every training label.
     */
    method Fit(X: Matrix, y: Vector, epochs: int)
      requires Valid() && IsShape(X, |y|, inputSize) && |y| > 0
      modifies this`weights, this`bias, this`history
      ensures Valid()
      ensures var r := BatchFit(X, y, old(weights), old(bias), learningRate, if epochs > 0 then epochs else 0);
        && Params(weights, bias) == r.final
        && history == old(history).Append(HistoryOf(r.epochs))
    {
      ghost var n: nat := if epochs > 0 then epochs else 0;
      ghost var start := Params(weights, bias);
      ghost var done: seq<Training.Epoch<Params>> := [];
      var epoch := 0;
      while epoch < epochs
        invariant Valid() && 0 <= epoch <= n && |done| == epoch
        invariant Training.Chained(EpochStep(X, y, learningRate), Shaped(X, y), start, done)
        invariant Training.Before(start, done, |done|) == Params(weights, bias)
        invariant forall i :: 0 <= i < |done| ==> !Converged(done[i])
        invariant history == old(history).Append(HistoryOf(done))
      {
        ghost var before := done;
        var loss, accuracy;
        loss, accuracy, done := FitEpoch(X, y, start, done, old(history));
        assert done[|done| - 1].accuracy == accuracy;
        if accuracy == 1.0 {
          assert Converged(done[|done| - 1]);
          break;
        }
        forall i | 0 <= i < |done|
          ensures !Converged(done[i])
        {
          if i < |before| {
            assert done[i] == before[i];
          }
        }
        epoch := epoch + 1;
      }
      FitLoopIsBatchFit(X, y, learningRate, start, n, done);
    }

    /**
     * One pass of the `fit` loop body: a training step, the accuracy of the
     * updated parameters, and one entry appended to each history list. The
     * ghost `done` is the run so far, from `start`; the pass extends it by
     * the epoch `EpochOf` reports from the parameters at entry.
     */
    method FitEpoch(X: Matrix, y: Vector, ghost start: Params, ghost done: seq<Training.Epoch<Params>>, ghost h0: History)
      returns (loss: real, accuracy: real, ghost done': seq<Training.Epoch<Params>>)
      requires Valid() && IsShape(X, |y|, inputSize) && |y| > 0
      requires Training.Chained(EpochStep(X, y, learningRate), Shaped(X, y), start, done)
      requires Training.Before(start, done, |done|) == Params(weights, bias)
      requires history == h0.Append(HistoryOf(done))
      modifies this`weights, this`bias, this`history
      ensures Valid()
      ensures done' == done + [Training.Epoch(Params(weights, bias), loss, accuracy)]
      ensures Training.Chained(EpochStep(X, y, learningRate), Shaped(X, y), start, done')
      ensures Training.Before(start, done', |done'|) == Params(weights, bias)
      ensures history == h0.Append(HistoryOf(done'))
    {
      ghost var p0 := Params(weights, bias);
      EpochStepClosed(X, y, learningRate);
      loss := TrainStep(X, y);
      var predictions := Predict(X);
      accuracy := Accuracy(predictions, y);
      history := history.Append(History([loss], [accuracy], [weights], [bias]));
      ghost var e := Training.Epoch(Params(weights, bias), loss, accuracy);
      assert e == EpochStep(X, y, learningRate)(p0);
      Training.ChainedSnoc(EpochStep(X, y, learningRate), Shaped(X, y), start, done, e);
      HistoryOfSnoc(h0, done, e);
      done' := done + [e];
    }

    /**
     * `get_decision_boundary()`: the weights and bias. The perceptron labels
     * a point 1 exactly on the positive side of the hyperplane they define.
     */
    function GetDecisionBoundary(): (r: (Vector, real))
      reads this
      requires Valid()
      ensures |r.0| == inputSize
      ensures forall X: Matrix :: IsShape(X, |X|, inputSize) ==>
        forall i :: 0 <= i < |X| ==> (Predict(X)[i] == 1.0 <==> Dot(X[i], r.0) + r.1 > 0.0)
    {
      (weights, bias)
    }

    /** `reset()`: fresh parameters (given here) and an empty history. */
    method Reset(newWeights: Vector, newBias: real)
      requires |newWeights| == inputSize
      modifies this
      ensures Valid()
      ensures weights == newWeights && bias == newBias && history == EmptyHistory
    {
      weights := newWeights;
      bias := newBias;
      history := EmptyHistory;
    }
  }
}
