/**
 * Rosenblatt's online perceptron (03-implementation/perceptron-example/src/perceptron.py).
 *
 * One training sweep visits the samples in order and predicts each one with
 * the weights as already changed by the earlier samples of the same sweep.
 * `OnlineSweep` and `OnlineFit` are the reference definitions of a sweep and
 * of a whole training run; the `Perceptron` methods are proved to compute them,
 * and the lemmas say what those runs guarantee.
 */
module RosenblattPerceptron {
  import opened Wrappers
  import opened Vectors
  import opened Matrices
  import Activation

  /** `step(x . w + b)` for a single sample: 1 exactly when the weighted sum is at least 0. */
  function PredictOne(x: Vector, w: Vector, b: real): (p: real)
    requires |x| == |w|
    ensures p == 0.0 || p == 1.0
    ensures p == 1.0 <==> Dot(x, w) + b >= 0.0
  {
    Activation.Step(Dot(x, w) + b)
  }

  /** Parameters after part of a sweep, and the absolute error summed so far. */
  datatype SweepState = SweepState(weights: Vector, bias: real, totalError: real)

  /**
   * Rosenblatt's rule for one sample `x` whose error is `e`: a zero error
   * changes nothing, any other adds `lr * e * x` to the weights and `lr * e`
   * to the bias. The absolute error is added to the running total either way.
   */
  function ApplyError(s: SweepState, x: Vector, lr: real, e: real): (t: SweepState)
    requires |x| == |s.weights|
    ensures |t.weights| == |s.weights|
    ensures t.totalError == s.totalError + Abs(e)
    ensures e == 0.0 ==> t.weights == s.weights && t.bias == s.bias
  {
    if e != 0.0 then SweepState(AddScaled(s.weights, lr * e, x), s.bias + lr * e, s.totalError + Abs(e))
    else SweepState(s.weights, s.bias, s.totalError + Abs(e))
  }

  /** One visit of the sweep: predict `x` with the current parameters and apply the error. */
  function Visit(s: SweepState, x: Vector, target: real, lr: real): (t: SweepState)
    requires |x| == |s.weights|
    ensures |t.weights| == |s.weights|
  {
    ApplyError(s, x, lr, target - PredictOne(x, s.weights, s.bias))
  }

  /** The first `k` visits of one sweep over `(X, y)` in dataset order, from `(w, b)`. */
  function OnlineSweep(X: Matrix, y: Vector, w: Vector, b: real, lr: real, k: nat): (s: SweepState)
    requires IsShape(X, |y|, |w|) && k <= |y|
    ensures |s.weights| == |w|
    ensures s.totalError >= 0.0
  {
    if k == 0 then SweepState(w, b, 0.0)
    else Visit(OnlineSweep(X, y, w, b, lr, k - 1), X[k - 1], y[k - 1], lr)
  }

  /** Every one of the first `k` samples is classified correctly by `(w, b)`. */
  predicate ClassifiesAll(X: Matrix, y: Vector, w: Vector, b: real, k: nat)
    requires IsShape(X, |y|, |w|) && k <= |y|
  {
    forall i :: 0 <= i < k ==> PredictOne(X[i], w, b) == y[i]
  }

  /**
   * With 0/1 labels every visit adds 0 or 1 to the error, so the summed error
   * of `k` visits lies in [0, k].
   */
  lemma {:induction false} SweepErrorBounds(X: Matrix, y: Vector, w: Vector, b: real, lr: real, k: nat)
    requires IsShape(X, |y|, |w|) && k <= |y| && IsBinary(y)
    ensures 0.0 <= OnlineSweep(X, y, w, b, lr, k).totalError <= k as real
  {
    if k > 0 {
      SweepErrorBounds(X, y, w, b, lr, k - 1);
    }
  }

  /** A visit adds no error exactly when it predicts its sample correctly, and then it changes nothing. */
  lemma VisitZeroError(s: SweepState, x: Vector, target: real, lr: real)
    requires |x| == |s.weights| && s.totalError >= 0.0
    ensures var t := Visit(s, x, target, lr);
      && (t.totalError == 0.0 <==> s.totalError == 0.0 && PredictOne(x, s.weights, s.bias) == target)
      && (t.totalError == 0.0 ==> t.weights == s.weights && t.bias == s.bias)
  {
  }

  /**
   * A sweep has zero summed error exactly when `(w, b)` already classifies
   * every visited sample, and then it leaves `w` and `b` unchanged.
   */
  lemma {:induction false} SweepZeroError(X: Matrix, y: Vector, w: Vector, b: real, lr: real, k: nat)
    requires IsShape(X, |y|, |w|) && k <= |y|
    ensures OnlineSweep(X, y, w, b, lr, k).totalError == 0.0 <==> ClassifiesAll(X, y, w, b, k)
    ensures OnlineSweep(X, y, w, b, lr, k).totalError == 0.0 ==>
      OnlineSweep(X, y, w, b, lr, k).weights == w && OnlineSweep(X, y, w, b, lr, k).bias == b
  {
    if k > 0 {
      SweepZeroError(X, y, w, b, lr, k - 1);
      var s := OnlineSweep(X, y, w, b, lr, k - 1);
      VisitZeroError(s, X[k - 1], y[k - 1], lr);
      if OnlineSweep(X, y, w, b, lr, k).totalError == 0.0 {
        assert forall i :: 0 <= i < k - 1 ==> PredictOne(X[i], w, b) == y[i];
      }
    }
  }

  /**
   * With a 0/1 label the error of a visit is 0 when the current parameters
   * predict the sample correctly and -1 or +1 when they do not, so the visit
   * adds 1 to the summed error exactly on a mistake.
   */
  lemma VisitError(s: SweepState, x: Vector, target: real, lr: real)
    requires |x| == |s.weights| && (target == 0.0 || target == 1.0)
    ensures var e := target - PredictOne(x, s.weights, s.bias);
      && (e == 0.0 || e == 1.0 || e == -1.0)
      && (e != 0.0 <==> PredictOne(x, s.weights, s.bias) != target)
      && Visit(s, x, target, lr).totalError == s.totalError + (if e != 0.0 then 1.0 else 0.0)
  {
  }

  /**
   * How many of the first `k` samples are misclassified by the parameters in
   * force when the sweep visits them, which earlier visits may have changed.
   */
  function VisitMistakes(X: Matrix, y: Vector, w: Vector, b: real, lr: real, k: nat): (n: nat)
    requires IsShape(X, |y|, |w|) && k <= |y|
    ensures n <= k
  {
    if k == 0 then 0
    else
      var s := OnlineSweep(X, y, w, b, lr, k - 1);
      VisitMistakes(X, y, w, b, lr, k - 1) + (if PredictOne(X[k - 1], s.weights, s.bias) != y[k - 1] then 1 else 0)
  }

  /** Over 0/1 labels the summed error of a sweep is the number of visit-time mistakes. */
  lemma {:induction false} SweepCountsMistakes(X: Matrix, y: Vector, w: Vector, b: real, lr: real, k: nat)
    requires IsShape(X, |y|, |w|) && k <= |y| && IsBinary(y)
    ensures OnlineSweep(X, y, w, b, lr, k).totalError == VisitMistakes(X, y, w, b, lr, k) as real
  {
    if k > 0 {
      SweepCountsMistakes(X, y, w, b, lr, k - 1);
      VisitError(OnlineSweep(X, y, w, b, lr, k - 1), X[k - 1], y[k - 1], lr);
    }
  }

  /**
   * The mean error of a full sweep over 0/1 labels lies in [0, 1]; it is 0
   * exactly when `(w, b)` classifies every sample, and then the sweep changed
   * neither `w` nor `b`. It is the fraction of samples misclassified at the
   * time they were visited.
   */
  lemma SweepMeanError(X: Matrix, y: Vector, w: Vector, b: real, lr: real)
    requires IsShape(X, |y|, |w|) && |y| > 0 && IsBinary(y)
    ensures var s := OnlineSweep(X, y, w, b, lr, |y|);
      && s.totalError / |y| as real == VisitMistakes(X, y, w, b, lr, |y|) as real / |y| as real
      && 0.0 <= s.totalError / |y| as real <= 1.0
      && (s.totalError / |y| as real == 0.0 <==> ClassifiesAll(X, y, w, b, |y|))
      && (s.totalError / |y| as real == 0.0 ==> s.weights == w && s.bias == b)
  {
    SweepErrorBounds(X, y, w, b, lr, |y|);
    SweepCountsMistakes(X, y, w, b, lr, |y|);
    SweepZeroError(X, y, w, b, lr, |y|);
    MeanErrorBounds(OnlineSweep(X, y, w, b, lr, |y|).totalError, |y| as real);
  }

  /** A whole training run: the final parameters and the per-sweep mean errors. */
  datatype FitResult = FitResult(weights: Vector, bias: real, history: seq<real>)

  /**
   * At most `n` sweeps from `(w, b)`, each recording its mean absolute error
   * and stopping right after the first sweep whose error is 0.
   */
  function OnlineFit(X: Matrix, y: Vector, w: Vector, b: real, lr: real, n: nat): (r: FitResult)
    requires IsShape(X, |y|, |w|) && (|y| > 0 || n == 0)
    ensures |r.weights| == |w|
    ensures |r.history| <= n
    decreases n
  {
    if n == 0 then FitResult(w, b, [])
    else
      var s := OnlineSweep(X, y, w, b, lr, |y|);
      var e := s.totalError / |y| as real;
      if e == 0.0 then FitResult(s.weights, s.bias, [e])
      else
        Resume([e], OnlineFit(X, y, s.weights, s.bias, lr, n - 1))
  }

  /**
   * What a run guarantees: with 0/1 labels every recorded error lies in
   * [0, 1]; no entry but the last is 0; a run shorter than `n` sweeps ended on
   * a 0; and a run that ended on a 0 leaves parameters that classify every
   * training sample.
   */
  lemma {:induction false} OnlineFitHistory(X: Matrix, y: Vector, w: Vector, b: real, lr: real, n: nat)
    requires IsShape(X, |y|, |w|) && |y| > 0 && IsBinary(y)
    ensures var r := OnlineFit(X, y, w, b, lr, n);
      && (forall i :: 0 <= i < |r.history| ==> 0.0 <= r.history[i] <= 1.0)
      && (forall i :: 0 <= i < |r.history| - 1 ==> r.history[i] != 0.0)
      && (|r.history| < n ==> |r.history| > 0 && r.history[|r.history| - 1] == 0.0)
      && (|r.history| > 0 && r.history[|r.history| - 1] == 0.0 ==>
            ClassifiesAll(X, y, r.weights, r.bias, |y|))
    decreases n
  {
    if n > 0 {
      var s := OnlineSweep(X, y, w, b, lr, |y|);
      SweepMeanError(X, y, w, b, lr);
      if s.totalError / |y| as real != 0.0 {
        OnlineFitHistory(X, y, s.weights, s.bias, lr, n - 1);
      }
    }
  }

  /**
   * How a run of `n > 0` sweeps continues after its first sweep, which took
   * `(w, b)` to `(w1, b1)` with mean error `e`, behind the entries `h`
   * recorded earlier.
   */
  lemma OnlineFitStep(X: Matrix, y: Vector, w: Vector, b: real, lr: real, n: nat, w1: Vector, b1: real, e: real, h: seq<real>)
    requires IsShape(X, |y|, |w|) && |y| > 0 && n > 0
    requires var s := OnlineSweep(X, y, w, b, lr, |y|);
      s.weights == w1 && s.bias == b1 && e == s.totalError / |y| as real
    ensures |w1| == |w|
    ensures e == 0.0 ==> Resume(h, OnlineFit(X, y, w, b, lr, n)) == FitResult(w1, b1, h + [e])
    ensures e != 0.0 ==> Resume(h, OnlineFit(X, y, w, b, lr, n)) == Resume(h + [e], OnlineFit(X, y, w1, b1, lr, n - 1))
  {
    if e != 0.0 {
      ResumeTwice(h, [e], OnlineFit(X, y, w1, b1, lr, n - 1));
    }
  }

  /** The run `r` with the entries `h` recorded before it. */
  function Resume(h: seq<real>, r: FitResult): (q: FitResult)
    ensures q.weights == r.weights && q.bias == r.bias && q.history == h + r.history
  {
    FitResult(r.weights, r.bias, h + r.history)
  }

  lemma ResumeTwice(h1: seq<real>, h2: seq<real>, r: FitResult)
    ensures Resume(h1, Resume(h2, r)) == Resume(h1 + h2, r)
  {
    assert h1 + (h2 + r.history) == (h1 + h2) + r.history;
  }

  /** A total error in [0, m] over m samples is a mean error in [0, 1], and 0 only for 0. */
  lemma MeanErrorBounds(total: real, m: real)
    requires m > 0.0 && 0.0 <= total <= m
    ensures 0.0 <= total / m <= 1.0
    ensures total / m == 0.0 <==> total == 0.0
  {
  }

  /** `w1 x1 + w2 x2 + b`: which side of the line `w1 x1 + w2 x2 + b = 0` the point `x` lies on. */
  function LineSide(w1: real, w2: real, b: real, x: Vector): real
    requires |x| == 2
  {
    w1 * x[0] + w2 * x[1] + b
  }

  /** For two features the weighted sum is the line's left-hand side. */
  lemma DotTwo(x: Vector, w: Vector, b: real)
    requires |x| == |w| == 2
    ensures Dot(x, w) + b == LineSide(w[0], w[1], b, x)
  {
    assert Dot(x[1..], w[1..]) == x[1] * w[1] + Dot(x[2..], w[2..]);
  }

  class Perceptron {
    const nFeatures: nat
    const learningRate: real
    var weights: Vector
    var bias: real
    /** The mean absolute error of every sweep of the current training run. */
    var errorsHistory: seq<real>

    ghost predicate Valid()
      reads this
    {
      |weights| == nFeatures
    }

    /** `Perceptron(n_features, learning_rate)`; the random initial weights are a parameter. */
    constructor(nFeatures: nat, learningRate: real, initialWeights: Vector)
      requires |initialWeights| == nFeatures
      ensures Valid()
      ensures this.nFeatures == nFeatures && this.learningRate == learningRate
      ensures weights == initialWeights && bias == 0.0 && errorsHistory == []
    {
      this.nFeatures := nFeatures;
      this.learningRate := learningRate;
      weights := initialWeights;
      bias := 0.0;
      errorsHistory := [];
    }

    /** `predict(X)`: one 0/1 label per row, 1 exactly when `X[i] . w + b >= 0`. */
    function Predict(X: Matrix): (p: Vector)
      reads this
      requires Valid() && IsShape(X, |X|, nFeatures)
      ensures |p| == |X| && IsBinary(p)
      ensures forall i :: 0 <= i < |X| ==> (p[i] == 1.0 <==> Dot(X[i], weights) + bias >= 0.0)
    {
      var w, b := weights, bias;
      seq(|X|, i requires 0 <= i < |X| => Activation.Step(Dot(X[i], w) + b))
    }

    /**
     * `score(X, y)`: the fraction of rows predicted correctly, in [0, 1];
     * it is 1 exactly when every row is predicted correctly.
     */
    function Score(X: Matrix, y: Vector): (r: real)
      reads this
      requires Valid() && IsShape(X, |y|, nFeatures) && |y| > 0
      ensures 0.0 <= r <= 1.0
      ensures r == 1.0 <==> ClassifiesAll(X, y, weights, bias, |y|)
    {
      var p := Predict(X);
      assert forall i :: 0 <= i < |y| ==> p[i] == PredictOne(X[i], weights, bias);
      Accuracy(p, y)
    }

    /**
     * `train_step(X, y)`: one online sweep. The new parameters are those of
     * `OnlineSweep`; the mean absolute error is returned and appended to the
     * history. `SweepMeanError` says what that error means.
     */
    method TrainStep(X: Matrix, y: Vector) returns (meanError: real)
      requires Valid() && IsShape(X, |y|, nFeatures) && |y| > 0
      modifies this
      ensures Valid()
      ensures var s := OnlineSweep(X, y, old(weights), old(bias), learningRate, |y|);
        && weights == s.weights && bias == s.bias
        && meanError == s.totalError / |y| as real
      ensures errorsHistory == old(errorsHistory) + [meanError]
    {
      ghost var w0, b0 := weights, bias;
      var totalError := 0.0;
      var i := 0;
      while i < |y|
        invariant 0 <= i <= |y| && Valid()
        invariant OnlineSweep(X, y, w0, b0, learningRate, i) == SweepState(weights, bias, totalError)
        invariant errorsHistory == old(errorsHistory)
      {
        ghost var before := SweepState(weights, bias, totalError);
        var prediction := PredictOne(X[i], weights, bias);
        var error := y[i] - prediction;
        totalError := totalError + Abs(error);
        if error != 0.0 {
          weights := AddScaled(weights, learningRate * error, X[i]);
          bias := bias + learningRate * error;
        }
        assert SweepState(weights, bias, totalError) == ApplyError(before, X[i], learningRate, error);
        assert OnlineSweep(X, y, w0, b0, learningRate, i + 1) == Visit(before, X[i], y[i], learningRate);
        i := i + 1;
      }
      meanError := totalError / |y| as real;
      errorsHistory := errorsHistory + [meanError];
    }

    /**
     * `fit(X, y, epochs)`: clears the history and runs up to `epochs` sweeps,
     * stopping after the first one with zero error; the outcome is `OnlineFit`,
     * whose guarantees `OnlineFitHistory` states. Without samples a sweep
     * divides by zero, so empty data is accepted only when no sweep runs.
     */
    method Fit(X: Matrix, y: Vector, epochs: int)
      requires Valid() && IsShape(X, |y|, nFeatures) && (|y| > 0 || epochs <= 0)
      modifies this
      ensures Valid()
      ensures FitResult(weights, bias, errorsHistory)
        == OnlineFit(X, y, old(weights), old(bias), learningRate, if epochs > 0 then epochs else 0)
    {
      ghost var n: nat := if epochs > 0 then epochs else 0;
      ghost var target := OnlineFit(X, y, weights, bias, learningRate, n);
      errorsHistory := [];
      var epoch := 0;
      ghost var left: nat := n;
      while epoch < epochs
        invariant Valid() && 0 <= epoch <= n && left == n - epoch
        invariant target == Resume(errorsHistory, OnlineFit(X, y, weights, bias, learningRate, left))
      {
        ghost var w0, b0, h0 := weights, bias, errorsHistory;
        var error := TrainStep(X, y);
        OnlineFitStep(X, y, w0, b0, learningRate, left, weights, bias, error, h0);
        if error == 0.0 {
          break;
        }
        epoch := epoch + 1;
        left := left - 1;
      }
    }

    /**
     * `get_decision_boundary()`: `(w1, w2, b)` for a two-feature perceptron,
     * an error otherwise. The perceptron predicts 1 exactly on the side
     * `w1 x1 + w2 x2 + b >= 0` of that line.
     */
    function GetDecisionBoundary(): (r: Result<(real, real, real)>)
      reads this
      requires Valid()
      ensures r.Success? <==> nFeatures == 2
      ensures r.Success? ==> forall x: Vector :: |x| == 2 ==>
        (PredictOne(x, weights, bias) == 1.0 <==> LineSide(r.value.0, r.value.1, r.value.2, x) >= 0.0)
    {
      if nFeatures != 2 then Failure("Decision boundary only available for 2D inputs")
      else
        var w1, w2, b := weights[0], weights[1], bias;
        assert forall x: Vector :: |x| == 2 ==>
          (PredictOne(x, weights, bias) == 1.0 <==> LineSide(w1, w2, b, x) >= 0.0) by {
          forall x: Vector | |x| == 2
            ensures PredictOne(x, weights, bias) == 1.0 <==> LineSide(w1, w2, b, x) >= 0.0
          {
            DotTwo(x, weights, bias);
          }
        }
        Success((w1, w2, b))
    }
  }
}
