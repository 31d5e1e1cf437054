/**
 * The evaluation helpers of 03-implementation/perceptron-example/src/evaluation.py:
 * `evaluate_model`, which counts the confusion matrix of a model's 0/1
 * predictions and derives accuracy and the guarded precision, recall and
 * F1 from it, and `run_experiment`, which trains one model per seed and
 * collects each model's metrics in per-run lists.
 *
 * The model itself is abstracted: `evaluate_model` receives the
 * predictions `model.predict(X)` returned, and `run_experiment` receives a
 * trainer that maps the constructor parameters of one run to the test
 * predictions of the trained model and the length of its accuracy history.
 */
module Evaluation {
  import opened Wrappers
  import opened Vectors

  /** Number of positions where the prediction is `a` and the label is `b`. */
  function CountPair(p: Vector, y: Vector, a: real, b: real): (k: nat)
    requires |p| == |y|
    ensures k <= |p|
  {
    if |p| == 0 then 0
    else CountPair(p[..|p| - 1], y[..|y| - 1], a, b) + (if p[|p| - 1] == a && y[|y| - 1] == b then 1 else 0)
  }

  /** The dictionary `evaluate_model` returns. */
  datatype Metrics = Metrics(accuracy: real, precision: real, recall: real, f1Score: real,
                             truePositives: nat, trueNegatives: nat, falsePositives: nat, falseNegatives: nat)

  /**
   * `tp / (tp + other) if (tp + other) > 0 else 0`, the guarded division of
   * precision (other = false positives) and recall (other = false
   * negatives). It lies in [0, 1], is positive exactly when `tp` is, and is
   * 1 exactly when there are true positives and nothing else.
   */
  function GuardedRatio(tp: nat, other: nat): (r: real)
    ensures 0.0 <= r <= 1.0
    ensures r > 0.0 <==> tp > 0
    ensures r == 1.0 <==> tp > 0 && other == 0
    ensures tp + other > 0 ==> r * (tp + other) as real == tp as real
  {
    if tp + other > 0 then
      FractionBounds(tp, tp + other);
      PositiveFraction(tp, tp + other);
      tp as real / (tp + other) as real
    else 0.0
  }

  lemma PositiveFraction(k: nat, n: nat)
    requires 0 < n
    ensures k as real / n as real > 0.0 <==> k > 0
  {
    var q := k as real / n as real;
    assert q * n as real == k as real;
  }

  /**
   * `2 * (precision * recall) / (precision + recall)`, or 0 when both are
   * 0: the harmonic mean of two rates in [0, 1]. It lies between them, is
   * 0 exactly when one of them is, and is 1 exactly when both are.
   */
  function F1(precision: real, recall: real): (f: real)
    requires 0.0 <= precision <= 1.0 && 0.0 <= recall <= 1.0
    ensures precision <= recall ==> precision <= f <= recall
    ensures recall <= precision ==> recall <= f <= precision
    ensures f == 0.0 <==> precision == 0.0 || recall == 0.0
    ensures f == 1.0 <==> precision == 1.0 && recall == 1.0
  {
    if precision + recall > 0.0 then
      var f := 2.0 * (precision * recall) / (precision + recall);
      HarmonicMean(precision, recall, f);
      f
    else 0.0
  }

  lemma HarmonicMean(p: real, r: real, f: real)
    requires 0.0 <= p <= 1.0 && 0.0 <= r <= 1.0 && p + r > 0.0
    requires f == 2.0 * (p * r) / (p + r)
    ensures p <= r ==> p <= f <= r
    ensures r <= p ==> r <= f <= p
    ensures f == 0.0 <==> p == 0.0 || r == 0.0
    ensures f == 1.0 <==> p == 1.0 && r == 1.0
  {
    var s := p + r;
    assert f * s == 2.0 * (p * r);
    // f - p = p (r - p) / s and r - f = r (r - p) / s
    assert (f - p) * s == p * (r - p);
    assert (r - f) * s == r * (r - p);
    if p <= r {
      ProductSign(p, r - p);
      ProductSign(r, r - p);
    } else {
      ProductSign(p, p - r);
      ProductSign(r, p - r);
    }
    FactorSign(f - p, s);
    FactorSign(r - f, s);
    FactorSign(f, s);
    ProductZero(p, r);
    // 1 - f = (p (1 - r) + r (1 - p)) / s, a sum of two non-negative terms
    assert (1.0 - f) * s == p * (1.0 - r) + r * (1.0 - p);
    ProductSign(p, 1.0 - r);
    ProductSign(r, 1.0 - p);
    ProductZero(p, 1.0 - r);
    ProductZero(r, 1.0 - p);
    FactorSign(1.0 - f, s);
  }

  lemma FactorSign(x: real, s: real)
    requires s > 0.0
    ensures x * s >= 0.0 <==> x >= 0.0
    ensures x * s <= 0.0 <==> x <= 0.0
    ensures x * s == 0.0 <==> x == 0.0
  {
  }

  lemma ProductSign(a: real, b: real)
    requires a >= 0.0 && b >= 0.0
    ensures a * b >= 0.0
  {
  }

  lemma ProductZero(a: real, b: real)
    ensures a * b == 0.0 <==> a == 0.0 || b == 0.0
  {
  }

  /**
   * `evaluate_model` on the predictions `model.predict(X)` returned: the
   * fraction of matching positions, the four confusion counts, and the
   * guarded precision, recall and F1. Every rate lies in [0, 1];
   * precision is positive exactly when some positive prediction is right,
   * and so is recall.
   */
  function EvaluateModel(predictions: Vector, y: Vector): (m: Metrics)
    requires |predictions| == |y| > 0
    ensures 0.0 <= m.accuracy <= 1.0
    ensures m.accuracy == 1.0 <==> forall i :: 0 <= i < |y| ==> predictions[i] == y[i]
    ensures 0.0 <= m.precision <= 1.0 && 0.0 <= m.recall <= 1.0 && 0.0 <= m.f1Score <= 1.0
    ensures m.precision > 0.0 <==> m.truePositives > 0
    ensures m.recall > 0.0 <==> m.truePositives > 0
    ensures m.f1Score == 0.0 <==> m.truePositives == 0
  {
    var tp := CountPair(predictions, y, 1.0, 1.0);
    var tn := CountPair(predictions, y, 0.0, 0.0);
    var fp := CountPair(predictions, y, 1.0, 0.0);
    var fn := CountPair(predictions, y, 0.0, 1.0);
    var precision := GuardedRatio(tp, fp);
    var recall := GuardedRatio(tp, fn);
    Metrics(Accuracy(predictions, y), precision, recall, F1(precision, recall), tp, tn, fp, fn)
  }

  /** For 0/1 predictions and labels every position falls in exactly one cell of the confusion matrix. */
  lemma {:induction false} ConfusionTotal(p: Vector, y: Vector)
    requires |p| == |y| && IsBinary(p) && IsBinary(y)
    ensures CountPair(p, y, 1.0, 1.0) + CountPair(p, y, 0.0, 0.0) + CountPair(p, y, 1.0, 0.0) + CountPair(p, y, 0.0, 1.0)
            == |p|
  {
    if |p| > 0 {
      var p', y' := p[..|p| - 1], y[..|y| - 1];
      assert forall i :: 0 <= i < |p'| ==> p'[i] == p[i] && y'[i] == y[i];
      ConfusionTotal(p', y');
    }
  }

  /** For 0/1 predictions and labels the matching positions are the true positives and the true negatives. */
  lemma {:induction false} MatchesAreTrue(p: Vector, y: Vector)
    requires |p| == |y| && IsBinary(p) && IsBinary(y)
    ensures MatchCount(p, y) == CountPair(p, y, 1.0, 1.0) + CountPair(p, y, 0.0, 0.0)
  {
    if |p| > 0 {
      var p', y' := p[..|p| - 1], y[..|y| - 1];
      assert forall i :: 0 <= i < |p'| ==> p'[i] == p[i] && y'[i] == y[i];
      MatchesAreTrue(p', y');
    }
  }

  /** On 0/1 data the counts add up to the sample count and accuracy is `(TP + TN) / n`. */
  lemma AccuracyFromCounts(p: Vector, y: Vector)
    requires |p| == |y| > 0 && IsBinary(p) && IsBinary(y)
    ensures var m := EvaluateModel(p, y);
      && m.truePositives + m.trueNegatives + m.falsePositives + m.falseNegatives == |y|
      && m.accuracy == (m.truePositives + m.trueNegatives) as real / |y| as real
  {
    ConfusionTotal(p, y);
    MatchesAreTrue(p, y);
  }

  /** Nothing counted in a cell whose prediction and label differ when the predictions are the labels. */
  lemma {:induction false} NoMismatches(y: Vector, a: real, b: real)
    requires a != b
    ensures CountPair(y, y, a, b) == 0
  {
    if |y| > 0 {
      NoMismatches(y[..|y| - 1], a, b);
    }
  }

  /**
   * Perfect predictions with at least one positive label score 1 on every
   * rate: no false positives, no false negatives, precision, recall and F1
   * all 1.
   */
  lemma PerfectPredictions(y: Vector)
    requires |y| > 0 && CountPair(y, y, 1.0, 1.0) > 0
    ensures var m := EvaluateModel(y, y);
      && m.falsePositives == 0 && m.falseNegatives == 0
      && m.accuracy == 1.0 && m.precision == 1.0 && m.recall == 1.0 && m.f1Score == 1.0
  {
    NoMismatches(y, 1.0, 0.0);
    NoMismatches(y, 0.0, 1.0);
  }

  /** The values `model_params` holds; the model classes take integers and reals. */
  datatype Value = IntValue(i: int) | RealValue(r: real)

  type ModelParams = map<string, Value>

  /**
   * `params = model_params.copy(); params['random_seed'] = seed`: a new map
   * that has the seed under `random_seed` and every other entry of
   * `model_params` unchanged. Maps are values, so the caller's
   * `model_params` itself never changes.
   */
  function SeedParams(modelParams: ModelParams, seed: int): (params: ModelParams)
    ensures params.Keys == modelParams.Keys + {"random_seed"}
    ensures params["random_seed"] == IntValue(seed)
    ensures forall k :: k in modelParams && k != "random_seed" ==> params[k] == modelParams[k]
  {
    modelParams["random_seed" := IntValue(seed)]
  }

  /** What one run yields: the trained model's predictions on `X_test` and `len(model.history['accuracy'])`. */
  datatype Trained = Trained(predictions: Vector, epochs: nat)

  /**
   * `model_class(**params)` followed by `model.fit(X_train, y_train,
   * **training_params)` and `model.predict(X_test)`, as one function of the
   * constructor parameters; the seed among them makes it deterministic.
   */
  type Trainer = ModelParams -> Trained

  /** The trainer predicts one label per test sample. */
  ghost predicate PredictsTestSet(train: Trainer, yTest: Vector)
  {
    forall params :: |train(params).predictions| == |yTest|
  }

  /** `list(range(42, 42 + n_runs))`, empty when `n_runs <= 0`. */
  function DefaultSeeds(nRuns: int): (s: seq<int>)
    ensures |s| == if nRuns > 0 then nRuns else 0
    ensures forall i :: 0 <= i < |s| ==> s[i] == 42 + i
  {
    if nRuns <= 0 then [] else seq(nRuns, i => 42 + i)
  }

  /** Python's `s[:n]`: the first `n` entries, all of `s` when `n >= |s|`, and for negative `n` all but the last `-n`. */
  function Prefix(s: seq<int>, n: int): (t: seq<int>)
    ensures t <= s
    ensures |t| == if n >= 0 then (if n <= |s| then n else |s|) else (if |s| + n > 0 then |s| + n else 0)
  {
    if n >= 0 then (if n <= |s| then s[..n] else s)
    else if |s| + n > 0 then s[..|s| + n]
    else []
  }

  /** `random_seeds[:n_runs]`, with the default seeds when none are given. */
  function UsedSeeds(randomSeeds: Option<seq<int>>, nRuns: int): seq<int>
  {
    Prefix(if randomSeeds.None? then DefaultSeeds(nRuns) else randomSeeds.value, nRuns)
  }

  /** Without seeds of its own the experiment runs `n_runs` times, with seeds 42, 43, ..., 41 + n_runs. */
  lemma DefaultSeedsUsed(nRuns: int)
    ensures UsedSeeds(None, nRuns) == DefaultSeeds(nRuns)
    ensures |UsedSeeds(None, nRuns)| == if nRuns > 0 then nRuns else 0
  {
  }

  /** Given seeds are used in order, `min(n_runs, len(seeds))` of them when `n_runs >= 0`. */
  lemma GivenSeedsUsed(seeds: seq<int>, nRuns: int)
    requires nRuns >= 0
    ensures var used := UsedSeeds(Some(seeds), nRuns);
      && |used| == (if nRuns <= |seeds| then nRuns else |seeds|)
      && forall i :: 0 <= i < |used| ==> used[i] == seeds[i]
  {
  }

  /** What one run of the loop records. */
  datatype Run = Run(metrics: Metrics, epochs: nat, converged: bool)

  /**
   * The run with `seed`: train from the seeded copy of the parameters and
   * evaluate on the test labels. It counts as converged exactly when every
   * test prediction is right.
   */
  function RunFor(train: Trainer, modelParams: ModelParams, yTest: Vector, seed: int): (r: Run)
    requires |yTest| > 0 && PredictsTestSet(train, yTest)
    ensures r.converged <==>
      var p := train(SeedParams(modelParams, seed)).predictions;
      forall i :: 0 <= i < |yTest| ==> p[i] == yTest[i]
  {
    var trained := train(SeedParams(modelParams, seed));
    var metrics := EvaluateModel(trained.predictions, yTest);
    Run(metrics, trained.epochs, metrics.accuracy == 1.0)
  }

  /** The runs for `seeds`, in order. */
  ghost function Runs(train: Trainer, modelParams: ModelParams, yTest: Vector, seeds: seq<int>): (runs: seq<Run>)
    requires |yTest| > 0 && PredictsTestSet(train, yTest)
  {
    seq(|seeds|, i requires 0 <= i < |seeds| => RunFor(train, modelParams, yTest, seeds[i]))
  }

  /** Number of runs that converged. */
  function CountTrue(c: seq<bool>): (k: nat)
    ensures k <= |c|
  {
    if |c| == 0 then 0 else CountTrue(c[..|c| - 1]) + (if c[|c| - 1] then 1 else 0)
  }

  lemma {:induction false} CountTrueAll(c: seq<bool>)
    ensures CountTrue(c) == |c| <==> forall i :: 0 <= i < |c| ==> c[i]
    ensures CountTrue(c) == 0 <==> forall i :: 0 <= i < |c| ==> !c[i]
  {
    if |c| > 0 {
      var c' := c[..|c| - 1];
      assert forall i :: 0 <= i < |c'| ==> c'[i] == c[i];
      CountTrueAll(c');
    }
  }

  /** `np.min` of a non-empty list. */
  function Min(s: seq<real>): (m: real)
    requires |s| > 0
    ensures m in s && forall i :: 0 <= i < |s| ==> m <= s[i]
  {
    if |s| == 1 then s[0]
    else
      var m := Min(s[..|s| - 1]);
      assert forall i :: 0 <= i < |s| - 1 ==> s[..|s| - 1][i] == s[i];
      if s[|s| - 1] < m then s[|s| - 1] else m
  }

  /** `np.max` of a non-empty list. */
  function Max(s: seq<real>): (m: real)
    requires |s| > 0
    ensures m in s && forall i :: 0 <= i < |s| ==> s[i] <= m
  {
    if |s| == 1 then s[0]
    else
      var m := Max(s[..|s| - 1]);
      assert forall i :: 0 <= i < |s| - 1 ==> s[..|s| - 1][i] == s[i];
      if s[|s| - 1] > m then s[|s| - 1] else m
  }

  function SumNat(s: seq<nat>): (t: nat)
  {
    if |s| == 0 then 0 else SumNat(s[..|s| - 1]) + s[|s| - 1]
  }

  /** The part of `results['statistics']` built from exact values. */
  datatype Statistics = Statistics(meanAccuracy: real, minAccuracy: real, maxAccuracy: real,
                                   convergenceRate: real, avgEpochsToConverge: real)

  /**
   * The statistics over the runs: mean, minimum and maximum accuracy, the
   * mean of the convergence flags and the mean history length. The mean
   * lies between the extremes, which are accuracies of some run, and the
   * convergence rate is the fraction of runs that converged: 1 exactly when
   * all did and 0 exactly when none did.
   */
  function Summarize(accuracies: seq<real>, converged: seq<bool>, finalEpochs: seq<nat>): (s: Statistics)
    requires |accuracies| == |converged| == |finalEpochs| > 0
    requires forall i :: 0 <= i < |accuracies| ==> 0.0 <= accuracies[i] <= 1.0
    ensures 0.0 <= s.minAccuracy <= s.meanAccuracy <= s.maxAccuracy <= 1.0
    ensures s.minAccuracy in accuracies && s.maxAccuracy in accuracies
    ensures 0.0 <= s.convergenceRate <= 1.0
    ensures s.convergenceRate == 1.0 <==> forall i :: 0 <= i < |converged| ==> converged[i]
    ensures s.convergenceRate == 0.0 <==> forall i :: 0 <= i < |converged| ==> !converged[i]
    ensures s.avgEpochsToConverge >= 0.0
  {
    var lo, hi := Min(accuracies), Max(accuracies);
    MeanBetween(accuracies, lo, hi);
    CountTrueAll(converged);
    FractionBounds(CountTrue(converged), |converged|);
    PositiveFraction(CountTrue(converged), |converged|);
    Statistics(Mean(accuracies), lo, hi,
               CountTrue(converged) as real / |converged| as real,
               SumNat(finalEpochs) as real / |finalEpochs| as real)
  }

  lemma MeanBetween(s: seq<real>, lo: real, hi: real)
    requires |s| > 0 && forall i :: 0 <= i < |s| ==> lo <= s[i] <= hi
    ensures lo <= Mean(s) <= hi
  {
    SumBounds(s, lo, hi);
    var n := |s| as real;
    assert Mean(s) * n == Sum(s);
  }

  /** The lists `run_experiment` fills, one entry per run. */
  datatype PerRun = PerRun(accuracies: seq<real>, precisions: seq<real>, recalls: seq<real>, f1Scores: seq<real>,
                           finalEpochs: seq<nat>, converged: seq<bool>)

  /** `run_experiment`'s result: the lists and the statistics over them. */
  datatype Results = Results(perRun: PerRun, statistics: Statistics)

  /** The lists hold one entry per run, in the order of the runs. */
  predicate Collected(lists: PerRun, runs: seq<Run>)
  {
    && |lists.accuracies| == |lists.precisions| == |lists.recalls| == |lists.f1Scores| == |runs|
    && |lists.finalEpochs| == |lists.converged| == |runs|
    && forall i :: 0 <= i < |runs| ==>
         && lists.accuracies[i] == runs[i].metrics.accuracy
         && lists.precisions[i] == runs[i].metrics.precision
         && lists.recalls[i] == runs[i].metrics.recall
         && lists.f1Scores[i] == runs[i].metrics.f1Score
         && lists.finalEpochs[i] == runs[i].epochs
         && lists.converged[i] == runs[i].converged
  }

  /**
   * The loop of `run_experiment`: for each seed in order, do the run
   * `runOf` describes and append what it recorded to the lists.
   */
  method CollectRuns(runOf: int -> Run, seeds: seq<int>) returns (lists: PerRun)
    ensures Collected(lists, seq(|seeds|, i requires 0 <= i < |seeds| => runOf(seeds[i])))
  {
    var accuracies, precisions, recalls, f1Scores: seq<real> := [], [], [], [];
    var finalEpochs: seq<nat> := [];
    var converged: seq<bool> := [];
    var k := 0;
    while k < |seeds|
      invariant 0 <= k <= |seeds|
      invariant |accuracies| == |precisions| == |recalls| == |f1Scores| == |finalEpochs| == |converged| == k
      invariant forall i :: 0 <= i < k ==> accuracies[i] == runOf(seeds[i]).metrics.accuracy
      invariant forall i :: 0 <= i < k ==> precisions[i] == runOf(seeds[i]).metrics.precision
      invariant forall i :: 0 <= i < k ==> recalls[i] == runOf(seeds[i]).metrics.recall
      invariant forall i :: 0 <= i < k ==> f1Scores[i] == runOf(seeds[i]).metrics.f1Score
      invariant forall i :: 0 <= i < k ==> finalEpochs[i] == runOf(seeds[i]).epochs
      invariant forall i :: 0 <= i < k ==> converged[i] == runOf(seeds[i]).converged
    {
      var run := runOf(seeds[k]);
      accuracies := accuracies + [run.metrics.accuracy];
      precisions := precisions + [run.metrics.precision];
      recalls := recalls + [run.metrics.recall];
      f1Scores := f1Scores + [run.metrics.f1Score];
      finalEpochs := finalEpochs + [run.epochs];
      converged := converged + [run.converged];
      k := k + 1;
    }
    lists := PerRun(accuracies, precisions, recalls, f1Scores, finalEpochs, converged);
  }

  /**
   * `run_experiment(model_class, model_params, X_train, y_train, X_test,
   * y_test, training_params, n_runs, random_seeds)`: one run per seed of
   * `random_seeds[:n_runs]`, in order, each from its own seeded copy of the
   * parameters, then the statistics. With no run at all `np.min` of the
   * empty accuracy list raises.
   */
  method RunExperiment(train: Trainer, modelParams: ModelParams, yTest: Vector, nRuns: int,
                       randomSeeds: Option<seq<int>>)
    returns (r: Result<Results>)
    requires |yTest| > 0 && PredictsTestSet(train, yTest)
    ensures r.Failure? <==> |UsedSeeds(randomSeeds, nRuns)| == 0
    ensures r.Success? ==>
      var lists := r.value.perRun;
      && Collected(lists, Runs(train, modelParams, yTest, UsedSeeds(randomSeeds, nRuns)))
      && r.value.statistics == Summarize(lists.accuracies, lists.converged, lists.finalEpochs)
  {
    var seeds := if randomSeeds.None? then DefaultSeeds(nRuns) else randomSeeds.value;
    seeds := Prefix(seeds, nRuns);
    var runOf := seed => RunFor(train, modelParams, yTest, seed);
    var lists := CollectRuns(runOf, seeds);
    assert seq(|seeds|, i requires 0 <= i < |seeds| => runOf(seeds[i])) == Runs(train, modelParams, yTest, seeds);
    if |seeds| == 0 {
      return Failure("zero-size array to reduction operation minimum which has no identity");
    }
    var statistics := Summarize(lists.accuracies, lists.converged, lists.finalEpochs);
    return Success(Results(lists, statistics));
  }
}
