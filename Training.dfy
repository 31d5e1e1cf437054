/**
 * The epoch loop the learners' `fit` and `train` methods share: run one
 * epoch from the current parameters, record what it reports, and stop after
 * the first epoch that meets the learner's stopping rule, for at most `n`
 * epochs. The epoch itself is a parameter, so the facts proved here hold
 * for every learner; `inv` is the shape invariant an epoch needs and keeps.
 */
module Training {

  /** What one epoch reports: the parameters after it, its loss and its accuracy. */
  datatype Epoch<P> = Epoch(params: P, loss: real, accuracy: real)

  /** A finished run: the final parameters and every epoch in order. */
  datatype Run<P> = Run(final: P, epochs: seq<Epoch<P>>)

  /** The epoch can run from every parameter value meeting `inv`, and keeps `inv`. */
  ghost predicate Closed<P(!new)>(step: P --> Epoch<P>, inv: P -> bool)
  {
    && (forall p :: inv(p) ==> step.requires(p))
    && (forall p {:trigger step(p)} :: inv(p) ==> inv(step(p).params))
  }

  /** Up to `n` epochs from `p`, stopping after the first epoch `e` with `stop(e)`. */
  function Train<P(!new)>(step: P --> Epoch<P>, inv: P -> bool, stop: Epoch<P> -> bool, p: P, n: nat): (r: Run<P>)
    requires Closed(step, inv) && inv(p)
    ensures inv(r.final)
    decreases n
  {
    if n == 0 then Run(p, [])
    else
      var e := step(p);
      if stop(e) then Run(e.params, [e])
      else
        var r := Train(step, inv, stop, e.params, n - 1);
        Run(r.final, [e] + r.epochs)
  }

  /** The parameters epoch `i` of `es` started from: `p` for the first, else those the previous epoch left. */
  function Before<P>(p: P, es: seq<Epoch<P>>, i: nat): P
    requires i <= |es|
  {
    if i == 0 then p else es[i - 1].params
  }

  /** Each epoch ran from the parameters the one before it left, the first from `p`. */
  ghost predicate Chained<P(!new)>(step: P --> Epoch<P>, inv: P -> bool, p: P, es: seq<Epoch<P>>)
    decreases |es|
  {
    inv(p) && (|es| > 0 ==> step.requires(p) && es[0] == step(p) && Chained(step, inv, es[0].params, es[1..]))
  }

  /**
   * `r` is what the loop does from `p` with at most `n` epochs: the epochs
   * are chained, none but the last met the stopping rule, a run shorter
   * than `n` ended on one that did, and the final parameters are where the
   * last epoch left them.
   */
  ghost predicate IsRun<P(!new)>(step: P --> Epoch<P>, inv: P -> bool, stop: Epoch<P> -> bool, p: P, n: nat, r: Run<P>)
  {
    && Chained(step, inv, p, r.epochs)
    && |r.epochs| <= n
    && (forall i :: 0 <= i < |r.epochs| - 1 ==> !stop(r.epochs[i]))
    && (|r.epochs| < n ==> |r.epochs| > 0 && stop(r.epochs[|r.epochs| - 1]))
    && r.final == Before(p, r.epochs, |r.epochs|)
  }

  /** `Train` is a run, and at least one epoch runs when `n > 0`. */
  lemma {:induction false} TrainIsRun<P(!new)>(step: P --> Epoch<P>, inv: P -> bool, stop: Epoch<P> -> bool, p: P, n: nat)
    requires Closed(step, inv) && inv(p)
    ensures IsRun(step, inv, stop, p, n, Train(step, inv, stop, p, n))
    ensures n > 0 ==> |Train(step, inv, stop, p, n).epochs| > 0
    decreases n
  {
    if n > 0 {
      var e := step(p);
      if !stop(e) {
        TrainIsRun(step, inv, stop, e.params, n - 1);
        var r := Train(step, inv, stop, e.params, n - 1);
        var es := [e] + r.epochs;
        assert forall i :: 1 <= i < |es| ==> es[i] == r.epochs[i - 1];
        assert es[1..] == r.epochs;
      }
    }
  }

  /** A run is unique: whatever meets `IsRun` is `Train`'s result. */
  lemma {:induction false} RunIsTrain<P(!new)>(step: P --> Epoch<P>, inv: P -> bool, stop: Epoch<P> -> bool, p: P, n: nat,
                                               r: Run<P>)
    requires Closed(step, inv) && inv(p)
    requires IsRun(step, inv, stop, p, n, r)
    ensures r == Train(step, inv, stop, p, n)
    decreases n
  {
    var es := r.epochs;
    if n > 0 {
      var e := step(p);
      assert es[0] == e;
      if stop(e) {
        assert |es| == 1;
        assert es == [e];
      } else {
        var rest := Run(r.final, es[1..]);
        assert forall i :: 0 <= i < |rest.epochs| ==> rest.epochs[i] == es[i + 1];
        assert rest.final == Before(e.params, rest.epochs, |rest.epochs|);
        RunIsTrain(step, inv, stop, e.params, n - 1, rest);
        assert es == [e] + es[1..];
      }
    }
  }

  /**
   * What a loop that ran the epochs `es` from `p` recorded is `Train`'s
   * result, when the epochs are chained, at most `n` ran, only the last may
   * have met the stopping rule, and fewer than `n` ran only when it did.
   */
  lemma LoopIsTrain<P(!new)>(step: P --> Epoch<P>, inv: P -> bool, stop: Epoch<P> -> bool, p: P, n: nat, es: seq<Epoch<P>>)
    requires Closed(step, inv) && Chained(step, inv, p, es)
    requires |es| <= n && (|es| < n ==> |es| > 0 && stop(es[|es| - 1]))
    requires forall i :: 0 <= i < |es| - 1 ==> !stop(es[i])
    ensures Train(step, inv, stop, p, n) == Run(Before(p, es, |es|), es)
  {
    RunIsTrain(step, inv, stop, p, n, Run(Before(p, es, |es|), es));
  }

  /** A chain of epochs extended by one more epoch from where it left off is still a chain. */
  lemma {:induction false} ChainedSnoc<P(!new)>(step: P --> Epoch<P>, inv: P -> bool, p: P, es: seq<Epoch<P>>, e: Epoch<P>)
    requires Closed(step, inv)
    requires Chained(step, inv, p, es) && inv(Before(p, es, |es|)) && e == step(Before(p, es, |es|))
    ensures Chained(step, inv, p, es + [e])
    ensures inv(e.params)
    decreases |es|
  {
    if |es| > 0 {
      ChainedSnoc(step, inv, es[0].params, es[1..], e);
      assert (es + [e])[1..] == es[1..] + [e];
    }
  }

  /** The run ended on the stopping rule: it stopped before `n` epochs, or its last epoch met the rule. */
  predicate EndedOnStop<P>(stop: Epoch<P> -> bool, r: Run<P>, n: nat)
  {
    |r.epochs| < n || (|r.epochs| > 0 && stop(r.epochs[|r.epochs| - 1]))
  }

  /**
   * How a run ends: when every epoch meeting the stopping rule leaves
   * parameters with property `fin`, a run that ended on the rule ends with
   * parameters that have `fin`.
   */
  lemma {:induction false} TrainStopsAt<P(!new)>(step: P --> Epoch<P>, inv: P -> bool, stop: Epoch<P> -> bool, fin: P -> bool, p: P, n: nat)
    requires Closed(step, inv) && inv(p)
    requires forall q :: inv(q) && stop(step(q)) ==> fin(step(q).params)
    ensures EndedOnStop(stop, Train(step, inv, stop, p, n), n) ==> fin(Train(step, inv, stop, p, n).final)
    decreases n
  {
    if n > 0 && !stop(step(p)) {
      var e := step(p);
      TrainStopsAt(step, inv, stop, fin, e.params, n - 1);
      var r := Train(step, inv, stop, e.params, n - 1);
      assert Train(step, inv, stop, p, n).epochs == [e] + r.epochs;
      if |r.epochs| > 0 {
        assert ([e] + r.epochs)[|r.epochs|] == r.epochs[|r.epochs| - 1];
      }
    }
  }

  /** When no epoch from a parameter value meeting `inv` meets the stopping rule, the run lasts all `n` epochs. */
  lemma {:induction false} TrainNeverStops<P(!new)>(step: P --> Epoch<P>, inv: P -> bool, stop: Epoch<P> -> bool, p: P, n: nat)
    requires Closed(step, inv) && inv(p)
    requires forall q :: inv(q) ==> !stop(step(q))
    ensures |Train(step, inv, stop, p, n).epochs| == n
    decreases n
  {
    if n > 0 {
      TrainNeverStops(step, inv, stop, step(p).params, n - 1);
    }
  }
}
