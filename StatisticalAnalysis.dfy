/**
 * The two verbal interpreters of 05-analysis/perceptron-example/statistical_analysis.py:
 * `interpret_cohens_d`, which names the band an effect size falls in, and
 * `interpret_power`, which names the band a statistical power falls in.
 * Both are threshold chains; each is related here to an independent
 * reference definition, the number of band thresholds the value reaches,
 * which makes symmetry and monotonicity provable.
 */
module StatisticalAnalysis {
  import opened Vectors

  /** Number of thresholds in `ts` that `x` reaches (`t <= x`). */
  function Reached(x: real, ts: seq<real>): (k: nat)
    ensures k <= |ts|
  {
    if |ts| == 0 then 0 else (if ts[0] <= x then 1 else 0) + Reached(x, ts[1..])
  }

  /** A larger value never reaches fewer thresholds. */
  lemma {:induction false} ReachedMonotone(x: real, x': real, ts: seq<real>)
    requires x <= x'
    ensures Reached(x, ts) <= Reached(x', ts)
  {
    if |ts| > 0 {
      ReachedMonotone(x, x', ts[1..]);
    }
  }

  /** Which of four thresholds `x` reaches, one threshold at a time. */
  lemma ReachedFour(x: real, a: real, b: real, c: real, d: real)
    ensures Reached(x, [a, b, c, d]) ==
      (if a <= x then 1 else 0) + (if b <= x then 1 else 0) + (if c <= x then 1 else 0) + (if d <= x then 1 else 0)
  {
    assert [a, b, c, d][1..] == [b, c, d];
    ReachedThree(x, b, c, d);
  }

  /** Which of three thresholds `x` reaches, one threshold at a time. */
  lemma ReachedThree(x: real, a: real, b: real, c: real)
    ensures Reached(x, [a, b, c]) == (if a <= x then 1 else 0) + (if b <= x then 1 else 0) + (if c <= x then 1 else 0)
  {
    assert [c][1..] == [];
    assert Reached(x, [c]) == if c <= x then 1 else 0;
    assert [b, c][1..] == [c];
    assert Reached(x, [b, c]) == (if b <= x then 1 else 0) + Reached(x, [c]);
    assert [a, b, c][1..] == [b, c];
  }

  /** The lower edges of the effect-size bands Small, Medium, Large and Very Large. */
  const EffectThresholds: seq<real> := [0.2, 0.5, 0.8, 1.2]

  /** The effect-size labels from the smallest band to the largest. */
  const EffectLabels: seq<string> := ["Negligible", "Small", "Medium", "Large", "Very Large"]

  /**
   * `interpret_cohens_d(d)`: the band `|d|` falls in, each band closed
   * below and open above. It is total: every real gets one of the five
   * labels.
   */
  function InterpretCohensD(d: real): (band: string)
    ensures band in EffectLabels
    ensures band == "Negligible" <==> Abs(d) < 0.2
    ensures band == "Small" <==> 0.2 <= Abs(d) < 0.5
    ensures band == "Medium" <==> 0.5 <= Abs(d) < 0.8
    ensures band == "Large" <==> 0.8 <= Abs(d) < 1.2
    ensures band == "Very Large" <==> 1.2 <= Abs(d)
  {
    if Abs(d) < 0.2 then "Negligible"
    else if Abs(d) < 0.5 then "Small"
    else if Abs(d) < 0.8 then "Medium"
    else if Abs(d) < 1.2 then "Large"
    else "Very Large"
  }

  /** The label of an effect size is the one whose index is the number of band edges `|d|` reaches. */
  lemma CohensDByThresholds(d: real)
    ensures InterpretCohensD(d) == EffectLabels[Reached(Abs(d), EffectThresholds)]
  {
    ReachedFour(Abs(d), 0.2, 0.5, 0.8, 1.2);
  }

  /** The label depends on the size of the effect only, not on its direction. */
  lemma CohensDSymmetric(d: real)
    ensures InterpretCohensD(-d) == InterpretCohensD(d)
  {
    assert Abs(-d) == Abs(d);
  }

  /** A larger effect never gets a lower band. */
  lemma CohensDMonotone(d: real, d': real)
    requires Abs(d) <= Abs(d')
    ensures Reached(Abs(d), EffectThresholds) <= Reached(Abs(d'), EffectThresholds)
    ensures InterpretCohensD(d) == EffectLabels[Reached(Abs(d), EffectThresholds)]
    ensures InterpretCohensD(d') == EffectLabels[Reached(Abs(d'), EffectThresholds)]
  {
    ReachedMonotone(Abs(d), Abs(d'), EffectThresholds);
    CohensDByThresholds(d);
    CohensDByThresholds(d');
  }

  /** The lower edges of the power bands Moderate, Good and Excellent. */
  const PowerThresholds: seq<real> := [0.4, 0.6, 0.8]

  /** The power labels from the lowest band to the highest. */
  const PowerLabels: seq<string> := [
    "Low (high risk of Type II error)",
    "Moderate (may miss small effects)",
    "Good (adequate for most purposes)",
    "Excellent (sufficient to detect effect)"
  ]

  /**
   * `interpret_power(power)`: the band the power falls in, each band
   * closed below. It is total: every real gets one of the four labels.
   */
  function InterpretPower(power: real): (band: string)
    ensures band in PowerLabels
    ensures band == PowerLabels[3] <==> 0.8 <= power
    ensures band == PowerLabels[2] <==> 0.6 <= power < 0.8
    ensures band == PowerLabels[1] <==> 0.4 <= power < 0.6
    ensures band == PowerLabels[0] <==> power < 0.4
  {
    if power >= 0.8 then "Excellent (sufficient to detect effect)"
    else if power >= 0.6 then "Good (adequate for most purposes)"
    else if power >= 0.4 then "Moderate (may miss small effects)"
    else "Low (high risk of Type II error)"
  }

  /** The label of a power is the one whose index is the number of band edges it reaches. */
  lemma PowerByThresholds(power: real)
    ensures InterpretPower(power) == PowerLabels[Reached(power, PowerThresholds)]
  {
    ReachedThree(power, 0.4, 0.6, 0.8);
  }

  /** A larger power never gets a lower band. */
  lemma PowerMonotone(power: real, power': real)
    requires power <= power'
    ensures Reached(power, PowerThresholds) <= Reached(power', PowerThresholds)
    ensures InterpretPower(power) == PowerLabels[Reached(power, PowerThresholds)]
    ensures InterpretPower(power') == PowerLabels[Reached(power', PowerThresholds)]
  {
    ReachedMonotone(power, power', PowerThresholds);
    PowerByThresholds(power);
    PowerByThresholds(power');
  }
}
