/**
 * One-dimensional numpy arrays over the reals: dot products, the scaled
 * vector update of the perceptron rules, sums and means, and the
 * `np.mean(predictions == y)` accuracy that every learner reports.
 */
module Vectors {

  type Vector = seq<real>

  function Abs(x: real): (r: real)
    ensures r >= 0.0
    ensures r == x || r == -x
  {
    if x < 0.0 then -x else x
  }

  /** Every entry is a class label 0 or 1. */
  predicate IsBinary(s: Vector)
  {
    forall i :: 0 <= i < |s| ==> s[i] == 0.0 || s[i] == 1.0
  }

  /** `np.dot(u, v)` for two vectors of the same length. */
  function Dot(u: Vector, v: Vector): real
    requires |u| == |v|
  {
    if |u| == 0 then 0.0 else u[0] * v[0] + Dot(u[1..], v[1..])
  }

  /** `w + c * x`, the in-place `+=` of the perceptron update rules. */
  function AddScaled(w: Vector, c: real, x: Vector): (r: Vector)
    requires |x| == |w|
    ensures |r| == |w|
    ensures forall j :: 0 <= j < |w| ==> r[j] == w[j] + c * x[j]
  {
    seq(|w|, j requires 0 <= j < |w| => w[j] + c * x[j])
  }

  lemma {:induction false} AddScaledZero(w: Vector, x: Vector)
    requires |x| == |w|
    ensures AddScaled(w, 0.0, x) == w
  {
  }

  /** `np.sum(s)`. */
  function Sum(s: Vector): real
  {
    if |s| == 0 then 0.0 else Sum(s[..|s| - 1]) + s[|s| - 1]
  }

  /** `np.mean(s)`; numpy returns NaN for an empty array, which is not a real. */
  function Mean(s: Vector): real
    requires |s| > 0
  {
    Sum(s) / |s| as real
  }

  /** A sum of entries that all lie in [lo, hi] lies in [|s| lo, |s| hi]. */
  lemma {:induction false} SumBounds(s: Vector, lo: real, hi: real)
    requires forall i :: 0 <= i < |s| ==> lo <= s[i] <= hi
    ensures |s| as real * lo <= Sum(s) <= |s| as real * hi
  {
    if |s| > 0 {
      SumBounds(s[..|s| - 1], lo, hi);
    }
  }

  lemma {:induction false} SumNonNegative(s: Vector)
    requires forall i :: 0 <= i < |s| ==> s[i] >= 0.0
    ensures Sum(s) >= 0.0
  {
    if |s| > 0 {
      SumNonNegative(s[..|s| - 1]);
    }
  }

  /** A sum of non-negative entries is zero only when every entry is zero. */
  lemma {:induction false} SumZero(s: Vector)
    requires forall i :: 0 <= i < |s| ==> s[i] >= 0.0
    ensures Sum(s) == 0.0 <==> forall i :: 0 <= i < |s| ==> s[i] == 0.0
  {
    if |s| > 0 {
      var init := s[..|s| - 1];
      SumZero(init);
      SumNonNegative(init);
      assert forall i :: 0 <= i < |init| ==> init[i] == s[i];
    }
  }

  /** Number of positions where the two vectors agree. */
  function MatchCount(p: Vector, y: Vector): (k: nat)
    requires |p| == |y|
    ensures k <= |p|
  {
    if |p| == 0 then 0
    else MatchCount(p[..|p| - 1], y[..|y| - 1]) + (if p[|p| - 1] == y[|y| - 1] then 1 else 0)
  }

  lemma {:induction false} MatchCountAll(p: Vector, y: Vector)
    requires |p| == |y|
    ensures MatchCount(p, y) == |p| <==> forall i :: 0 <= i < |p| ==> p[i] == y[i]
  {
    if |p| > 0 {
      MatchCountAll(p[..|p| - 1], y[..|y| - 1]);
      assert forall i :: 0 <= i < |p| - 1 ==> p[..|p| - 1][i] == p[i] && y[..|y| - 1][i] == y[i];
    }
  }

  /**
   * `np.mean(predictions == y)`: the fraction of positions that agree. It
   * lies in [0, 1] and is exactly 1 when every position agrees.
   */
  function Accuracy(p: Vector, y: Vector): (r: real)
    requires |p| == |y| > 0
    ensures 0.0 <= r <= 1.0
    ensures r == 1.0 <==> forall i :: 0 <= i < |p| ==> p[i] == y[i]
  {
    MatchCountAll(p, y);
    FractionBounds(MatchCount(p, y), |p|);
    MatchCount(p, y) as real / |p| as real
  }

  /** `k / n` for `0 <= k <= n` lies in [0, 1] and is 1 exactly when `k == n`. */
  lemma FractionBounds(k: nat, n: nat)
    requires 0 < n && k <= n
    ensures 0.0 <= k as real / n as real <= 1.0
    ensures k as real / n as real == 1.0 <==> k == n
  {
    var q, nr := k as real / n as real, n as real;
    assert q * nr == k as real;
    assert q * nr - nr == (q - 1.0) * nr;
  }
}
