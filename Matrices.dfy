/**
 * Two-dimensional numpy arrays over the reals, as a sequence of rows. The
 * column count is passed explicitly so that shapes such as (0, c) keep their
 * width. Only the operations the networks use are defined: `np.dot`, `.T`,
 * row broadcasting of a (1, c) bias, elementwise products and maps, scaling,
 * column sums and means, the `a - y.reshape(-1, 1)` broadcast and `flatten`.
 */
module Matrices {
  import opened Vectors

  type Matrix = seq<seq<real>>

  /** `M.shape == (r, c)`. */
  predicate IsShape(M: Matrix, r: nat, c: nat)
  {
    |M| == r && forall i :: 0 <= i < r ==> |M[i]| == c
  }

  /** `np.zeros((r, c))`. */
  function Zeros(r: nat, c: nat): (Z: Matrix)
    ensures IsShape(Z, r, c)
    ensures forall i, j :: 0 <= i < r && 0 <= j < c ==> Z[i][j] == 0.0
  {
    seq(r, i => seq(c, j => 0.0))
  }

  predicate IsZero(M: Matrix)
  {
    forall i, j :: 0 <= i < |M| && 0 <= j < |M[i]| ==> M[i][j] == 0.0
  }

  /** Column `j` of `B`, `B[:, j]`. */
  function Column(B: Matrix, j: nat): (col: Vector)
    requires forall k :: 0 <= k < |B| ==> j < |B[k]|
    ensures |col| == |B|
    ensures forall k :: 0 <= k < |B| ==> col[k] == B[k][j]
  {
    seq(|B|, k requires 0 <= k < |B| => B[k][j])
  }

  /** `np.dot(A, B)` for `A` of shape (m, n) and `B` of shape (n, p). */
  function MatMul(A: Matrix, B: Matrix, n: nat, p: nat): (C: Matrix)
    requires IsShape(A, |A|, n) && IsShape(B, n, p)
    ensures IsShape(C, |A|, p)
    ensures forall i, j :: 0 <= i < |A| && 0 <= j < p ==> C[i][j] == Dot(A[i], Column(B, j))
  {
    seq(|A|, i requires 0 <= i < |A| => seq(p, j requires 0 <= j < p => Dot(A[i], Column(B, j))))
  }

  /** `A.T` for `A` of shape (m, c). */
  function Transpose(A: Matrix, c: nat): (T: Matrix)
    requires IsShape(A, |A|, c)
    ensures IsShape(T, c, |A|)
    ensures forall i, j :: 0 <= i < c && 0 <= j < |A| ==> T[i][j] == A[j][i]
  {
    seq(c, i requires 0 <= i < c => seq(|A|, j requires 0 <= j < |A| => A[j][i]))
  }

  /** `A + b` where the (1, c) row `b` is broadcast over every row of `A`. */
  function AddRow(A: Matrix, b: Matrix, c: nat): (S: Matrix)
    requires IsShape(A, |A|, c) && IsShape(b, 1, c)
    ensures IsShape(S, |A|, c)
    ensures forall i, j :: 0 <= i < |A| && 0 <= j < c ==> S[i][j] == A[i][j] + b[0][j]
  {
    seq(|A|, i requires 0 <= i < |A| => seq(c, j requires 0 <= j < c => A[i][j] + b[0][j]))
  }

  /** `A * B`, elementwise. */
  function Hadamard(A: Matrix, B: Matrix, c: nat): (H: Matrix)
    requires IsShape(A, |A|, c) && IsShape(B, |A|, c)
    ensures IsShape(H, |A|, c)
    ensures forall i, j :: 0 <= i < |A| && 0 <= j < c ==> H[i][j] == A[i][j] * B[i][j]
  {
    seq(|A|, i requires 0 <= i < |A| => seq(c, j requires 0 <= j < c => A[i][j] * B[i][j]))
  }

  /** An elementwise numpy function `f(A)`. */
  function Apply(f: real -> real, A: Matrix, c: nat): (F: Matrix)
    requires IsShape(A, |A|, c)
    ensures IsShape(F, |A|, c)
    ensures forall i, j :: 0 <= i < |A| && 0 <= j < c ==> F[i][j] == f(A[i][j])
  {
    seq(|A|, i requires 0 <= i < |A| => seq(c, j requires 0 <= j < c => f(A[i][j])))
  }

  /** `k * A`. */
  function Scale(k: real, A: Matrix, c: nat): (K: Matrix)
    requires IsShape(A, |A|, c)
    ensures IsShape(K, |A|, c)
    ensures forall i, j :: 0 <= i < |A| && 0 <= j < c ==> K[i][j] == k * A[i][j]
  {
    seq(|A|, i requires 0 <= i < |A| => seq(c, j requires 0 <= j < c => k * A[i][j]))
  }

  /** `A - B`. */
  function Sub(A: Matrix, B: Matrix, c: nat): (D: Matrix)
    requires IsShape(A, |A|, c) && IsShape(B, |A|, c)
    ensures IsShape(D, |A|, c)
    ensures forall i, j :: 0 <= i < |A| && 0 <= j < c ==> D[i][j] == A[i][j] - B[i][j]
  {
    seq(|A|, i requires 0 <= i < |A| => seq(c, j requires 0 <= j < c => A[i][j] - B[i][j]))
  }

  /** `np.sum(D, axis=0, keepdims=True)`, of shape (1, c). */
  function ColumnSum(D: Matrix, c: nat): (S: Matrix)
    requires IsShape(D, |D|, c)
    ensures IsShape(S, 1, c)
    ensures forall j :: 0 <= j < c ==> S[0][j] == Sum(Column(D, j))
  {
    [seq(c, j requires 0 <= j < c => Sum(Column(D, j)))]
  }

  /** `np.mean(D, axis=0, keepdims=True)`, of shape (1, c). */
  function ColumnMean(D: Matrix, c: nat): (S: Matrix)
    requires IsShape(D, |D|, c) && |D| > 0
    ensures IsShape(S, 1, c)
    ensures forall j :: 0 <= j < c ==> S[0][j] == Mean(Column(D, j))
  {
    [seq(c, j requires 0 <= j < c => Mean(Column(D, j)))]
  }

  /** `A - y.reshape(-1, 1)`: label `y[i]` is broadcast along row `i`. */
  function SubLabels(A: Matrix, y: Vector, c: nat): (D: Matrix)
    requires IsShape(A, |y|, c)
    ensures IsShape(D, |y|, c)
    ensures forall i, j :: 0 <= i < |y| && 0 <= j < c ==> D[i][j] == A[i][j] - y[i]
  {
    seq(|y|, i requires 0 <= i < |y| => seq(c, j requires 0 <= j < c => A[i][j] - y[i]))
  }

  /** `M.flatten()`, row after row. */
  function Flatten(M: Matrix): (v: Vector)
  {
    if |M| == 0 then [] else M[0] + Flatten(M[1..])
  }

  /** Flattening an (m, 1) matrix gives its single column, one entry per row. */
  lemma {:induction false} FlattenColumn(M: Matrix)
    requires IsShape(M, |M|, 1)
    ensures |Flatten(M)| == |M|
    ensures forall i :: 0 <= i < |M| ==> Flatten(M)[i] == M[i][0]
  {
    if |M| > 0 {
      FlattenColumn(M[1..]);
    }
  }

  lemma {:induction false} DotZeroLeft(u: Vector, v: Vector)
    requires |u| == |v|
    requires forall k :: 0 <= k < |u| ==> u[k] == 0.0
    ensures Dot(u, v) == 0.0
  {
    if |u| > 0 {
      DotZeroLeft(u[1..], v[1..]);
    }
  }

  lemma {:induction false} DotZeroRight(u: Vector, v: Vector)
    requires |u| == |v|
    requires forall k :: 0 <= k < |v| ==> v[k] == 0.0
    ensures Dot(u, v) == 0.0
  {
    if |u| > 0 {
      DotZeroRight(u[1..], v[1..]);
    }
  }

  /** A zero left factor gives a zero product. */
  lemma MatMulZeroLeft(A: Matrix, B: Matrix, n: nat, p: nat)
    requires IsShape(A, |A|, n) && IsShape(B, n, p) && IsZero(A)
    ensures IsZero(MatMul(A, B, n, p))
  {
    forall i, j | 0 <= i < |A| && 0 <= j < p
      ensures MatMul(A, B, n, p)[i][j] == 0.0
    {
      DotZeroLeft(A[i], Column(B, j));
    }
  }

  /** A zero right factor gives a zero product. */
  lemma MatMulZeroRight(A: Matrix, B: Matrix, n: nat, p: nat)
    requires IsShape(A, |A|, n) && IsShape(B, n, p) && IsZero(B)
    ensures IsZero(MatMul(A, B, n, p))
  {
    forall i, j | 0 <= i < |A| && 0 <= j < p
      ensures MatMul(A, B, n, p)[i][j] == 0.0
    {
      DotZeroRight(A[i], Column(B, j));
    }
  }

  lemma {:induction false} SumZeroEntries(s: Vector)
    requires forall k :: 0 <= k < |s| ==> s[k] == 0.0
    ensures Sum(s) == 0.0
  {
    if |s| > 0 {
      SumZeroEntries(s[..|s| - 1]);
    }
  }

  /** The column sums and column means of a zero matrix are zero. */
  lemma ColumnSumZero(D: Matrix, c: nat)
    requires IsShape(D, |D|, c) && IsZero(D)
    ensures IsZero(ColumnSum(D, c))
    ensures |D| > 0 ==> IsZero(ColumnMean(D, c))
  {
    forall j | 0 <= j < c
      ensures Sum(Column(D, j)) == 0.0
    {
      SumZeroEntries(Column(D, j));
    }
  }

  /** Subtracting a scaled zero matrix leaves `A` as it was. */
  lemma SubScaledZero(A: Matrix, k: real, G: Matrix, c: nat)
    requires IsShape(A, |A|, c) && IsShape(G, |A|, c) && IsZero(G)
    ensures Sub(A, Scale(k, G, c), c) == A
  {
    var D := Sub(A, Scale(k, G, c), c);
    forall i | 0 <= i < |A|
      ensures D[i] == A[i]
    {
      assert forall j :: 0 <= j < c ==> D[i][j] == A[i][j];
    }
  }

  /** `np.mean(D, axis=0)` equals `(1/m) * np.sum(D, axis=0)`. */
  lemma ColumnMeanIsScaledSum(D: Matrix, c: nat)
    requires IsShape(D, |D|, c) && |D| > 0
    ensures ColumnMean(D, c) == Scale(1.0 / |D| as real, ColumnSum(D, c), c)
  {
    var m := |D| as real;
    var lhs := ColumnMean(D, c);
    var rhs := Scale(1.0 / m, ColumnSum(D, c), c);
    forall j | 0 <= j < c
      ensures lhs[0][j] == rhs[0][j]
    {
      var s := Sum(Column(D, j));
      assert lhs[0][j] == s / m;
      assert rhs[0][j] == (1.0 / m) * s;
      DivIsScale(s, m);
    }
    assert lhs[0] == rhs[0];
  }

  lemma DivIsScale(s: real, m: real)
    requires m > 0.0
    ensures s / m == (1.0 / m) * s
  {
  }

  /** Scaling twice is scaling once by the product. */
  lemma ScaleScale(a: real, b: real, A: Matrix, c: nat)
    requires IsShape(A, |A|, c)
    ensures Scale(a, Scale(b, A, c), c) == Scale(a * b, A, c)
  {
    var L, R := Scale(a, Scale(b, A, c), c), Scale(a * b, A, c);
    forall i | 0 <= i < |A|
      ensures L[i] == R[i]
    {
      forall j | 0 <= j < c
        ensures L[i][j] == R[i][j]
      {
        assert a * (b * A[i][j]) == (a * b) * A[i][j];
      }
    }
  }

  /** Flattening an (r, c) matrix gives `r * c` entries. */
  lemma {:induction false} FlattenLength(M: Matrix, c: nat)
    requires IsShape(M, |M|, c)
    ensures |Flatten(M)| == |M| * c
  {
    if |M| > 0 {
      FlattenLength(M[1..], c);
    }
  }
}
