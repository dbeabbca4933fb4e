/**
 * The BLAS operations the solvers call, as specification functions over
 * sequences. Vectors are `seq<real>`. The library stores an m x n matrix
 * column by column in a flat buffer, entry (i, j) at index i + j m; here a
 * matrix is the sequence of its n columns, and `Flat` gives back that
 * buffer (`FlatEntry` proves the index rule).
 */
module Blas {
  import opened Numeric

  /** `axpby(n, alpha, x, beta, y)`: y <- alpha x + beta y. */
  function Axpby(alpha: real, x: seq<real>, beta: real, y: seq<real>): seq<real>
    requires |x| == |y|
  {
    seq(|x|, i requires 0 <= i < |x| => alpha * x[i] + beta * y[i])
  }

  /** `scal(n, alpha, x)`: x <- alpha x. */
  function Scal(alpha: real, x: seq<real>): seq<real>
  {
    seq(|x|, i requires 0 <= i < |x| => alpha * x[i])
  }

  /** `axpby` on buffers: only y changes. */
  method AxpbyInPlace(alpha: real, x: array<real>, beta: real, y: array<real>)
    requires x.Length == y.Length && x != y
    modifies y
    ensures y[..] == Axpby(alpha, x[..], beta, old(y[..]))
  {
    var i := 0;
    while i < y.Length
      invariant 0 <= i <= y.Length
      invariant forall j :: 0 <= j < i ==> y[j] == alpha * x[j] + beta * old(y[j])
      invariant forall j :: i <= j < y.Length ==> y[j] == old(y[j])
    {
      y[i] := alpha * x[i] + beta * y[i];
      i := i + 1;
    }
    assert forall j :: 0 <= j < y.Length ==> y[..][j] == Axpby(alpha, x[..], beta, old(y[..]))[j];
  }

  /** `scal` on the range [lo, hi) of a buffer: nothing outside it changes. */
  method ScalRange(alpha: real, x: array<real>, lo: nat, hi: nat)
    requires lo <= hi <= x.Length
    modifies x
    ensures x[..] == old(x[..lo]) + Scal(alpha, old(x[lo..hi])) + old(x[hi..])
  {
    var i := lo;
    while i < hi
      invariant lo <= i <= hi
      invariant forall j :: lo <= j < i ==> x[j] == alpha * old(x[j])
      invariant forall j :: 0 <= j < x.Length && !(lo <= j < i) ==> x[j] == old(x[j])
    {
      x[i] := alpha * x[i];
      i := i + 1;
    }
    assert forall j :: 0 <= j < x.Length ==>
      x[..][j] == (old(x[..lo]) + Scal(alpha, old(x[lo..hi])) + old(x[hi..]))[j];
  }

  /** Scaling by -1 negates the sum. */
  lemma {:induction false} SumNegated(p: seq<real>)
    ensures Sum(Scal(-1.0, p)) == -Sum(p)
    decreases |p|
  {
    if |p| > 0 {
      SumNegated(p[..|p| - 1]);
      assert Scal(-1.0, p)[..|p| - 1] == Scal(-1.0, p[..|p| - 1]);
    }
  }

  /** `asum`: the sum of the magnitudes of the entries. */
  function Asum(x: seq<real>): (r: real)
    ensures r >= 0.0
    decreases |x|
  {
    if |x| == 0 then 0.0 else Asum(x[..|x| - 1]) + Abs(x[|x| - 1])
  }

  /** asum is zero exactly on the zero vector. */
  lemma {:induction false} AsumZero(x: seq<real>)
    ensures Asum(x) <= 0.0 <==> forall j :: 0 <= j < |x| ==> x[j] == 0.0
    decreases |x|
  {
    if |x| > 0 {
      var p := x[..|x| - 1];
      AsumZero(p);
      if Asum(x) <= 0.0 {
        assert Asum(p) == 0.0 && Abs(x[|x| - 1]) == 0.0;
        assert forall j :: 0 <= j < |x| - 1 ==> x[j] == p[j];
      }
    }
  }

  /** A difference y - x whose absolute sum is not positive leaves y == x. */
  lemma {:induction false} NoDifference(x: seq<real>, y: seq<real>)
    requires |x| == |y| && Asum(Axpby(-1.0, x, 1.0, y)) <= 0.0
    ensures x == y
  {
    var diff := Axpby(-1.0, x, 1.0, y);
    AsumZero(diff);
    assert forall j :: 0 <= j < |x| ==> diff[j] == -1.0 * x[j] + 1.0 * y[j];
  }

  // ---------------------------------------------------------------------
  // Matrices
  // ---------------------------------------------------------------------

  /** A rows x cols matrix, as its cols columns of rows entries each. */
  ghost predicate IsMatrix(M: seq<seq<real>>, rows: nat, cols: nat)
  {
    |M| == cols && forall j :: 0 <= j < cols ==> |M[j]| == rows
  }

  /** The column-major buffer of a matrix. */
  function Flat(M: seq<seq<real>>): (r: seq<real>)
    decreases |M|
  {
    if |M| == 0 then [] else Flat(M[..|M| - 1]) + M[|M| - 1]
  }

  /** Entry (i, j) of a rows x cols matrix sits at index i + j rows of its buffer. */
  lemma {:induction false} FlatEntry(M: seq<seq<real>>, rows: nat, cols: nat, i: nat, j: nat)
    requires IsMatrix(M, rows, cols) && i < rows && j < cols
    ensures |Flat(M)| == rows * cols && i + j * rows < |Flat(M)|
    ensures Flat(M)[i + j * rows] == M[j][i]
    decreases cols
  {
    FlatLength(M, rows, cols);
    if j < cols - 1 {
      FlatEntry(M[..cols - 1], rows, cols - 1, i, j);
      assert Flat(M) == Flat(M[..cols - 1]) + M[cols - 1];
    } else {
      FlatLength(M[..cols - 1], rows, cols - 1);
      assert (cols - 1) * rows == j * rows;
    }
  }

  lemma {:induction false} FlatLength(M: seq<seq<real>>, rows: nat, cols: nat)
    requires IsMatrix(M, rows, cols)
    ensures |Flat(M)| == rows * cols
    decreases cols
  {
    if cols > 0 {
      FlatLength(M[..cols - 1], rows, cols - 1);
      assert rows * cols == rows * (cols - 1) + rows;
    }
  }

  /** Row r of a matrix: entry r of every column. */
  function Row(M: seq<seq<real>>, r: nat): (v: seq<real>)
    requires forall j :: 0 <= j < |M| ==> r < |M[j]|
    ensures |v| == |M| && forall j :: 0 <= j < |M| ==> v[j] == M[j][r]
  {
    seq(|M|, j requires 0 <= j < |M| => M[j][r])
  }

  /** `gemv(rows, cols, M, x, y, CblasTrans)`: y = M' x, one dot product per column. */
  function GemvTrans(M: seq<seq<real>>, x: seq<real>): (y: seq<real>)
    requires forall j :: 0 <= j < |M| ==> |M[j]| == |x|
    ensures |y| == |M| && forall j :: 0 <= j < |M| ==> y[j] == Dot(M[j], x)
  {
    seq(|M|, j requires 0 <= j < |M| => Dot(M[j], x))
  }

  /** `gemv(rows, cols, M, x, y)`: y = M x, one dot product per row. */
  function Gemv(M: seq<seq<real>>, rows: nat, x: seq<real>): (y: seq<real>)
    requires |M| == |x| && forall j :: 0 <= j < |M| ==> |M[j]| == rows
    ensures |y| == rows && forall r :: 0 <= r < rows ==> y[r] == Dot(Row(M, r), x)
  {
    seq(rows, r requires 0 <= r < rows => Dot(Row(M, r), x))
  }

  /**
   * `gemm(D, T, N, X, D, A, T, W, CblasNoTrans, CblasTrans)`: W = X A' for
   * a D x N matrix X and a T x N matrix A; entry (d, j) is the dot product
   * of row d of X with row j of A.
   */
  function GemmTrans(X: seq<seq<real>>, rowsX: nat, A: seq<seq<real>>, rowsA: nat): (W: seq<seq<real>>)
    requires |X| == |A|
    requires forall i :: 0 <= i < |X| ==> |X[i]| == rowsX && |A[i]| == rowsA
    ensures IsMatrix(W, rowsX, rowsA)
    ensures forall j, d :: 0 <= j < rowsA && 0 <= d < rowsX ==> W[j][d] == Dot(Row(X, d), Row(A, j))
  {
    seq(rowsA, j requires 0 <= j < rowsA => seq(rowsX, d requires 0 <= d < rowsX => Dot(Row(X, d), Row(A, j))))
  }

  /** `ger(rows, cols, alpha, x, y, M)`: M <- M + alpha x y'. */
  function Ger(alpha: real, x: seq<real>, y: seq<real>, M: seq<seq<real>>): (W: seq<seq<real>>)
    requires IsMatrix(M, |x|, |y|)
    ensures IsMatrix(W, |x|, |y|)
    ensures forall j, d :: 0 <= j < |y| && 0 <= d < |x| ==> W[j][d] == M[j][d] + alpha * x[d] * y[j]
  {
    seq(|y|, j requires 0 <= j < |y| => seq(|x|, d requires 0 <= d < |x| => M[j][d] + alpha * x[d] * y[j]))
  }

  /** Changing entry i of b changes the dot product by a[i] times the change. */
  lemma {:induction false} DotUpdate(a: seq<real>, b: seq<real>, i: nat, v: real)
    requires |a| == |b| && i < |a|
    ensures Dot(a, b[i := v]) == Dot(a, b) + a[i] * (v - b[i])
    decreases |a|
  {
    var n := |a| - 1;
    if i < n {
      DotUpdate(a[..n], b[..n], i, v);
      assert b[i := v][..n] == b[..n][i := v];
    } else {
      assert b[i := v][..n] == b[..n];
    }
  }

  /**
   * The primal solver's rank-one step keeps W = X A': replacing column i
   * of A (the dual variables of example i) by v and subtracting
   * x_i (old - v)' from W gives X A' for the new A.
   */
  lemma {:induction false} RankOneUpdate(X: seq<seq<real>>, D: nat, A: seq<seq<real>>, T: nat, i: nat, v: seq<real>)
    requires |X| == |A| && i < |A| && |v| == T
    requires forall k :: 0 <= k < |X| ==> |X[k]| == D && |A[k]| == T
    ensures GemmTrans(X, D, A[i := v], T)
            == Ger(-1.0, X[i], Axpby(-1.0, v, 1.0, A[i]), GemmTrans(X, D, A, T))
  {
    var A' := A[i := v];
    var lhs := GemmTrans(X, D, A', T);
    var rhs := Ger(-1.0, X[i], Axpby(-1.0, v, 1.0, A[i]), GemmTrans(X, D, A, T));
    forall j, d | 0 <= j < T && 0 <= d < D
      ensures lhs[j][d] == rhs[j][d]
    {
      assert Row(A', j) == Row(A, j)[i := v[j]];
      DotUpdate(Row(X, d), Row(A, j), i, v[j]);
    }
    assert forall j :: 0 <= j < T ==> lhs[j] == rhs[j];
  }
}
