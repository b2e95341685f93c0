/**
  `cholesky` of backend/src/services/montecarloService.js and the diagonal
  fallback the calculator uses when it returns null. The factor is described
  entry by entry by `Factor` and `Dot`, which follow the row-by-row order of
  the loops.
*/
module Cholesky {
  import opened Stats
  import opened Covariance

  type Matrix = seq<seq<real>>

  ghost predicate IsSquare(a: Matrix)
  {
    forall i :: 0 <= i < |a| ==> |a[i]| == |a|
  }

  ghost predicate Symmetric(a: Matrix)
    requires IsSquare(a)
  {
    forall i, j :: 0 <= i < |a| && 0 <= j < |a| ==> a[i][j] == a[j][i]
  }

  /**
    Entry (i, j), j <= i, of the factor: the square root of the pivot on the
    diagonal, `(1 / L[j][j]) · (A[i][j] - sum)` below it. A pivot that is not
    positive makes the source return null, so its value here is never read.
  */
  function Factor(a: Matrix, sqrt: real -> real, i: nat, j: nat): real
    requires IsSquare(a) && j <= i < |a|
    decreases i, j, 1, 0
  {
    if i == j then
      var pivot := a[i][i] - Dot(a, sqrt, i, i, i);
      if pivot > 0.0 then sqrt(pivot) else 0.0
    else
      BelowDiagonal(Factor(a, sqrt, j, j), a[i][j] - Dot(a, sqrt, i, j, j))
  }

  /** `(1.0 / L[j][j]) * (A[i][j] - sum)`, on a diagonal entry that is not zero. */
  function BelowDiagonal(d: real, x: real): real
  {
    if d == 0.0 then 0.0 else (1.0 / d) * x
  }

  /** Multiplying back by a nonzero diagonal entry recovers `A[i][j] - sum`. */
  lemma BelowDiagonalInverse(d: real, x: real)
    requires d != 0.0
    ensures BelowDiagonal(d, x) * d == x
  {
  }

  /** `Σ_{k' < k} L[i][k'] · L[j][k']`, the `sum` of the innermost loop. */
  function Dot(a: Matrix, sqrt: real -> real, i: nat, j: nat, k: nat): real
    requires IsSquare(a) && k <= j <= i < |a|
    decreases i, j, 0, k
  {
    if k == 0 then 0.0 else Dot(a, sqrt, i, j, k - 1) + Factor(a, sqrt, i, k - 1) * Factor(a, sqrt, j, k - 1)
  }

  /** `A[i][i] - sum` for row i. */
  function Pivot(a: Matrix, sqrt: real -> real, i: nat): real
    requires IsSquare(a) && i < |a|
  {
    a[i][i] - Dot(a, sqrt, i, i, i)
  }

  /** Every pivot is positive: the matrix is positive definite and the source returns a factor. */
  ghost predicate PositivePivots(a: Matrix, sqrt: real -> real)
    requires IsSquare(a)
  {
    forall i :: 0 <= i < |a| ==> Pivot(a, sqrt, i) > 0.0
  }

  /** The factor as a value, with zeros above the diagonal. */
  function FactorOf(a: Matrix, sqrt: real -> real): (l: Matrix)
    requires IsSquare(a)
    ensures |l| == |a| && forall i :: 0 <= i < |l| ==> |l[i]| == |a|
    ensures forall i, j :: 0 <= i < j < |a| ==> l[i][j] == 0.0
    ensures forall i, j {:trigger l[i][j]} :: 0 <= j <= i < |a| ==> l[i][j] == Factor(a, sqrt, i, j)
  {
    seq(|a|, i requires 0 <= i < |a| =>
      seq(|a|, j requires 0 <= j < |a| => if j <= i then Factor(a, sqrt, i, j) else 0.0))
  }

  /** `Σ_{t < k} x[t] · y[t]`. */
  function RowDot(x: seq<real>, y: seq<real>, k: nat): real
    requires k <= |x| && k <= |y|
  {
    if k == 0 then 0.0 else RowDot(x, y, k - 1) + x[k - 1] * y[k - 1]
  }

  lemma {:induction false} RowDotSymmetric(x: seq<real>, y: seq<real>, k: nat)
    requires k <= |x| && k <= |y|
    ensures RowDot(x, y, k) == RowDot(y, x, k)
  {
    if k > 0 {
      RowDotSymmetric(x, y, k - 1);
    }
  }

  lemma RowDotStep(x: seq<real>, y: seq<real>, k: nat)
    requires k < |x| && k < |y|
    ensures RowDot(x, y, k + 1) == RowDot(x, y, k) + x[k] * y[k]
  {
  }

  /** Columns from j on where one of the rows is zero add nothing. */
  lemma {:induction false} RowDotZeroTail(x: seq<real>, y: seq<real>, j: nat, k: nat)
    requires j <= k <= |x| && k <= |y|
    requires forall t :: j <= t < k ==> x[t] == 0.0 || y[t] == 0.0
    ensures RowDot(x, y, k) == RowDot(x, y, j)
  {
    if k > j {
      RowDotZeroTail(x, y, j, k - 1);
    }
  }

  /** On the first j columns the rows of the factor hold exactly the entries `Dot` multiplies. */
  lemma {:induction false} RowDotIsDot(a: Matrix, sqrt: real -> real, i: nat, j: nat, k: nat)
    requires IsSquare(a) && k <= j <= i < |a|
    ensures RowDot(FactorOf(a, sqrt)[i], FactorOf(a, sqrt)[j], k) == Dot(a, sqrt, i, j, k)
  {
    if k > 0 {
      RowDotIsDot(a, sqrt, i, j, k - 1);
    }
  }

  /** The square root the source takes on the diagonal is positive. */
  lemma DiagonalPositive(a: Matrix, sqrt: real -> real, i: nat)
    requires IsSquare(a) && IsSqrt(sqrt) && i < |a| && Pivot(a, sqrt, i) > 0.0
    ensures Factor(a, sqrt, i, i) > 0.0
    ensures Factor(a, sqrt, i, i) * Factor(a, sqrt, i, i) == Pivot(a, sqrt, i)
  {
    var p := Pivot(a, sqrt, i);
    assert sqrt(p) > 0.0 && sqrt(p) * sqrt(p) == p;
  }

  /** With positive pivots the factor reproduces every entry on and below the diagonal. */
  lemma LowerEntryReconstructed(a: Matrix, sqrt: real -> real, i: nat, j: nat)
    requires IsSquare(a) && IsSqrt(sqrt) && j <= i < |a| && Pivot(a, sqrt, j) > 0.0
    ensures var l := FactorOf(a, sqrt); Dot(a, sqrt, i, j, j) + l[i][j] * l[j][j] == a[i][j]
  {
    DiagonalPositive(a, sqrt, j);
    var d := Factor(a, sqrt, j, j);
    if i != j {
      var x := a[i][j] - Dot(a, sqrt, i, j, j);
      assert Factor(a, sqrt, i, j) == BelowDiagonal(d, x);
      BelowDiagonalInverse(d, x);
    }
    var l := FactorOf(a, sqrt);
    assert l[i][j] == Factor(a, sqrt, i, j) && l[j][j] == d;
  }

  /**
    The promise of the doc comment, `L · Lᵀ = A`: on a symmetric matrix whose
    pivots are all positive, the product of any two rows of the factor is the
    matching entry of the matrix.
  */
  lemma FactorTimesTranspose(a: Matrix, sqrt: real -> real)
    requires IsSquare(a) && Symmetric(a) && IsSqrt(sqrt) && PositivePivots(a, sqrt)
    ensures var l := FactorOf(a, sqrt);
      forall i, j :: 0 <= i < |a| && 0 <= j < |a| ==> RowDot(l[i], l[j], |a|) == a[i][j]
  {
    var l := FactorOf(a, sqrt);
    forall i, j | 0 <= i < |a| && 0 <= j < |a| ensures RowDot(l[i], l[j], |a|) == a[i][j] {
      if j <= i {
        LowerEntryReconstructed(a, sqrt, i, j);
        LowerRowProduct(a, sqrt, i, j);
      } else {
        LowerEntryReconstructed(a, sqrt, j, i);
        LowerRowProduct(a, sqrt, j, i);
        RowDotSymmetric(l[i], l[j], |a|);
      }
    }
  }

  /** One entry on or below the diagonal of `L · Lᵀ`. */
  lemma LowerRowProduct(a: Matrix, sqrt: real -> real, i: nat, j: nat)
    requires IsSquare(a) && j <= i < |a|
    requires var l := FactorOf(a, sqrt); Dot(a, sqrt, i, j, j) + l[i][j] * l[j][j] == a[i][j]
    ensures RowDot(FactorOf(a, sqrt)[i], FactorOf(a, sqrt)[j], |a|) == a[i][j]
  {
    var l := FactorOf(a, sqrt);
    RowDotIsDot(a, sqrt, i, j, j);
    assert forall t :: j < t < |a| ==> l[j][t] == 0.0;
    RowDotStep(l[i], l[j], j);
    RowDotZeroTail(l[i], l[j], j + 1, |a|);
  }

  /**
    A row product where one of the rows is zero after column j: the first j
    columns and column j, whose entries are `p` and `q`.
  */
  lemma RowDotSplit(x: seq<real>, y: seq<real>, j: nat, n: nat, p: real, q: real)
    requires j < n <= |x| && n <= |y| && x[j] == p && y[j] == q
    requires forall t :: j < t < n ==> x[t] == 0.0 || y[t] == 0.0
    ensures RowDot(x, y, n) == RowDot(x, y, j) + p * q
  {
    RowDotStep(x, y, j);
    RowDotZeroTail(x, y, j + 1, n);
  }

  /** The factor is lower triangular with a positive diagonal. */
  lemma FactorShape(a: Matrix, sqrt: real -> real)
    requires IsSquare(a) && IsSqrt(sqrt) && PositivePivots(a, sqrt)
    ensures var l := FactorOf(a, sqrt);
      && (forall i, j :: 0 <= i < j < |a| ==> l[i][j] == 0.0)
      && (forall i :: 0 <= i < |a| ==> l[i][i] > 0.0)
  {
    forall i | 0 <= i < |a| ensures FactorOf(a, sqrt)[i][i] > 0.0 {
      DiagonalPositive(a, sqrt, i);
    }
  }

  /** The innermost loop: `sum += L[i][k] * L[j][k]` over the first j columns. */
  method DotLoop(l: array2<real>, ghost a: Matrix, sqrt: real -> real, i: nat, j: nat) returns (sum: real)
    requires IsSquare(a) && j <= i < |a| && l.Length0 == |a| && l.Length1 == |a|
    requires forall c :: 0 <= c < j ==> l[i, c] == Factor(a, sqrt, i, c) && l[j, c] == Factor(a, sqrt, j, c)
    ensures sum == Dot(a, sqrt, i, j, j)
  {
    sum := 0.0;
    var k := 0;
    while k < j
      invariant 0 <= k <= j
      invariant sum == Dot(a, sqrt, i, j, k)
    {
      sum := sum + l[i, k] * l[j, k];
      k := k + 1;
    }
  }

  /**
    One pass of the middle loop: entry (i, j) from the entries to its left
    and the finished rows above, or `false` when it is a pivot that is not
    positive. Only entry (i, j) changes.
  */
  method FillEntry(a: array2<real>, buffer: array2<real>, ghost m: Matrix, sqrt: real -> real, i: nat, j: nat)
    returns (ok: bool)
    requires buffer != a && a.Length0 == a.Length1 && m == Rows(a)
    requires buffer.Length0 == |m| && buffer.Length1 == |m|
    requires IsSquare(m) && IsSqrt(sqrt) && j <= i < |m|
    requires forall r :: 0 <= r < i ==> Pivot(m, sqrt, r) > 0.0
    requires forall r, c :: 0 <= c <= r < i ==> buffer[r, c] == Factor(m, sqrt, r, c)
    requires forall c :: 0 <= c < j ==> buffer[i, c] == Factor(m, sqrt, i, c)
    modifies buffer
    ensures ok <==> i != j || Pivot(m, sqrt, i) > 0.0
    ensures ok ==> buffer[i, j] == Factor(m, sqrt, i, j)
    ensures forall r, c :: 0 <= r < |m| && 0 <= c < |m| && (r != i || c != j) ==> buffer[r, c] == old(buffer[r, c])
  {
    var sum := DotLoop(buffer, m, sqrt, i, j);
    if i == j {
      var val := a[i, i] - sum;
      if val <= 0.0 {
        return false;
      }
      buffer[i, j] := sqrt(val);
    } else {
      DiagonalPositive(m, sqrt, j);
      buffer[i, j] := BelowDiagonal(buffer[j, j], a[i, j] - sum);
    }
    return true;
  }

  /**
    One pass of the outer loop: row i of the factor, column by column, or
    `false` as soon as its pivot is not positive. Only row i changes.
  */
  method FillRow(a: array2<real>, buffer: array2<real>, ghost m: Matrix, sqrt: real -> real, i: nat) returns (ok: bool)
    requires buffer != a && a.Length0 == a.Length1 && m == Rows(a)
    requires buffer.Length0 == |m| && buffer.Length1 == |m|
    requires IsSquare(m) && IsSqrt(sqrt) && i < |m|
    requires forall r :: 0 <= r < i ==> Pivot(m, sqrt, r) > 0.0
    requires forall r, c :: 0 <= c <= r < i ==> buffer[r, c] == Factor(m, sqrt, r, c)
    modifies buffer
    ensures ok <==> Pivot(m, sqrt, i) > 0.0
    ensures ok ==> forall c :: 0 <= c <= i ==> buffer[i, c] == Factor(m, sqrt, i, c)
    ensures forall r, c :: 0 <= r < |m| && 0 <= c < |m| && (r != i || c > i) ==> buffer[r, c] == old(buffer[r, c])
  {
    var j := 0;
    while j <= i
      invariant 0 <= j <= i + 1
      invariant j == i + 1 ==> Pivot(m, sqrt, i) > 0.0
      invariant forall c :: 0 <= c < j ==> buffer[i, c] == Factor(m, sqrt, i, c)
      invariant forall r, c :: 0 <= r < |m| && 0 <= c < |m| && (r != i || c >= j) ==> buffer[r, c] == old(buffer[r, c])
    {
      ok := FillEntry(a, buffer, m, sqrt, i, j);
      if !ok {
        assert i == j;
        return;
      }
      j := j + 1;
    }
    ok := true;
  }

  /**
    `cholesky(A)`: null exactly when some pivot is not positive, and otherwise
    the factor, lower triangular.
  */
  method Cholesky(a: array2<real>, sqrt: real -> real) returns (l: array2?<real>)
    requires a.Length0 == a.Length1 && IsSqrt(sqrt)
    ensures IsSquare(Rows(a))
    ensures l == null <==> !PositivePivots(Rows(a), sqrt)
    ensures l != null ==> fresh(l) && Rows(l) == FactorOf(Rows(a), sqrt)
  {
    ghost var m := Rows(a);
    var n := a.Length0;
    var buffer := new real[n, n]((_, _) => 0.0);
    var i := 0;
    while i < n
      invariant 0 <= i <= n
      invariant forall r :: 0 <= r < i ==> Pivot(m, sqrt, r) > 0.0
      invariant forall r, c :: 0 <= r < n && 0 <= c < n ==>
        buffer[r, c] == if r < i && c <= r then Factor(m, sqrt, r, c) else 0.0
    {
      var ok := FillRow(a, buffer, m, sqrt, i);
      if !ok {
        return null;
      }
      i := i + 1;
    }
    l := buffer;
    assert forall r :: 0 <= r < n ==> Rows(l)[r] == FactorOf(m, sqrt)[r];
  }

  /** The fallback: the square roots of the variances on the diagonal, zeros elsewhere. */
  function DiagonalOf(a: Matrix, sqrt: real -> real): (l: Matrix)
    requires IsSquare(a)
    ensures |l| == |a| && forall i :: 0 <= i < |l| ==> |l[i]| == |a|
  {
    seq(|a|, i requires 0 <= i < |a| =>
      seq(|a|, j requires 0 <= j < |a| => if i == j then sqrt(a[i][i]) else 0.0))
  }

  /**
    The diagonal fallback treats the assets as independent: its product with
    its transpose keeps the variances and drops every covariance.
  */
  lemma DiagonalTimesTranspose(a: Matrix, sqrt: real -> real)
    requires IsSquare(a) && IsSqrt(sqrt)
    requires forall i :: 0 <= i < |a| ==> a[i][i] >= 0.0
    ensures var l := DiagonalOf(a, sqrt);
      forall i, j :: 0 <= i < |a| && 0 <= j < |a| ==>
        RowDot(l[i], l[j], |a|) == if i == j then a[i][i] else 0.0
  {
    forall i, j | 0 <= i < |a| && 0 <= j < |a|
      ensures RowDot(DiagonalOf(a, sqrt)[i], DiagonalOf(a, sqrt)[j], |a|) == if i == j then a[i][i] else 0.0
    {
      if i == j {
        assert sqrt(a[i][i]) * sqrt(a[i][i]) == a[i][i];
        DiagonalOnEntry(a, sqrt, i);
      } else {
        DiagonalOffEntry(a, sqrt, i, j);
      }
    }
  }

  /** A diagonal entry of the product of the diagonal fallback with its transpose. */
  lemma DiagonalOnEntry(a: Matrix, sqrt: real -> real, i: nat)
    requires IsSquare(a) && i < |a| && sqrt(a[i][i]) * sqrt(a[i][i]) == a[i][i]
    ensures RowDot(DiagonalOf(a, sqrt)[i], DiagonalOf(a, sqrt)[i], |a|) == a[i][i]
  {
    var x := DiagonalOf(a, sqrt)[i];
    var r := sqrt(a[i][i]);
    assert forall t :: 0 <= t < |a| && t != i ==> x[t] == 0.0;
    RowDotZeroPrefix(x, x, i);
    RowDotSplit(x, x, i, |a|, r, r);
  }

  /** An entry off the diagonal of the product of the diagonal fallback with its transpose. */
  lemma DiagonalOffEntry(a: Matrix, sqrt: real -> real, i: nat, j: nat)
    requires IsSquare(a) && i < |a| && j < |a| && i != j
    ensures RowDot(DiagonalOf(a, sqrt)[i], DiagonalOf(a, sqrt)[j], |a|) == 0.0
  {
    var x, y := DiagonalOf(a, sqrt)[i], DiagonalOf(a, sqrt)[j];
    assert forall t :: 0 <= t < |a| && t != i ==> x[t] == 0.0;
    assert forall t :: 0 <= t < |a| && t != j ==> y[t] == 0.0;
    RowDotZeroPrefix(x, y, |a|);
  }

  /** Columns where one row is zero add nothing. */
  lemma {:induction false} RowDotZeroPrefix(x: seq<real>, y: seq<real>, k: nat)
    requires k <= |x| && k <= |y|
    requires forall t :: 0 <= t < k ==> x[t] == 0.0 || y[t] == 0.0
    ensures RowDot(x, y, k) == 0.0
  {
    if k > 0 {
      RowDotZeroPrefix(x, y, k - 1);
    }
  }

  /** `Array.from(…, (_, i) => Array.from(…, (_, j) => i === j ? Math.sqrt(cov[i][i]) : 0))`. */
  method DiagonalFallback(cov: array2<real>, sqrt: real -> real) returns (l: array2<real>)
    requires cov.Length0 == cov.Length1
    ensures IsSquare(Rows(cov))
    ensures fresh(l) && Rows(l) == DiagonalOf(Rows(cov), sqrt)
  {
    var n := cov.Length0;
    var variances := seq(n, i requires 0 <= i < n reads cov => cov[i, i]);
    l := new real[n, n]((i, j) requires 0 <= i < n && 0 <= j < n => if i == j then sqrt(variances[i]) else 0.0);
    assert forall r :: 0 <= r < n ==> Rows(l)[r] == DiagonalOf(Rows(cov), sqrt)[r];
  }
}
