/**
  `covarianceMatrix` of backend/src/services/montecarloService.js: the
  sample covariance (divided by n - 1) of every pair of aligned return series,
  filled into a square buffer one upper-triangle entry and its mirror at a time.
*/
module Covariance {
  import opened Stats

  /** Aligned series: at least one, all of the same length. */
  ghost predicate Rectangular(rows: seq<seq<real>>)
  {
    |rows| > 0 && forall i :: 0 <= i < |rows| ==> |rows[i]| == |rows[0]|
  }

  /** `Σ_{t < k} (x[t] - mx) · (y[t] - my)`, accumulated from the left. */
  function CrossSum(x: seq<real>, y: seq<real>, mx: real, my: real, k: nat): real
    requires k <= |x| && k <= |y|
  {
    if k == 0 then 0.0 else CrossSum(x, y, mx, my, k - 1) + (x[k - 1] - mx) * (y[k - 1] - my)
  }

  /** The cross sum does not depend on the order of the two series. */
  lemma {:induction false} CrossSumSymmetric(x: seq<real>, y: seq<real>, mx: real, my: real, k: nat)
    requires k <= |x| && k <= |y|
    ensures CrossSum(x, y, mx, my, k) == CrossSum(y, x, my, mx, k)
  {
    if k > 0 {
      CrossSumSymmetric(x, y, mx, my, k - 1);
      assert (x[k - 1] - mx) * (y[k - 1] - my) == (y[k - 1] - my) * (x[k - 1] - mx);
    }
  }

  /** A series' cross sum with itself is a sum of squares. */
  lemma {:induction false} CrossSumSelfNonNegative(x: seq<real>, mx: real, k: nat)
    requires k <= |x|
    ensures CrossSum(x, x, mx, mx, k) >= 0.0
  {
    if k > 0 {
      CrossSumSelfNonNegative(x, mx, k - 1);
      assert (x[k - 1] - mx) * (x[k - 1] - mx) >= 0.0;
    }
  }

  /** `returnsAligned.map(r => mean(r))`. */
  function Means(rows: seq<seq<real>>): (means: seq<real>)
    ensures |means| == |rows|
    ensures forall i :: 0 <= i < |rows| ==> means[i] == Mean(rows[i])
  {
    seq(|rows|, i requires 0 <= i < |rows| => Mean(rows[i]))
  }

  /** Entry (i, j): the cross sum over the `n` aligned days divided by `n - 1`. */
  function Entry(rows: seq<seq<real>>, i: nat, j: nat): real
    requires Rectangular(rows) && |rows[0]| >= 2 && i < |rows| && j < |rows|
  {
    var n := |rows[0]|;
    CrossSum(rows[i], rows[j], Mean(rows[i]), Mean(rows[j]), n) / (n - 1) as real
  }

  /** The covariance matrix is symmetric and has a non-negative diagonal. */
  lemma EntryProperties(rows: seq<seq<real>>, i: nat, j: nat)
    requires Rectangular(rows) && |rows[0]| >= 2 && i < |rows| && j < |rows|
    ensures Entry(rows, i, j) == Entry(rows, j, i)
    ensures Entry(rows, i, i) >= 0.0
  {
    var n := |rows[0]|;
    CrossSumSymmetric(rows[i], rows[j], Mean(rows[i]), Mean(rows[j]), n);
    CrossSumSelfNonNegative(rows[i], Mean(rows[i]), n);
  }

  /** The matrix as a value: row i, column j. */
  function CovarianceOf(rows: seq<seq<real>>): (c: seq<seq<real>>)
    requires Rectangular(rows) && |rows[0]| >= 2
    ensures |c| == |rows| && forall i :: 0 <= i < |c| ==> |c[i]| == |rows|
  {
    seq(|rows|, i requires 0 <= i < |rows| => seq(|rows|, j requires 0 <= j < |rows| => Entry(rows, i, j)))
  }

  /** The buffer's contents, row by row. */
  function Rows(a: array2<real>): (m: seq<seq<real>>)
    reads a
    ensures |m| == a.Length0
    ensures forall i :: 0 <= i < a.Length0 ==> |m[i]| == a.Length1
  {
    seq(a.Length0, i requires 0 <= i < a.Length0 reads a =>
      seq(a.Length1, j requires 0 <= j < a.Length1 reads a => a[i, j]))
  }

  /** The running sum of one entry. */
  method CrossSumLoop(x: seq<real>, y: seq<real>, mx: real, my: real, n: nat) returns (s: real)
    requires n <= |x| && n <= |y|
    ensures s == CrossSum(x, y, mx, my, n)
  {
    s := 0.0;
    var k := 0;
    while k < n
      invariant 0 <= k <= n
      invariant s == CrossSum(x, y, mx, my, k)
    {
      s := s + (x[k] - mx) * (y[k] - my);
      k := k + 1;
    }
  }

  /** `covarianceMatrix(returnsAligned)`: the symmetric matrix and the means. */
  method CovarianceMatrix(rows: seq<seq<real>>) returns (cov: array2<real>, means: seq<real>)
    requires Rectangular(rows) && |rows[0]| >= 2
    ensures means == Means(rows)
    ensures fresh(cov) && cov.Length0 == |rows| && cov.Length1 == |rows|
    ensures Rows(cov) == CovarianceOf(rows)
  {
    var n := |rows[0]|;
    var m := |rows|;
    means := Means(rows);
    cov := new real[m, m]((_, _) => 0.0);
    var i := 0;
    while i < m
      invariant 0 <= i <= m
      invariant forall p, q :: 0 <= p < m && 0 <= q < m && (p < i || q < i) ==> cov[p, q] == Entry(rows, p, q)
    {
      var j := i;
      while j < m
        invariant i <= j <= m
        invariant forall p, q :: 0 <= p < m && 0 <= q < m && (p < i || q < i) ==> cov[p, q] == Entry(rows, p, q)
        invariant forall q :: i <= q < j ==> cov[i, q] == Entry(rows, i, q) && cov[q, i] == Entry(rows, q, i)
      {
        var s := CrossSumLoop(rows[i], rows[j], means[i], means[j], n);
        var value := s / (n - 1) as real;
        EntryProperties(rows, i, j);
        assert value == Entry(rows, i, j) == Entry(rows, j, i);
        cov[i, j] := value;
        cov[j, i] := value;
        j := j + 1;
      }
      i := i + 1;
    }
    assert forall p :: 0 <= p < m ==> Rows(cov)[p] == CovarianceOf(rows)[p];
  }
}
