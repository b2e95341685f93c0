/**
  Sums, means and variances over sequences of reals, shared by the three
  Value-at-Risk calculators (the `reduce` folds and the `mean` helper of
  backend/src/services), and the square-root oracle they take as a parameter.
*/
module Stats {

  /** `arr.reduce((a, b) => a + b, 0)`, accumulated from the left. */
  function Sum(s: seq<real>): real
  {
    if |s| == 0 then 0.0 else Sum(s[..|s| - 1]) + s[|s| - 1]
  }

  /** `mean` of montecarloService.js: 0 for an empty array, the sum over the length otherwise. */
  function Mean(s: seq<real>): (m: real)
    ensures |s| == 0 ==> m == 0.0
    ensures |s| > 0 ==> m * (|s| as real) == Sum(s)
  {
    if |s| == 0 then 0.0 else Sum(s) / (|s| as real)
  }

  /** `values.reduce((sum, v) => sum + Math.pow(v - m, 2), 0)`: squared deviations from `m`. */
  function SquaredDeviations(s: seq<real>, m: real): (r: real)
    ensures r >= 0.0
  {
    if |s| == 0 then 0.0
    else
      var rest := SquaredDeviations(s[..|s| - 1], m);
      var d := s[|s| - 1] - m;
      assert d * d >= 0.0;
      rest + d * d
  }

  /** Population variance: squared deviations from the mean divided by the length. */
  function PopulationVariance(s: seq<real>): (v: real)
    requires |s| > 0
    ensures v >= 0.0
  {
    SquaredDeviations(s, Mean(s)) / (|s| as real)
  }

  /** The sum of a sequence whose every element is `c` is `|s| * c`. */
  lemma {:induction false} SumOfConstant(s: seq<real>, c: real)
    requires forall i :: 0 <= i < |s| ==> s[i] == c
    ensures Sum(s) == (|s| as real) * c
  {
    if |s| > 0 {
      SumOfConstant(s[..|s| - 1], c);
    }
  }

  /** Squared deviations of a constant sequence from that constant vanish. */
  lemma {:induction false} DeviationsOfConstant(s: seq<real>, c: real)
    requires forall i :: 0 <= i < |s| ==> s[i] == c
    ensures SquaredDeviations(s, c) == 0.0
  {
    if |s| > 0 {
      DeviationsOfConstant(s[..|s| - 1], c);
    }
  }

  /** A constant sequence has that constant as its mean and a zero population variance. */
  lemma ConstantStatistics(s: seq<real>, c: real)
    requires |s| > 0
    requires forall i :: 0 <= i < |s| ==> s[i] == c
    ensures Mean(s) == c
    ensures PopulationVariance(s) == 0.0
  {
    SumOfConstant(s, c);
    DeviationsOfConstant(s, c);
  }

  /** Bounds on the elements bound the sum. */
  lemma {:induction false} SumBounds(s: seq<real>, lo: real, hi: real)
    requires forall i :: 0 <= i < |s| ==> lo <= s[i] <= hi
    ensures (|s| as real) * lo <= Sum(s) <= (|s| as real) * hi
  {
    if |s| > 0 {
      SumBounds(s[..|s| - 1], lo, hi);
    }
  }

  /** The mean of a non-empty sequence lies between its lower and upper bounds. */
  lemma MeanBounds(s: seq<real>, lo: real, hi: real)
    requires |s| > 0
    requires forall i :: 0 <= i < |s| ==> lo <= s[i] <= hi
    ensures lo <= Mean(s) <= hi
  {
    SumBounds(s, lo, hi);
    var n := |s| as real;
    var m := Mean(s);
    assert m * n == Sum(s);
    assert (m - lo) * n >= 0.0;
    assert (hi - m) * n >= 0.0;
  }

  /**
    `Math.sqrt` is not modelled; every calculator takes the square root as a
    parameter, and this predicate says that it returns the non-negative root of
    every non-negative argument, which is positive exactly when the argument is
    (the solver does not derive that sign fact from the product alone).
  */
  ghost predicate IsSqrt(sqrt: real -> real)
  {
    forall x :: x >= 0.0 ==> sqrt(x) >= 0.0 && sqrt(x) * sqrt(x) == x && (sqrt(x) > 0.0 <==> x > 0.0)
  }

  /** The root of zero is zero. */
  lemma SqrtOfZero(sqrt: real -> real)
    requires IsSqrt(sqrt)
    ensures sqrt(0.0) == 0.0
  {
    assert sqrt(0.0) >= 0.0 && !(sqrt(0.0) > 0.0);
  }

  /** `m` is an element of `s` no larger than any other. */
  predicate IsLeast(m: nat, s: set<nat>)
  {
    m in s && forall k :: k in s ==> m <= k
  }

  /** Every non-empty finite set of naturals has a least element. */
  lemma {:induction false} SetHasMinimum(s: set<nat>)
    requires s != {}
    ensures exists m :: IsLeast(m, s)
  {
    var x :| x in s;
    var t := s - {x};
    if t == {} {
      forall k | k in s ensures x <= k {
        assert k !in t;
      }
      assert IsLeast(x, s);
    } else {
      SetHasMinimum(t);
      var m :| IsLeast(m, t);
      var least := if x < m then x else m;
      forall k | k in s ensures least <= k {
        if k != x { assert k in t; }
      }
      assert IsLeast(least, s);
    }
  }

  /** `Math.min(...lengths)` over a non-empty collection of lengths. */
  function MinOf(s: set<nat>): (m: nat)
    requires s != {}
    ensures m in s && forall k :: k in s ==> m <= k
  {
    SetHasMinimum(s);
    var m :| IsLeast(m, s); m
  }
}
