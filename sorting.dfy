/**
  The ascending numeric sort `xs.sort((a, b) => a - b)` used by the historical and
  Monte Carlo calculators, modelled on values as an insertion sort.
*/
module Sorting {

  predicate SortedAsc(s: seq<real>)
  {
    forall i, j :: 0 <= i < j < |s| ==> s[i] <= s[j]
  }

  /** Inserts `x` into an ascending sequence, keeping it ascending. */
  function Insert(s: seq<real>, x: real): (r: seq<real>)
    requires SortedAsc(s)
    ensures SortedAsc(r)
    ensures multiset(r) == multiset(s) + multiset{x}
    ensures |r| == |s| + 1
    ensures forall k :: 0 <= k < |r| ==> r[k] == x || r[k] in s
  {
    if |s| == 0 then [x]
    else if x <= s[0] then [x] + s
    else
      var tail := Insert(s[1..], x);
      assert s == [s[0]] + s[1..];
      [s[0]] + tail
  }

  /** The ascending permutation of `s`. */
  function SortAscending(s: seq<real>): (r: seq<real>)
    ensures SortedAsc(r)
    ensures multiset(r) == multiset(s)
    ensures |r| == |s|
  {
    if |s| == 0 then []
    else
      assert s == s[..|s| - 1] + [s[|s| - 1]];
      Insert(SortAscending(s[..|s| - 1]), s[|s| - 1])
  }

  /** Every element of the sorted sequence is one of the input's, and conversely. */
  lemma SortKeepsElements(s: seq<real>, x: real)
    ensures x in SortAscending(s) <==> x in s
  {
    var r := SortAscending(s);
    assert x in r <==> x in multiset(r);
    assert x in s <==> x in multiset(s);
  }

  /** Sorting a single value leaves it in place. */
  lemma SortSingleton(x: real)
    ensures SortAscending([x]) == [x]
  {
    var r := SortAscending([x]);
    assert |r| == 1;
    assert r[0] in multiset(r);
  }

  /** The tail of an ascending sequence is ascending. */
  lemma SortedTail(s: seq<real>)
    requires SortedAsc(s) && |s| > 0
    ensures SortedAsc(s[1..])
  {
    forall i, j | 0 <= i < j < |s| - 1 ensures s[1..][i] <= s[1..][j] {
      assert s[1..][i] == s[i + 1] && s[1..][j] == s[j + 1];
    }
  }

  /** The head of an ascending sequence is at most every element. */
  lemma HeadIsLeast(s: seq<real>, x: real)
    requires SortedAsc(s) && x in s
    ensures s[0] <= x
  {
    var j :| 0 <= j < |s| && s[j] == x;
    if j > 0 { assert s[0] <= s[j]; }
  }

  /** Two ascending sequences with the same elements are equal. */
  lemma {:induction false} SortedPermutationUnique(a: seq<real>, b: seq<real>)
    requires SortedAsc(a) && SortedAsc(b) && multiset(a) == multiset(b)
    ensures a == b
    decreases |a|
  {
    assert |a| == |multiset(a)| == |multiset(b)| == |b|;
    if |a| > 0 {
      assert a[0] in multiset(b) && b[0] in multiset(a);
      HeadIsLeast(a, b[0]);
      HeadIsLeast(b, a[0]);
      assert a[0] == b[0];
      assert a == [a[0]] + a[1..] && b == [b[0]] + b[1..];
      assert multiset(a[1..]) == multiset(a) - multiset{a[0]};
      assert multiset(b[1..]) == multiset(b) - multiset{b[0]};
      SortedTail(a);
      SortedTail(b);
      SortedPermutationUnique(a[1..], b[1..]);
    }
  }
}
