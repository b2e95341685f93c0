/**
  `randnVec` of backend/src/services/montecarloService.js. The Box–Muller
  pairs `randnPair` would draw are an input: `draw(t)` is the t-th pair handed
  out, so a run of the calculator is a deterministic function of that stream.
*/
module Normals {

  /** The stream of standard-normal pairs. */
  type Draws = nat -> (real, real)

  /** `ceil(k / 2)`: the pairs one vector of k values consumes. */
  function PairsFor(k: nat): nat
  {
    (k + 1) / 2
  }

  /** The values of `count` pairs from `start` on, both halves of each pair in order. */
  function Flatten(draw: Draws, start: nat, count: nat): (r: seq<real>)
    ensures |r| == 2 * count
    decreases count
  {
    if count == 0 then [] else Flatten(draw, start, count - 1) + [draw(start + count - 1).0, draw(start + count - 1).1]
  }

  /** Value i of a vector that starts at pair `start`: the first or second half of pair `start + i / 2`. */
  function NormalVector(draw: Draws, start: nat, k: nat): (z: seq<real>)
    ensures |z| == k
  {
    seq(k, i requires 0 <= i < k => if i % 2 == 0 then draw(start + i / 2).0 else draw(start + i / 2).1)
  }

  lemma {:induction false} FlattenEntries(draw: Draws, start: nat, count: nat)
    ensures forall i :: 0 <= i < 2 * count ==>
      Flatten(draw, start, count)[i] == if i % 2 == 0 then draw(start + i / 2).0 else draw(start + i / 2).1
  {
    if count > 0 {
      FlattenEntries(draw, start, count - 1);
    }
  }

  /**
    A vector of k values is the first k values of its ⌈k/2⌉ pairs: it uses
    every pair in full except the last one when k is odd, whose second value
    is dropped.
  */
  lemma NormalVectorFromPairs(draw: Draws, start: nat, k: nat)
    ensures NormalVector(draw, start, k) == Flatten(draw, start, PairsFor(k))[..k]
    ensures |Flatten(draw, start, PairsFor(k))| - k == k % 2
  {
    FlattenEntries(draw, start, PairsFor(k));
  }

  /** `randnVec(k)`, reading pairs from `start` on; `next` is the first pair it leaves unread. */
  method RandnVec(k: nat, draw: Draws, start: nat) returns (out: array<real>, next: nat)
    ensures fresh(out)
    ensures out[..] == NormalVector(draw, start, k)
    ensures next == start + PairsFor(k)
  {
    out := new real[k];
    next := start;
    var i := 0;
    while i < k
      invariant 0 <= i <= k
      invariant i % 2 == 0 || i == k
      invariant next == start + (i + 1) / 2
      invariant forall t :: 0 <= t < i ==> out[t] == NormalVector(draw, start, k)[t]
    {
      var (a, b) := draw(next);
      next := next + 1;
      out[i] := a;
      i := i + 1;
      if i < k {
        out[i] := b;
        i := i + 1;
      }
    }
    assert out[..] == NormalVector(draw, start, k);
  }
}
