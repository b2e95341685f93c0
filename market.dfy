/**
  The MarketPrice collection (backend/src/models/MarketPrice.js) and the two
  ways the core reads it: the look-back query of the calculators
  (`find({ symbol }).sort({ timestamp: -1 }).limit(n)`, then `reverse()`) and
  `getLatestPrice` of backend/src/services/marketService.js.
*/
module Market {
  import opened Wrappers
  import Text

  /** Every symbol's quotes in timestamp order, oldest first. */
  type PriceStore = map<string, seq<real>>

  function Min(a: int, b: int): int
  {
    if a <= b then a else b
  }

  /** The quotes stored under exactly this symbol; none when the symbol is unknown. */
  function History(store: PriceStore, symbol: string): seq<real>
  {
    if symbol in store then store[symbol] else []
  }

  /**
    No stored price is zero: `POST /api/market` refuses a falsy price and the
    price worker never writes one below 1. Negative prices can be posted.
  */
  ghost predicate NonZeroQuotes(store: PriceStore)
  {
    forall sym, i :: sym in store && 0 <= i < |store[sym]| ==> store[sym][i] != 0.0
  }

  /** Every stored price is positive, as in a store only the price worker has written. */
  ghost predicate PositivePrices(store: PriceStore)
  {
    forall sym, i :: sym in store && 0 <= i < |store[sym]| ==> store[sym][i] > 0.0
  }

  /** Every stored price is negative. */
  ghost predicate NegativePrices(store: PriceStore)
  {
    forall sym, i :: sym in store && 0 <= i < |store[sym]| ==> store[sym][i] < 0.0
  }

  /** Every quote of every stored symbol is the same. */
  ghost predicate FlatPrices(store: PriceStore)
  {
    forall sym, i :: sym in store && 0 <= i < |store[sym]| ==> store[sym][i] == store[sym][0]
  }

  function Reverse(s: seq<real>): (r: seq<real>)
    ensures |r| == |s|
    ensures forall i :: 0 <= i < |s| ==> r[i] == s[|s| - 1 - i]
  {
    if |s| == 0 then [] else [s[|s| - 1]] + Reverse(s[..|s| - 1])
  }

  lemma ReverseReverse(s: seq<real>)
    ensures Reverse(Reverse(s)) == s
  {
    assert forall i :: 0 <= i < |s| ==> Reverse(Reverse(s))[i] == s[i];
  }

  /** The query result: at most `limit` quotes, the newest first. */
  function NewestFirst(store: PriceStore, symbol: string, limit: nat): (r: seq<real>)
    ensures |r| == Min(limit, |History(store, symbol)|)
    ensures forall i :: 0 <= i < |r| ==>
      r[i] == History(store, symbol)[|History(store, symbol)| - 1 - i]
  {
    var h := History(store, symbol);
    Reverse(h[|h| - Min(limit, |h|)..])
  }

  /** `history.map(h => h.price).reverse()`: the queried quotes back in oldest-first order. */
  function RecentPrices(store: PriceStore, symbol: string, limit: nat): seq<real>
  {
    Reverse(NewestFirst(store, symbol, limit))
  }

  /** The reversed query result is the most recent `limit` quotes of the history, in their stored order. */
  lemma RecentPricesAreSuffix(store: PriceStore, symbol: string, limit: nat)
    ensures var h := History(store, symbol);
      RecentPrices(store, symbol, limit) == h[|h| - Min(limit, |h|)..]
  {
    var h := History(store, symbol);
    ReverseReverse(h[|h| - Min(limit, |h|)..]);
  }

  /** Every quote the calculators read is non-zero when the store's prices are. */
  lemma RecentPricesNonZero(store: PriceStore, symbol: string, limit: nat)
    requires NonZeroQuotes(store)
    ensures forall i :: 0 <= i < |RecentPrices(store, symbol, limit)| ==> RecentPrices(store, symbol, limit)[i] != 0.0
  {
    RecentPricesAreSuffix(store, symbol, limit);
  }

  /** Every quote the calculators read is negative when the store's prices are. */
  lemma RecentPricesNegative(store: PriceStore, symbol: string, limit: nat)
    requires NegativePrices(store)
    ensures forall i :: 0 <= i < |RecentPrices(store, symbol, limit)| ==> RecentPrices(store, symbol, limit)[i] < 0.0
  {
    RecentPricesAreSuffix(store, symbol, limit);
  }

  /** Every quote the calculators read is positive when the store's prices are. */
  lemma RecentPricesPositive(store: PriceStore, symbol: string, limit: nat)
    requires PositivePrices(store)
    ensures forall i :: 0 <= i < |RecentPrices(store, symbol, limit)| ==> RecentPrices(store, symbol, limit)[i] > 0.0
  {
    RecentPricesAreSuffix(store, symbol, limit);
  }

  /**
    `getLatestPrice`: the newest quote of the upper-cased symbol, or null
    (`None`) when it has none.
  */
  function LatestPrice(store: PriceStore, symbol: string): (r: Option<real>)
    ensures var h := History(store, Text.ToUpper(symbol));
      (r.None? <==> |h| == 0) && (r.Some? ==> r.value == h[|h| - 1])
  {
    var h := NewestFirst(store, Text.ToUpper(symbol), 1);
    if |h| == 0 then None else Some(h[0])
  }
}
