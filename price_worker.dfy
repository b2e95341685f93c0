/**
  The price simulator of backend/src/workers/priceWorker.js: on every tick
  each simulated symbol gets one new quote, a bounded random step from its
  latest quote (or from a base price when it has none), never below 1.
*/
module PriceWorker {
  import Market
  import opened Database

  /** The simulated symbols, in the order a tick visits them. */
  const Symbols: seq<string> := ["AAPL", "TSLA", "BTC-USD"]

  /** The quote a symbol without history starts from. */
  const BasePrice: real := 100.0

  /** The floor `Math.max` puts under every generated quote. */
  const Floor: real := 1.0

  /** `(Math.random() - 0.5) * 0.02`, with the uniform draw as `u`. */
  function ChangePercent(u: real): real
  {
    (u - 0.5) * 0.02
  }

  /** A draw in [0, 1) moves the quote by at least -1% and by less than +1%. */
  lemma ChangePercentRange(u: real)
    requires 0.0 <= u < 1.0
    ensures -0.01 <= ChangePercent(u) < 0.01
  {
  }

  /** `lastPrice * (1 + changePercent)`. */
  function Stepped(lastPrice: real, u: real): real
  {
    lastPrice * (1.0 + ChangePercent(u))
  }

  /** `generateNextPrice`: the stepped quote, or 1 when the step falls below 1. */
  function GenerateNextPrice(lastPrice: real, u: real): (p: real)
    ensures p >= Floor
    ensures Stepped(lastPrice, u) >= Floor ==> p == Stepped(lastPrice, u)
    ensures Stepped(lastPrice, u) < Floor ==> p == Floor
  {
    if Stepped(lastPrice, u) >= Floor then Stepped(lastPrice, u) else Floor
  }

  /** Above the floor the new quote is within 1% of the last one. */
  lemma WithinOnePercent(lastPrice: real, u: real)
    requires 0.0 <= u < 1.0 && lastPrice > 0.0
    requires Stepped(lastPrice, u) >= Floor
    ensures 0.99 * lastPrice <= GenerateNextPrice(lastPrice, u)
    ensures GenerateNextPrice(lastPrice, u) < 1.01 * lastPrice
  {
    ChangePercentRange(u);
    var c := ChangePercent(u);
    ScaleBounds(lastPrice, 1.0 + c, 0.99, 1.01);
    assert lastPrice * (1.0 + c) < 1.01 * lastPrice;
    assert GenerateNextPrice(lastPrice, u) == lastPrice * (1.0 + c);
  }

  /** Scaling by a positive amount keeps the bounds of the factor. */
  lemma ScaleBounds(a: real, x: real, lo: real, hi: real)
    requires a > 0.0 && lo <= x < hi
    ensures lo * a <= a * x < hi * a
  {
    assert a * x - lo * a == a * (x - lo);
    assert hi * a - a * x == a * (hi - x);
  }

  /** `latest ? latest.price : 100`: the newest stored quote of exactly this symbol, else the base price. */
  function BaseFor(prices: Market.PriceStore, symbol: string): (b: real)
    ensures |Market.History(prices, symbol)| == 0 ==> b == BasePrice
    ensures |Market.History(prices, symbol)| > 0 ==>
      b == Market.History(prices, symbol)[|Market.History(prices, symbol)| - 1]
  {
    var h := Market.History(prices, symbol);
    if |h| == 0 then BasePrice else h[|h| - 1]
  }

  /** Saving one quote: it becomes the newest of its symbol. */
  function Append(prices: Market.PriceStore, symbol: string, price: real): (after: Market.PriceStore)
    ensures Market.History(after, symbol) == Market.History(prices, symbol) + [price]
    ensures forall s :: s != symbol ==> Market.History(after, s) == Market.History(prices, s)
    ensures after.Keys == prices.Keys + {symbol}
  {
    prices[symbol := Market.History(prices, symbol) + [price]]
  }

  /** The store after the loop has visited `symbols` with the draws `us`, one quote each. */
  function Tick(prices: Market.PriceStore, symbols: seq<string>, us: seq<real>): Market.PriceStore
    requires |us| == |symbols|
  {
    if |symbols| == 0 then prices
    else
      var n := |symbols| - 1;
      var before := Tick(prices, symbols[..n], us[..n]);
      Append(before, symbols[n], GenerateNextPrice(BaseFor(before, symbols[n]), us[n]))
  }

  /**
    `simulatePrices`: one pass over the symbols, each quote generated from
    the symbol's newest quote and saved before the next symbol is read.
  */
  method SimulatePrices(store: Store, us: seq<real>)
    requires store.Valid() && |us| == |Symbols|
    modifies store
    ensures store.Valid()
    ensures store.prices == Tick(old(store.prices), Symbols, us)
    ensures store.portfolios == old(store.portfolios) && store.positions == old(store.positions)
    ensures store.runs == old(store.runs) && store.jobs == old(store.jobs) && store.nextId == old(store.nextId)
  {
    var i := 0;
    while i < |Symbols|
      invariant 0 <= i <= |Symbols|
      invariant store.Valid()
      invariant store.prices == Tick(old(store.prices), Symbols[..i], us[..i])
      invariant store.portfolios == old(store.portfolios) && store.positions == old(store.positions)
      invariant store.runs == old(store.runs) && store.jobs == old(store.jobs) && store.nextId == old(store.nextId)
    {
      assert Symbols[..i + 1][..i] == Symbols[..i] && us[..i + 1][..i] == us[..i];
      var symbol := Symbols[i];
      var basePrice := BaseFor(store.prices, symbol);
      var newPrice := GenerateNextPrice(basePrice, us[i]);
      AppendKeepsNonZero(store.prices, symbol, newPrice);
      store.prices := Append(store.prices, symbol, newPrice);
      i := i + 1;
    }
    assert Symbols[..|Symbols|] == Symbols && us[..|us|] == us;
  }

  /** A quote of at least 1 keeps every stored quote positive. */
  lemma AppendKeepsPositive(prices: Market.PriceStore, symbol: string, price: real)
    requires Market.PositivePrices(prices) && price >= Floor
    ensures Market.PositivePrices(Append(prices, symbol, price))
  {
    var after := Append(prices, symbol, price);
    forall s, i | s in after && 0 <= i < |after[s]| ensures after[s][i] > 0.0 {
      if s != symbol {
        assert after[s] == Market.History(prices, s) == prices[s];
      } else if i < |Market.History(prices, symbol)| {
        assert after[s][i] == Market.History(prices, symbol)[i] == prices[symbol][i];
      }
    }
  }

  /** A quote of at least 1 keeps every stored quote non-zero. */
  lemma AppendKeepsNonZero(prices: Market.PriceStore, symbol: string, price: real)
    requires Market.NonZeroQuotes(prices) && price >= Floor
    ensures Market.NonZeroQuotes(Append(prices, symbol, price))
  {
    var after := Append(prices, symbol, price);
    forall s, i | s in after && 0 <= i < |after[s]| ensures after[s][i] != 0.0 {
      if s != symbol {
        assert after[s] == Market.History(prices, s) == prices[s];
      } else if i < |Market.History(prices, symbol)| {
        assert after[s][i] == Market.History(prices, symbol)[i] == prices[symbol][i];
      }
    }
  }

  /** A tick keeps the prices positive. */
  lemma {:induction false} TickKeepsPositive(prices: Market.PriceStore, symbols: seq<string>, us: seq<real>)
    requires Market.PositivePrices(prices) && |us| == |symbols|
    ensures Market.PositivePrices(Tick(prices, symbols, us))
  {
    if |symbols| > 0 {
      var n := |symbols| - 1;
      var before := Tick(prices, symbols[..n], us[..n]);
      TickKeepsPositive(prices, symbols[..n], us[..n]);
      AppendKeepsPositive(before, symbols[n], GenerateNextPrice(BaseFor(before, symbols[n]), us[n]));
    }
  }

  /**
    Over distinct symbols a tick appends exactly one quote to each visited
    symbol, generated from that symbol's newest quote before the tick, and
    leaves every other symbol alone.
  */
  lemma {:induction false} TickAppendsOnePerSymbol(prices: Market.PriceStore, symbols: seq<string>, us: seq<real>)
    requires |us| == |symbols|
    requires forall a, b :: 0 <= a < b < |symbols| ==> symbols[a] != symbols[b]
    ensures forall k :: 0 <= k < |symbols| ==>
      Market.History(Tick(prices, symbols, us), symbols[k])
        == Market.History(prices, symbols[k]) + [GenerateNextPrice(BaseFor(prices, symbols[k]), us[k])]
    ensures forall s :: s !in symbols ==> Market.History(Tick(prices, symbols, us), s) == Market.History(prices, s)
  {
    if |symbols| > 0 {
      var n := |symbols| - 1;
      var init := symbols[..n];
      TickAppendsOnePerSymbol(prices, init, us[..n]);
      var before := Tick(prices, init, us[..n]);
      assert symbols[n] !in init;
      assert Market.History(before, symbols[n]) == Market.History(prices, symbols[n]);
      forall k | 0 <= k < n
        ensures Market.History(Tick(prices, symbols, us), symbols[k])
          == Market.History(prices, symbols[k]) + [GenerateNextPrice(BaseFor(prices, symbols[k]), us[k])]
      {
        assert init[k] == symbols[k] && us[..n][k] == us[k];
      }
    }
  }

  /** The simulated symbols are distinct, so each tick adds one quote to each of them. */
  lemma SymbolsDistinct()
    ensures forall a, b :: 0 <= a < b < |Symbols| ==> Symbols[a] != Symbols[b]
  {
  }
}
