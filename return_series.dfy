/**
  The pipeline the three Value-at-Risk calculators share: the look-back price
  series of every usable symbol, the simple-return series, their alignment on
  the most recent `numDays` entries, and the latest-price-weighted portfolio
  return of each aligned day (backend/src/services/varService.js and
  backend/src/services/historicalVarService.js run the same day loop).
*/
module ReturnSeries {
  import opened Wrappers
  import opened Stats
  import Market
  import PositionModel

  type Position = PositionModel.Position

  /** Why a calculator produces no storable result. */
  datatype VaRError =
    | InsufficientData     // the thrown "No sufficient / Insufficient … price data"
    | UndefinedSeries      // a position whose symbol has no series: a TypeError on `undefined.slice`
    | NotANumber           // a result that would hold NaN, which no number path of a record accepts
    | InvalidArrayLength   // `new Array(simulations)` with a negative length

  /** A JavaScript object keyed by symbol. */
  type Series = map<string, seq<real>>

  predicate HasSymbol(ps: seq<Position>, symbol: string)
  {
    exists i :: 0 <= i < |ps| && ps[i].symbol == symbol
  }

  /**
    The fetch loop: every position's look-back window, kept only when it
    holds at least two prices.
  */
  function PriceSeries(store: Market.PriceStore, ps: seq<Position>, days: nat): Series
  {
    if |ps| == 0 then map[]
    else
      var prev := PriceSeries(store, ps[..|ps| - 1], days);
      var h := Market.RecentPrices(store, ps[|ps| - 1].symbol, days);
      if |h| < 2 then prev else prev[ps[|ps| - 1].symbol := h]
  }

  /** Every position's look-back window holds at least n quotes. */
  ghost predicate WindowsAtLeast(store: Market.PriceStore, ps: seq<Position>, days: nat, n: nat)
  {
    forall i :: 0 <= i < |ps| ==> |Market.RecentPrices(store, ps[i].symbol, days)| >= n
  }

  /** Some position's look-back window holds at least n quotes. */
  ghost predicate SomeWindowAtLeast(store: Market.PriceStore, ps: seq<Position>, days: nat, n: nat)
  {
    exists i :: 0 <= i < |ps| && |Market.RecentPrices(store, ps[i].symbol, days)| >= n
  }

  /**
    A symbol has a series exactly when some position holds it and its window
    holds two prices or more; the series is that window, oldest first.
  */
  lemma {:induction false} PriceSeriesContents(store: Market.PriceStore, ps: seq<Position>, days: nat)
    ensures forall sym :: sym in PriceSeries(store, ps, days) <==>
      HasSymbol(ps, sym) && |Market.RecentPrices(store, sym, days)| >= 2
    ensures forall sym :: sym in PriceSeries(store, ps, days) ==>
      PriceSeries(store, ps, days)[sym] == Market.RecentPrices(store, sym, days)
  {
    if |ps| > 0 {
      var init := ps[..|ps| - 1];
      PriceSeriesContents(store, init, days);
      forall sym ensures HasSymbol(ps, sym) <==> HasSymbol(init, sym) || ps[|ps| - 1].symbol == sym {
        if HasSymbol(ps, sym) {
          var i :| 0 <= i < |ps| && ps[i].symbol == sym;
          if i < |ps| - 1 { assert init[i].symbol == sym; }
        }
        if HasSymbol(init, sym) {
          var i :| 0 <= i < |init| && init[i].symbol == sym;
          assert ps[i].symbol == sym;
        }
      }
    }
  }

  /** The fetch loop as the handlers write it. */
  method CollectPriceSeries(store: Market.PriceStore, ps: seq<Position>, days: nat) returns (series: Series)
    ensures series == PriceSeries(store, ps, days)
  {
    series := map[];
    var k := 0;
    while k < |ps|
      invariant 0 <= k <= |ps|
      invariant series == PriceSeries(store, ps[..k], days)
    {
      PriceSeriesStep(store, ps, k, days);
      var history := Market.RecentPrices(store, ps[k].symbol, days);
      if |history| >= 2 {
        series := series[ps[k].symbol := history];
      }
      k := k + 1;
    }
    assert ps[..|ps|] == ps;
  }

  /** Position k adds its window to the series of the positions before it when the window has two prices. */
  lemma PriceSeriesStep(store: Market.PriceStore, ps: seq<Position>, k: nat, days: nat)
    requires k < |ps|
    ensures var history := Market.RecentPrices(store, ps[k].symbol, days);
      PriceSeries(store, ps[..k + 1], days)
        == if |history| >= 2 then PriceSeries(store, ps[..k], days)[ps[k].symbol := history] else PriceSeries(store, ps[..k], days)
  {
    assert ps[..k + 1][..k] == ps[..k];
  }

  ghost predicate NonZeroPrices(p: seq<real>)
  {
    forall i :: 0 <= i < |p| ==> p[i] != 0.0
  }

  /** The simple return from one price to the next. */
  function Return(before: real, after: real): real
    requires before != 0.0
  {
    (after - before) / before
  }

  /** `(p[i] - p[i-1]) / p[i-1]` for every consecutive pair of prices. */
  function SimpleReturns(p: seq<real>): (r: seq<real>)
    requires NonZeroPrices(p)
    ensures |r| == if |p| == 0 then 0 else |p| - 1
  {
    if |p| <= 1 then [] else seq(|p| - 1, i requires 0 <= i < |p| - 1 => Return(p[i], p[i + 1]))
  }

  /** The price a return leads to. */
  function Grow(price: real, ret: real): real
  {
    price * (1.0 + ret)
  }

  /** One return carries its price to the next. */
  lemma ReturnStep(before: real, after: real)
    requires before != 0.0
    ensures Grow(before, Return(before, after)) == after
  {
    assert before * (1.0 + (after - before) / before) == after;
  }

  /** Each return carries one price to the next. */
  lemma ReturnsReconstructPrices(p: seq<real>)
    requires NonZeroPrices(p)
    ensures forall i :: 0 <= i < |SimpleReturns(p)| ==> p[i + 1] == Grow(p[i], SimpleReturns(p)[i])
  {
    forall i | 0 <= i < |SimpleReturns(p)| ensures p[i + 1] == Grow(p[i], SimpleReturns(p)[i]) {
      ReturnStep(p[i], p[i + 1]);
    }
  }

  /** The price path that a first price and a return series describe. */
  function Rebuild(first: real, r: seq<real>): (p: seq<real>)
    ensures |p| == |r| + 1 && p[0] == first
  {
    if |r| == 0 then [first]
    else
      var prev := Rebuild(first, r[..|r| - 1]);
      prev + [Grow(prev[|prev| - 1], r[|r| - 1])]
  }

  /** Dropping the newest price drops the newest return. */
  lemma ReturnsOfPrefix(p: seq<real>)
    requires |p| > 1 && NonZeroPrices(p)
    ensures SimpleReturns(p[..|p| - 1]) == SimpleReturns(p)[..|p| - 2]
  {
  }

  /** The return series loses nothing: the first price and the returns give back every price. */
  lemma {:induction false} RebuildReturns(p: seq<real>)
    requires |p| > 0 && NonZeroPrices(p)
    ensures Rebuild(p[0], SimpleReturns(p)) == p
  {
    if |p| > 1 {
      var init := p[..|p| - 1];
      RebuildReturns(init);
      ReturnsOfPrefix(p);
      var r := SimpleReturns(p);
      assert r[|r| - 1] == Return(p[|p| - 2], p[|p| - 1]);
      ReturnStep(p[|p| - 2], p[|p| - 1]);
      assert p == init + [p[|p| - 1]];
    }
  }

  /** A flat price series has only zero returns. */
  lemma FlatPricesZeroReturns(p: seq<real>, c: real)
    requires c != 0.0
    requires forall i :: 0 <= i < |p| ==> p[i] == c
    ensures forall i :: 0 <= i < |SimpleReturns(p)| ==> SimpleReturns(p)[i] == 0.0
  {
  }

  /** The push loop of varService.js and montecarloService.js. */
  method BuildReturns(p: seq<real>) returns (r: seq<real>)
    requires NonZeroPrices(p)
    ensures r == SimpleReturns(p)
  {
    r := [];
    var i := 1;
    while i < |p|
      invariant 1 <= i <= if |p| == 0 then 1 else |p|
      invariant |r| == i - 1
      invariant forall k :: 0 <= k < i - 1 ==> r[k] == Return(p[k], p[k + 1])
    {
      r := r + [Return(p[i - 1], p[i])];
      i := i + 1;
    }
  }

  /** historicalVarService.js: `prices.slice(1).map((p, i) => (p - prices[i]) / prices[i])`. */
  function SliceMapReturns(p: seq<real>): seq<real>
    requires NonZeroPrices(p)
  {
    if |p| == 0 then [] else
      var tail := p[1..];
      seq(|tail|, i requires 0 <= i < |tail| => Return(p[i], tail[i]))
  }

  /** The slice-and-map form and the push loop compute the same series. */
  lemma SliceMapIsSimpleReturns(p: seq<real>)
    requires NonZeroPrices(p)
    ensures SliceMapReturns(p) == SimpleReturns(p)
  {
  }

  /** Every entry of the returns object: the simple returns of that symbol's series. */
  function ReturnsOf(series: Series): (rets: Series)
    requires forall sym :: sym in series ==> NonZeroPrices(series[sym])
    ensures rets.Keys == series.Keys
  {
    map sym | sym in series :: SimpleReturns(series[sym])
  }

  /** `for (let symbol in priceSeries)`, one key at a time. */
  method ComputeReturns(series: Series) returns (rets: Series)
    requires forall sym :: sym in series ==> NonZeroPrices(series[sym])
    ensures rets == ReturnsOf(series)
  {
    rets := map[];
    var pending := series.Keys;
    while pending != {}
      invariant pending <= series.Keys
      invariant rets.Keys == series.Keys - pending
      invariant forall sym :: sym in rets ==> rets[sym] == SimpleReturns(series[sym])
      decreases |pending|
    {
      var sym :| sym in pending;
      var r := BuildReturns(series[sym]);
      rets := rets[sym := r];
      pending := pending - {sym};
    }
  }

  /** The lengths of every entry. */
  function Lengths(rets: Series): set<nat>
  {
    set sym | sym in rets :: |rets[sym]|
  }

  /** `Math.min(...Object.values(returns).map(r => r.length))` of a non-empty object. */
  function NumDays(rets: Series): (n: nat)
    requires rets != map[]
    ensures exists sym :: sym in rets && n == |rets[sym]|
    ensures forall sym :: sym in rets ==> n <= |rets[sym]|
  {
    var sym :| sym in rets;
    assert |rets[sym]| in Lengths(rets);
    assert forall s :: s in rets ==> |rets[s]| in Lengths(rets);
    MinOf(Lengths(rets))
  }

  /** Every position has a non-empty series. */
  ghost predicate Covered(ps: seq<Position>, series: Series)
  {
    forall i :: 0 <= i < |ps| ==> ps[i].symbol in series && |series[ps[i].symbol]| > 0
  }

  /** `priceSeries[symbol].slice(-1)[0]`. */
  function LastPrice(series: Series, symbol: string): real
    requires symbol in series && |series[symbol]| > 0
  {
    series[symbol][|series[symbol]| - 1]
  }

  /** `Σ quantity · lastPrice` over the positions, accumulated in order. */
  function PortfolioValue(ps: seq<Position>, series: Series): real
    requires Covered(ps, series)
  {
    if |ps| == 0 then 0.0
    else PortfolioValue(ps[..|ps| - 1], series) + ps[|ps| - 1].quantity * LastPrice(series, ps[|ps| - 1].symbol)
  }

  ghost predicate PositiveQuantities(ps: seq<Position>)
  {
    forall i :: 0 <= i < |ps| ==> ps[i].quantity > 0.0
  }

  ghost predicate PositiveSeries(series: Series)
  {
    forall sym, i :: sym in series && 0 <= i < |series[sym]| ==> series[sym][i] > 0.0
  }

  /** With positive quantities and prices, a non-empty portfolio has a positive value. */
  lemma {:induction false} PortfolioValuePositive(ps: seq<Position>, series: Series)
    requires Covered(ps, series) && PositiveQuantities(ps) && PositiveSeries(series)
    ensures |ps| > 0 ==> PortfolioValue(ps, series) > 0.0
    ensures PortfolioValue(ps, series) >= 0.0
  {
    if |ps| > 0 {
      var init := ps[..|ps| - 1];
      PortfolioValuePositive(init, series);
      var p := ps[|ps| - 1];
      assert p.quantity > 0.0 && LastPrice(series, p.symbol) > 0.0;
      assert p.quantity * LastPrice(series, p.symbol) > 0.0;
    }
  }

  ghost predicate NegativeSeries(series: Series)
  {
    forall sym, i :: sym in series && 0 <= i < |series[sym]| ==> series[sym][i] < 0.0
  }

  /** With positive quantities and negative prices, a non-empty portfolio has a negative value. */
  lemma {:induction false} PortfolioValueNegative(ps: seq<Position>, series: Series)
    requires Covered(ps, series) && PositiveQuantities(ps) && NegativeSeries(series)
    ensures |ps| > 0 ==> PortfolioValue(ps, series) < 0.0
    ensures PortfolioValue(ps, series) <= 0.0
  {
    if |ps| > 0 {
      var init := ps[..|ps| - 1];
      PortfolioValueNegative(init, series);
      var p := ps[|ps| - 1];
      assert p.quantity > 0.0 && LastPrice(series, p.symbol) < 0.0;
      assert p.quantity * LastPrice(series, p.symbol) < 0.0;
    }
  }

  /** `(pos.quantity * lastPrice) / totalValue`. */
  function Weight(p: Position, series: Series, total: real): real
    requires p.symbol in series && |series[p.symbol]| > 0 && total != 0.0
  {
    (p.quantity * LastPrice(series, p.symbol)) / total
  }

  /** Every position has at least `numDays` returns. */
  ghost predicate Aligned(ps: seq<Position>, rets: Series, numDays: nat)
  {
    forall i :: 0 <= i < |ps| ==> ps[i].symbol in rets && numDays <= |rets[ps[i].symbol]|
  }

  /** Day `d` of the aligned window: index `length - numDays + d` of the symbol's returns. */
  function AlignedReturn(rets: Series, symbol: string, numDays: nat, d: nat): real
    requires symbol in rets && numDays <= |rets[symbol]| && d < numDays
  {
    rets[symbol][|rets[symbol]| - numDays + d]
  }

  /** The weighted sum of day `d`'s returns, accumulated in position order. */
  function DailyReturn(ps: seq<Position>, series: Series, rets: Series, total: real, numDays: nat, d: nat): real
    requires Covered(ps, series) && Aligned(ps, rets, numDays) && total != 0.0 && d < numDays
  {
    if |ps| == 0 then 0.0
    else
      var p := ps[|ps| - 1];
      DailyReturn(ps[..|ps| - 1], series, rets, total, numDays, d)
        + Weight(p, series, total) * AlignedReturn(rets, p.symbol, numDays, d)
  }

  /** One portfolio return per aligned day, every day weighted by the latest prices. */
  function PortfolioReturns(ps: seq<Position>, series: Series, rets: Series, numDays: nat): (r: seq<real>)
    requires Covered(ps, series) && Aligned(ps, rets, numDays) && PortfolioValue(ps, series) != 0.0
    ensures |r| == numDays
  {
    seq(numDays, d requires 0 <= d < numDays =>
      DailyReturn(ps, series, rets, PortfolioValue(ps, series), numDays, d))
  }

  /** The sum of the weights. */
  function WeightSum(ps: seq<Position>, series: Series, total: real): real
    requires Covered(ps, series) && total != 0.0
  {
    if |ps| == 0 then 0.0 else WeightSum(ps[..|ps| - 1], series, total) + Weight(ps[|ps| - 1], series, total)
  }

  lemma {:induction false} WeightSumTimesTotal(ps: seq<Position>, series: Series, total: real)
    requires Covered(ps, series) && total != 0.0
    ensures WeightSum(ps, series, total) * total == PortfolioValue(ps, series)
  {
    if |ps| > 0 {
      var init := ps[..|ps| - 1];
      var p := ps[|ps| - 1];
      WeightSumTimesTotal(init, series, total);
      var w := p.quantity * LastPrice(series, p.symbol);
      assert Weight(p, series, total) * total == w;
      assert (WeightSum(init, series, total) + Weight(p, series, total)) * total
        == WeightSum(init, series, total) * total + Weight(p, series, total) * total;
    }
  }

  /** The weights over the total portfolio value sum to 1. */
  lemma WeightsSumToOne(ps: seq<Position>, series: Series)
    requires Covered(ps, series) && PortfolioValue(ps, series) != 0.0
    ensures WeightSum(ps, series, PortfolioValue(ps, series)) == 1.0
  {
    var t := PortfolioValue(ps, series);
    WeightSumTimesTotal(ps, series, t);
    var w := WeightSum(ps, series, t);
    assert w == (w * t) / t == t / t == 1.0;
  }

  /**
    With non-negative weights, a day on which every position's return lies in
    [lo, hi] has a weighted return in [lo · Σw, hi · Σw].
  */
  lemma DailyReturnBounds(
    ps: seq<Position>, series: Series, rets: Series, total: real, numDays: nat, d: nat, lo: real, hi: real)
    requires Covered(ps, series) && Aligned(ps, rets, numDays) && total > 0.0 && d < numDays
    requires PositiveQuantities(ps) && PositiveSeries(series)
    requires forall i :: 0 <= i < |ps| ==> lo <= AlignedReturn(rets, ps[i].symbol, numDays, d) <= hi
    ensures lo * WeightSum(ps, series, total) <= DailyReturn(ps, series, rets, total, numDays, d)
    ensures DailyReturn(ps, series, rets, total, numDays, d) <= hi * WeightSum(ps, series, total)
  {
    DailyReturnAbove(ps, series, rets, total, numDays, d, lo);
    DailyReturnBelow(ps, series, rets, total, numDays, d, hi);
  }

  /** The lower half of `DailyReturnBounds`. */
  lemma {:induction false} DailyReturnAbove(
    ps: seq<Position>, series: Series, rets: Series, total: real, numDays: nat, d: nat, lo: real)
    requires Covered(ps, series) && Aligned(ps, rets, numDays) && total > 0.0 && d < numDays
    requires PositiveQuantities(ps) && PositiveSeries(series)
    requires forall i :: 0 <= i < |ps| ==> lo <= AlignedReturn(rets, ps[i].symbol, numDays, d)
    ensures lo * WeightSum(ps, series, total) <= DailyReturn(ps, series, rets, total, numDays, d)
  {
    if |ps| > 0 {
      var init, p := ps[..|ps| - 1], ps[|ps| - 1];
      DailyReturnAbove(init, series, rets, total, numDays, d, lo);
      WeightPositive(p, series, total);
      var weights, sum := WeightSum(init, series, total), DailyReturn(init, series, rets, total, numDays, d);
      var w, x := Weight(p, series, total), AlignedReturn(rets, p.symbol, numDays, d);
      assert w * lo <= w * x;
      assert WeightSum(ps, series, total) == weights + w;
      assert DailyReturn(ps, series, rets, total, numDays, d) == sum + w * x;
    }
  }

  /** The upper half of `DailyReturnBounds`. */
  lemma {:induction false} DailyReturnBelow(
    ps: seq<Position>, series: Series, rets: Series, total: real, numDays: nat, d: nat, hi: real)
    requires Covered(ps, series) && Aligned(ps, rets, numDays) && total > 0.0 && d < numDays
    requires PositiveQuantities(ps) && PositiveSeries(series)
    requires forall i :: 0 <= i < |ps| ==> AlignedReturn(rets, ps[i].symbol, numDays, d) <= hi
    ensures DailyReturn(ps, series, rets, total, numDays, d) <= hi * WeightSum(ps, series, total)
  {
    if |ps| > 0 {
      var init, p := ps[..|ps| - 1], ps[|ps| - 1];
      DailyReturnBelow(init, series, rets, total, numDays, d, hi);
      WeightPositive(p, series, total);
      var weights, sum := WeightSum(init, series, total), DailyReturn(init, series, rets, total, numDays, d);
      var w, x := Weight(p, series, total), AlignedReturn(rets, p.symbol, numDays, d);
      assert w * x <= w * hi;
      assert WeightSum(ps, series, total) == weights + w;
      assert DailyReturn(ps, series, rets, total, numDays, d) == sum + w * x;
    }
  }

  /** A held position with a positive price has a positive weight in a positive total. */
  lemma WeightPositive(p: Position, series: Series, total: real)
    requires p.symbol in series && |series[p.symbol]| > 0 && total > 0.0
    requires p.quantity > 0.0 && LastPrice(series, p.symbol) > 0.0
    ensures Weight(p, series, total) > 0.0
  {
    assert p.quantity * LastPrice(series, p.symbol) > 0.0;
  }

  /**
    A day's portfolio return is a convex combination of the positions' rets:
    it lies between their least and their greatest.
  */
  lemma PortfolioReturnBounds(ps: seq<Position>, series: Series, rets: Series, numDays: nat, d: nat, lo: real, hi: real)
    requires Covered(ps, series) && Aligned(ps, rets, numDays) && d < numDays && |ps| > 0
    requires PositiveQuantities(ps) && PositiveSeries(series)
    requires forall i :: 0 <= i < |ps| ==> lo <= AlignedReturn(rets, ps[i].symbol, numDays, d) <= hi
    ensures PortfolioValue(ps, series) > 0.0
    ensures lo <= PortfolioReturns(ps, series, rets, numDays)[d] <= hi
  {
    PortfolioValuePositive(ps, series);
    WeightsSumToOne(ps, series);
    DailyReturnBounds(ps, series, rets, PortfolioValue(ps, series), numDays, d, lo, hi);
  }

  /** The first inner loop of a day: the total value that every weight divides by. */
  method ComputeTotalValue(ps: seq<Position>, series: Series) returns (totalValue: real)
    requires Covered(ps, series)
    ensures totalValue == PortfolioValue(ps, series)
  {
    totalValue := 0.0;
    var k := 0;
    while k < |ps|
      invariant 0 <= k <= |ps|
      invariant totalValue == PortfolioValue(ps[..k], series)
    {
      assert ps[..k + 1][..k] == ps[..k];
      totalValue := totalValue + ps[k].quantity * LastPrice(series, ps[k].symbol);
      k := k + 1;
    }
    assert ps[..|ps|] == ps;
  }

  /** The second inner loop of a day: the weighted sum of that day's returns. */
  method ComputeDailyReturn(ps: seq<Position>, series: Series, rets: Series, totalValue: real, numDays: nat, d: nat)
    returns (dailyReturn: real)
    requires Covered(ps, series) && Aligned(ps, rets, numDays) && totalValue != 0.0 && d < numDays
    ensures dailyReturn == DailyReturn(ps, series, rets, totalValue, numDays, d)
  {
    dailyReturn := 0.0;
    var k := 0;
    while k < |ps|
      invariant 0 <= k <= |ps|
      invariant dailyReturn == DailyReturn(ps[..k], series, rets, totalValue, numDays, d)
    {
      assert ps[..k + 1][..k] == ps[..k];
      var weight := (ps[k].quantity * LastPrice(series, ps[k].symbol)) / totalValue;
      dailyReturn := dailyReturn + weight * AlignedReturn(rets, ps[k].symbol, numDays, d);
      k := k + 1;
    }
    assert ps[..|ps|] == ps;
  }

  /** The day loop shared by varService.js and historicalVarService.js. */
  method ComputePortfolioReturns(ps: seq<Position>, series: Series, rets: Series, numDays: nat)
    returns (portfolioReturns: seq<real>)
    requires Covered(ps, series) && Aligned(ps, rets, numDays) && PortfolioValue(ps, series) != 0.0
    ensures portfolioReturns == PortfolioReturns(ps, series, rets, numDays)
  {
    portfolioReturns := [];
    var d := 0;
    while d < numDays
      invariant 0 <= d <= numDays
      invariant |portfolioReturns| == d
      invariant forall e :: 0 <= e < d ==>
        portfolioReturns[e] == DailyReturn(ps, series, rets, PortfolioValue(ps, series), numDays, e)
    {
      var totalValue := ComputeTotalValue(ps, series);
      var dailyReturn := ComputeDailyReturn(ps, series, rets, totalValue, numDays, d);
      portfolioReturns := portfolioReturns + [dailyReturn];
      d := d + 1;
    }
  }

  /** Every position's symbol has a series. */
  predicate AllUsable(ps: seq<Position>, series: Series)
  {
    forall i :: 0 <= i < |ps| ==> ps[i].symbol in series
  }

  /** Every series holds at least two non-zero prices, taken from the store's non-zero quotes. */
  lemma SeriesFacts(store: Market.PriceStore, ps: seq<Position>, days: nat)
    requires Market.NonZeroQuotes(store)
    ensures WellFormedSeries(PriceSeries(store, ps, days))
  {
    PriceSeriesContents(store, ps, days);
    var series := PriceSeries(store, ps, days);
    forall sym | sym in series ensures NonZeroPrices(series[sym]) {
      Market.RecentPricesNonZero(store, sym, days);
    }
  }

  /** The series of a store whose prices are all positive, or all negative, have that sign. */
  lemma SeriesSigns(store: Market.PriceStore, ps: seq<Position>, days: nat)
    ensures Market.PositivePrices(store) ==> PositiveSeries(PriceSeries(store, ps, days))
    ensures Market.NegativePrices(store) ==> NegativeSeries(PriceSeries(store, ps, days))
  {
    PriceSeriesContents(store, ps, days);
    var series := PriceSeries(store, ps, days);
    if Market.PositivePrices(store) {
      forall sym | sym in series ensures forall i :: 0 <= i < |series[sym]| ==> series[sym][i] > 0.0 {
        Market.RecentPricesPositive(store, sym, days);
      }
    }
    if Market.NegativePrices(store) {
      forall sym | sym in series ensures forall i :: 0 <= i < |series[sym]| ==> series[sym][i] < 0.0 {
        Market.RecentPricesNegative(store, sym, days);
      }
    }
  }

  /**
    When every position has a series, the day loop is well defined up to the
    total it divides by: the returns object is non-empty and every position
    has `numDays >= 1` returns.
  */
  lemma PipelineFacts(store: Market.PriceStore, ps: seq<Position>, days: nat)
    requires Market.NonZeroQuotes(store) && PositiveQuantities(ps) && |ps| > 0
    requires AllUsable(ps, PriceSeries(store, ps, days))
    ensures Ready(ps, PriceSeries(store, ps, days))
  {
    SeriesFacts(store, ps, days);
    var series := PriceSeries(store, ps, days);
    var rets := ReturnsOf(series);
    assert ps[0].symbol in rets;
  }

  /** With positive quantities, a store of positive prices gives a positive value and one of negative prices a negative value. */
  lemma ValueSigns(store: Market.PriceStore, ps: seq<Position>, days: nat)
    requires PositiveQuantities(ps) && |ps| > 0 && Covered(ps, PriceSeries(store, ps, days))
    ensures Market.PositivePrices(store) ==> PortfolioValue(ps, PriceSeries(store, ps, days)) > 0.0
    ensures Market.NegativePrices(store) ==> PortfolioValue(ps, PriceSeries(store, ps, days)) < 0.0
  {
    var series := PriceSeries(store, ps, days);
    SeriesSigns(store, ps, days);
    if Market.PositivePrices(store) {
      PortfolioValuePositive(ps, series);
    }
    if Market.NegativePrices(store) {
      PortfolioValueNegative(ps, series);
    }
  }

  /** Every position has a series, and the latest holdings are not worth zero in total. */
  ghost predicate NonZeroTotal(ps: seq<Position>, series: Series)
  {
    Covered(ps, series) && PortfolioValue(ps, series) != 0.0
  }

  /** Every series holds at least two prices, none of them zero. */
  ghost predicate WellFormedSeries(series: Series)
  {
    forall sym :: sym in series ==> |series[sym]| >= 2 && NonZeroPrices(series[sym])
  }

  /**
    The facts the day loop needs of the positions and their series; the total
    the weights divide by may still be zero.
  */
  ghost predicate Ready(ps: seq<Position>, series: Series)
  {
    && |ps| > 0
    && PositiveQuantities(ps)
    && WellFormedSeries(series)
    && AllUsable(ps, series)
    && Covered(ps, series)
    && ReturnsOf(series) != map[]
    && NumDays(ReturnsOf(series)) >= 1
    && Aligned(ps, ReturnsOf(series), NumDays(ReturnsOf(series)))
  }

  /** Every series repeats its first price. */
  ghost predicate FlatSeries(series: Series)
  {
    forall sym, k :: sym in series && 0 <= k < |series[sym]| ==> series[sym][k] == series[sym][0]
  }

  /** Windows of flat histories are flat. */
  lemma FlatStoreFlatSeries(store: Market.PriceStore, ps: seq<Position>, days: nat)
    requires Market.FlatPrices(store)
    ensures FlatSeries(PriceSeries(store, ps, days))
  {
    PriceSeriesContents(store, ps, days);
    var series := PriceSeries(store, ps, days);
    forall sym, k | sym in series && 0 <= k < |series[sym]| ensures series[sym][k] == series[sym][0] {
      Market.RecentPricesAreSuffix(store, sym, days);
    }
  }

  /** Flat series have zero returns on every aligned day, so every portfolio return is zero, whatever the weights. */
  lemma FlatSeriesZeroReturns(ps: seq<Position>, series: Series)
    requires Ready(ps, series) && FlatSeries(series) && PortfolioValue(ps, series) != 0.0
    ensures var rets := ReturnsOf(series);
      forall d :: 0 <= d < NumDays(rets) ==> PortfolioReturns(ps, series, rets, NumDays(rets))[d] == 0.0
  {
    var rets := ReturnsOf(series);
    var numDays := NumDays(rets);
    forall sym | sym in series
      ensures forall k :: 0 <= k < |rets[sym]| ==> rets[sym][k] == 0.0
    {
      var h := series[sym];
      FlatPricesZeroReturns(h, h[0]);
    }
    forall d | 0 <= d < numDays ensures PortfolioReturns(ps, series, rets, numDays)[d] == 0.0 {
      DailyReturnZero(ps, series, rets, PortfolioValue(ps, series), numDays, d);
    }
  }

  /** A day on which every position's return is zero has a zero weighted return. */
  lemma {:induction false} DailyReturnZero(ps: seq<Position>, series: Series, rets: Series, total: real, numDays: nat, d: nat)
    requires Covered(ps, series) && Aligned(ps, rets, numDays) && total != 0.0 && d < numDays
    requires forall i :: 0 <= i < |ps| ==> AlignedReturn(rets, ps[i].symbol, numDays, d) == 0.0
    ensures DailyReturn(ps, series, rets, total, numDays, d) == 0.0
  {
    if |ps| > 0 {
      DailyReturnZero(ps[..|ps| - 1], series, rets, total, numDays, d);
    }
  }
}
