/**
  `computeHistoricalVaR` of backend/src/services/historicalVarService.js: the
  empirical quantile of the aligned portfolio returns of a 60-quote look-back.
*/
module HistoricalVaR {
  import opened Wrappers
  import opened Stats
  import Market
  import opened Sorting
  import opened ReturnSeries

  /** The look-back window, in quotes. */
  const LookBack: nat := 60

  datatype HistoricalResult = HistoricalResult(portfolioValue: real, varValue: real, quantileReturn: real)

  /** What the calculator reads: non-zero stored prices and positive quantities. */
  ghost predicate Inputs(store: Market.PriceStore, ps: seq<Position>)
  {
    Market.NonZeroQuotes(store) && PositiveQuantities(ps)
  }

  /** `Math.floor((1 - confidence) * length)`. */
  function QuantileIndex(confidence: real, length: nat): (index: int)
    ensures index as real <= (1.0 - confidence) * length as real < index as real + 1.0
  {
    ((1.0 - confidence) * length as real).Floor
  }

  /**
    On a non-empty list of returns the index is in bounds exactly when the
    confidence lies in (0, 1]; a confidence of 0 or less reads past the end and
    a confidence above 1 reads a negative index.
  */
  lemma QuantileIndexInBounds(confidence: real, length: nat)
    requires length > 0
    ensures 0 <= QuantileIndex(confidence, length) < length <==> 0.0 < confidence <= 1.0
  {
    var n := length as real;
    var x := (1.0 - confidence) * n;
    assert x == n - confidence * n;
    if 0.0 < confidence <= 1.0 {
      assert 0.0 < confidence * n <= n;
    } else if confidence <= 0.0 {
      assert confidence * n <= 0.0;
    } else {
      assert confidence * n > n;
    }
  }

  /** `-portfolioValue * quantileReturn * Math.sqrt(horizonDays)`. */
  function VaRFormula(portfolioValue: real, quantileReturn: real, rootHorizon: real): (v: real)
    ensures quantileReturn == 0.0 ==> v == 0.0
    ensures portfolioValue >= 0.0 && rootHorizon >= 0.0 && quantileReturn <= 0.0 ==> v >= 0.0
    ensures portfolioValue <= 0.0 && rootHorizon >= 0.0 && quantileReturn <= 0.0 ==> v <= 0.0
  {
    -portfolioValue * quantileReturn * rootHorizon
  }

  /**
    Everything after the fetch: the sorted day-loop returns, the quantile at
    the floor index, and the VaR. A total value of zero makes every weight
    `x / 0`, so the quantile is infinite or NaN and `-0 * quantileReturn` is
    NaN; an index outside the list makes `quantileReturn` undefined; a
    negative horizon makes `Math.sqrt` NaN. Each way `varValue` is NaN.
  */
  function HistoricalFromSeries(
    ps: seq<Position>, series: Series, confidence: real, horizonDays: real, sqrt: real -> real
  ): (r: Result<HistoricalResult, VaRError>)
    requires Ready(ps, series)
    ensures r.Success? <==> horizonDays >= 0.0 && 0.0 < confidence <= 1.0 && PortfolioValue(ps, series) != 0.0
    ensures r.Failure? ==> r.error == NotANumber
    ensures r.Success? ==> r.value.portfolioValue == PortfolioValue(ps, series)
  {
    var portfolioValue := PortfolioValue(ps, series);
    if portfolioValue == 0.0 then Failure(NotANumber)
    else
      var rets := ReturnsOf(series);
      var sorted := SortAscending(PortfolioReturns(ps, series, rets, NumDays(rets)));
      var index := QuantileIndex(confidence, |sorted|);
      QuantileIndexInBounds(confidence, |sorted|);
      if !(0 <= index < |sorted|) || horizonDays < 0.0 then Failure(NotANumber)
      else
        var quantileReturn := sorted[index];
        Success(HistoricalResult(portfolioValue, VaRFormula(portfolioValue, quantileReturn, sqrt(horizonDays)), quantileReturn))
  }

  /**
    The value the calculator returns, or why it cannot: no position with two
    quotes throws before any return is computed, and a position without a
    series amid others that have one throws in the day loop.
  */
  function HistoricalOutcome(
    store: Market.PriceStore, ps: seq<Position>, confidence: real, horizonDays: real, sqrt: real -> real
  ): Result<HistoricalResult, VaRError>
    requires Inputs(store, ps)
  {
    var series := PriceSeries(store, ps, LookBack);
    if series == map[] then Failure(InsufficientData)
    else if !AllUsable(ps, series) then Failure(UndefinedSeries)
    else
      NonEmptySeriesHasPositions(store, ps, LookBack);
      PipelineFacts(store, ps, LookBack);
      HistoricalFromSeries(ps, series, confidence, horizonDays, sqrt)
  }

  /** Only positions contribute series. */
  lemma NonEmptySeriesHasPositions(store: Market.PriceStore, ps: seq<Position>, days: nat)
    requires PriceSeries(store, ps, days) != map[]
    ensures |ps| > 0
  {
  }

  /** `for (const sym in priceSeries) returns[sym] = prices.slice(1).map(…)`. */
  method ComputeSliceMapReturns(series: Series) returns (rets: Series)
    requires forall sym :: sym in series ==> NonZeroPrices(series[sym])
    ensures rets == ReturnsOf(series)
  {
    rets := map[];
    var pending := series.Keys;
    while pending != {}
      invariant pending <= series.Keys
      invariant rets.Keys == series.Keys - pending
      invariant forall sym :: sym in rets ==> rets[sym] == SimpleReturns(series[sym])
      decreases |pending|
    {
      var sym :| sym in pending;
      SliceMapIsSimpleReturns(series[sym]);
      rets := rets[sym := SliceMapReturns(series[sym])];
      pending := pending - {sym};
    }
  }

  /** The quantile step of the calculator, from the returns object on. */
  method ComputeHistoricalFromSeries(
    ps: seq<Position>, priceSeries: Series, rets: Series, confidence: real, horizonDays: real, sqrt: real -> real
  ) returns (r: Result<HistoricalResult, VaRError>)
    requires Ready(ps, priceSeries) && rets == ReturnsOf(priceSeries)
    ensures r == HistoricalFromSeries(ps, priceSeries, confidence, horizonDays, sqrt)
  {
    var numDays := NumDays(rets);
    var total := ComputeTotalValue(ps, priceSeries);
    if total == 0.0 {
      // every weight divides by zero, and so does every day of the loop
      return Failure(NotANumber);
    }
    var portfolioReturns := ComputePortfolioReturns(ps, priceSeries, rets, numDays);
    portfolioReturns := SortAscending(portfolioReturns);
    var index := QuantileIndex(confidence, |portfolioReturns|);
    QuantileIndexInBounds(confidence, |portfolioReturns|);
    var portfolioValue := PortfolioValue(ps, priceSeries);
    if !(0 <= index < |portfolioReturns|) || horizonDays < 0.0 {
      return Failure(NotANumber);
    }
    var quantileReturn := portfolioReturns[index];
    r := Success(HistoricalResult(portfolioValue, VaRFormula(portfolioValue, quantileReturn, sqrt(horizonDays)), quantileReturn));
  }

  /** The calculator as historicalVarService.js writes it. */
  method ComputeHistoricalVaR(
    store: Market.PriceStore, ps: seq<Position>, confidence: real, horizonDays: real, sqrt: real -> real
  ) returns (r: Result<HistoricalResult, VaRError>)
    requires Inputs(store, ps)
    ensures r == HistoricalOutcome(store, ps, confidence, horizonDays, sqrt)
  {
    var priceSeries := CollectPriceSeries(store, ps, LookBack);
    if priceSeries == map[] {
      return Failure(InsufficientData);
    }
    SeriesFacts(store, ps, LookBack);
    var rets := ComputeSliceMapReturns(priceSeries);
    if !AllUsable(ps, priceSeries) {
      // `priceSeries[pos.symbol]` is undefined at the first day
      return Failure(UndefinedSeries);
    }
    NonEmptySeriesHasPositions(store, ps, LookBack);
    PipelineFacts(store, ps, LookBack);
    r := ComputeHistoricalFromSeries(ps, priceSeries, rets, confidence, horizonDays, sqrt);
  }

  /**
    The three ways the calculator stops, each tied to its cause: no usable
    position at all, some position without two quotes, or a zero total, a
    quantile or a horizon that makes the VaR NaN.
  */
  lemma HistoricalErrors(
    store: Market.PriceStore, ps: seq<Position>, confidence: real, horizonDays: real, sqrt: real -> real)
    requires Inputs(store, ps)
    ensures var r := HistoricalOutcome(store, ps, confidence, horizonDays, sqrt);
      && (r == Failure(InsufficientData) <==> !SomeWindowAtLeast(store, ps, LookBack, 2))
      && (r == Failure(UndefinedSeries) <==>
            SomeWindowAtLeast(store, ps, LookBack, 2) && !WindowsAtLeast(store, ps, LookBack, 2))
      && (r.Success? <==>
            && |ps| > 0
            && WindowsAtLeast(store, ps, LookBack, 2)
            && horizonDays >= 0.0 && 0.0 < confidence <= 1.0
            && NonZeroTotal(ps, PriceSeries(store, ps, LookBack)))
  {
    var series := PriceSeries(store, ps, LookBack);
    var r := HistoricalOutcome(store, ps, confidence, horizonDays, sqrt);
    UsableSeries(store, ps);
    if series == map[] {
      assert r == Failure(InsufficientData);
    } else if !AllUsable(ps, series) {
      assert r == Failure(UndefinedSeries);
    } else {
      NonEmptySeriesHasPositions(store, ps, LookBack);
      PipelineFacts(store, ps, LookBack);
      assert r == HistoricalFromSeries(ps, series, confidence, horizonDays, sqrt);
    }
  }

  /**
    Every position has a series exactly when every window holds two quotes,
    and there is no series at all exactly when no window does.
  */
  lemma UsableSeries(store: Market.PriceStore, ps: seq<Position>)
    ensures AllUsable(ps, PriceSeries(store, ps, LookBack)) <==> WindowsAtLeast(store, ps, LookBack, 2)
    ensures PriceSeries(store, ps, LookBack) == map[] <==> !SomeWindowAtLeast(store, ps, LookBack, 2)
  {
    var series := PriceSeries(store, ps, LookBack);
    SeriesMembership(store, ps);
    if series != map[] {
      var sym :| sym in series;
      var i :| 0 <= i < |ps| && ps[i].symbol == sym;
      assert |Market.RecentPrices(store, ps[i].symbol, LookBack)| >= 2;
    }
    if SomeWindowAtLeast(store, ps, LookBack, 2) {
      var i :| 0 <= i < |ps| && |Market.RecentPrices(store, ps[i].symbol, LookBack)| >= 2;
      assert ps[i].symbol in series;
    }
  }

  /** A position's symbol has a series exactly when its window holds two quotes; only positions' symbols do. */
  lemma SeriesMembership(store: Market.PriceStore, ps: seq<Position>)
    ensures forall i :: 0 <= i < |ps| ==>
      (ps[i].symbol in PriceSeries(store, ps, LookBack) <==> |Market.RecentPrices(store, ps[i].symbol, LookBack)| >= 2)
    ensures forall sym :: sym in PriceSeries(store, ps, LookBack) ==> HasSymbol(ps, sym)
  {
    PriceSeriesContents(store, ps, LookBack);
    forall i | 0 <= i < |ps|
      ensures ps[i].symbol in PriceSeries(store, ps, LookBack) <==> |Market.RecentPrices(store, ps[i].symbol, LookBack)| >= 2
    {
      assert HasSymbol(ps, ps[i].symbol);
    }
  }

  /**
    The quantile is the element at the floor index of the
    ascending permutation of the day-loop returns, and one of those returns.
  */
  lemma HistoricalQuantile(ps: seq<Position>, series: Series, confidence: real, horizonDays: real, sqrt: real -> real)
    requires Ready(ps, series)
    requires HistoricalFromSeries(ps, series, confidence, horizonDays, sqrt).Success?
    ensures var rets := ReturnsOf(series);
      var pr := PortfolioReturns(ps, series, rets, NumDays(rets));
      var q := HistoricalFromSeries(ps, series, confidence, horizonDays, sqrt).value.quantileReturn;
      && q in pr
      && forall sorted :: SortedAsc(sorted) && multiset(sorted) == multiset(pr) ==>
            q == sorted[QuantileIndex(confidence, |pr|)]
  {
    var rets := ReturnsOf(series);
    var pr := PortfolioReturns(ps, series, rets, NumDays(rets));
    var s := SortAscending(pr);
    var index := QuantileIndex(confidence, |pr|);
    var q := s[index];
    assert q in multiset(s);
    SortKeepsElements(pr, q);
    forall sorted | SortedAsc(sorted) && multiset(sorted) == multiset(pr)
      ensures q == sorted[index]
    {
      SortedPermutationUnique(sorted, s);
    }
  }

  /**
    A quantile at or below zero gives a VaR of the portfolio value's sign:
    not negative on a positive value, which every store of positive prices
    (the price worker's) gives, and not positive on a negative one, which a
    store of posted negative prices gives.
  */
  lemma HistoricalVaRSign(
    store: Market.PriceStore, ps: seq<Position>, confidence: real, horizonDays: real, sqrt: real -> real)
    requires Inputs(store, ps) && IsSqrt(sqrt)
    requires HistoricalOutcome(store, ps, confidence, horizonDays, sqrt).Success?
    requires HistoricalOutcome(store, ps, confidence, horizonDays, sqrt).value.quantileReturn <= 0.0
    ensures var r := HistoricalOutcome(store, ps, confidence, horizonDays, sqrt).value;
      && (r.portfolioValue > 0.0 ==> r.varValue >= 0.0)
      && (r.portfolioValue < 0.0 ==> r.varValue <= 0.0)
      && (Market.PositivePrices(store) ==> r.portfolioValue > 0.0)
      && (Market.NegativePrices(store) ==> r.portfolioValue < 0.0)
  {
    NonEmptySeriesHasPositions(store, ps, LookBack);
    PipelineFacts(store, ps, LookBack);
    ValueSigns(store, ps, LookBack);
  }

  /** Constant prices give a zero quantile and a zero VaR, whatever their sign. */
  lemma FlatPricesZeroHistoricalVaR(
    store: Market.PriceStore, ps: seq<Position>, confidence: real, horizonDays: real, sqrt: real -> real)
    requires Inputs(store, ps) && Market.FlatPrices(store)
    requires HistoricalOutcome(store, ps, confidence, horizonDays, sqrt).Success?
    ensures HistoricalOutcome(store, ps, confidence, horizonDays, sqrt).value.quantileReturn == 0.0
    ensures HistoricalOutcome(store, ps, confidence, horizonDays, sqrt).value.varValue == 0.0
  {
    NonEmptySeriesHasPositions(store, ps, LookBack);
    PipelineFacts(store, ps, LookBack);
    var series := PriceSeries(store, ps, LookBack);
    FlatStoreFlatSeries(store, ps, LookBack);
    FlatSeriesZeroReturns(ps, series);
    HistoricalQuantile(ps, series, confidence, horizonDays, sqrt);
  }
}
