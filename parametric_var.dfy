/**
  `computeParametricVaR` of backend/src/services/varService.js: the
  variance-covariance method over the aligned portfolio returns of a 60-quote
  look-back.
*/
module ParametricVaR {
  import opened Wrappers
  import opened Stats
  import Market
  import opened ReturnSeries

  /** The look-back window, in quotes. */
  const LookBack: nat := 60

  /** `zScores[confidence] || 1.65` with the table { 0.95: 1.65, 0.99: 2.33 }. */
  function ZScore(confidence: real): (z: real)
    ensures z == 2.33 <==> confidence == 0.99
    ensures z != 2.33 ==> z == 1.65
    ensures confidence == 0.95 ==> z == 1.65
  {
    if confidence == 0.95 then 1.65 else if confidence == 0.99 then 2.33 else 1.65
  }

  datatype ParametricResult = ParametricResult(portfolioValue: real, varValue: real)

  /** `-portfolioValue * (mean - z * stdDev) * Math.sqrt(horizonDays)`. */
  function VaRFormula(portfolioValue: real, mean: real, z: real, stdDev: real, rootHorizon: real): (v: real)
    ensures mean == 0.0 && stdDev == 0.0 ==> v == 0.0
    ensures portfolioValue >= 0.0 && rootHorizon >= 0.0 && mean <= z * stdDev ==> v >= 0.0
  {
    -portfolioValue * (mean - z * stdDev) * rootHorizon
  }

  /** What the calculator reads: non-zero stored prices, positive quantities and at least one position. */
  ghost predicate Inputs(store: Market.PriceStore, ps: seq<Position>)
  {
    |ps| > 0 && Market.NonZeroQuotes(store) && PositiveQuantities(ps)
  }

  /**
    The statistics of the day loop's returns, once every position has a
    series. A total value of zero makes every weight `x / 0`, so every
    portfolio return is infinite or NaN and `-0 * (mean - z * stdDev)` is NaN;
    a negative horizon makes `Math.sqrt` NaN.
  */
  function ParametricFromSeries(
    ps: seq<Position>, series: Series, confidence: real, horizonDays: real, sqrt: real -> real
  ): (r: Result<ParametricResult, VaRError>)
    requires Ready(ps, series)
    ensures r.Success? <==> horizonDays >= 0.0 && PortfolioValue(ps, series) != 0.0
    ensures r.Failure? ==> r.error == NotANumber
    ensures r.Success? ==> r.value.portfolioValue == PortfolioValue(ps, series)
  {
    var portfolioValue := PortfolioValue(ps, series);
    if portfolioValue == 0.0 || horizonDays < 0.0 then Failure(NotANumber)
    else
      var rets := ReturnsOf(series);
      var portfolioReturns := PortfolioReturns(ps, series, rets, NumDays(rets));
      var mean := Mean(portfolioReturns);
      var stdDev := sqrt(PopulationVariance(portfolioReturns));
      var z := ZScore(confidence);
      Success(ParametricResult(portfolioValue, VaRFormula(portfolioValue, mean, z, stdDev, sqrt(horizonDays))))
  }

  /**
    The value the calculator returns, or why it cannot: a position with fewer
    than two quotes throws in the day loop, and a negative horizon makes
    `Math.sqrt` return NaN.
  */
  function ParametricOutcome(
    store: Market.PriceStore, ps: seq<Position>, confidence: real, horizonDays: real, sqrt: real -> real
  ): Result<ParametricResult, VaRError>
    requires Inputs(store, ps)
  {
    var series := PriceSeries(store, ps, LookBack);
    if !AllUsable(ps, series) then Failure(UndefinedSeries)
    else
      PipelineFacts(store, ps, LookBack);
      ParametricFromSeries(ps, series, confidence, horizonDays, sqrt)
  }

  /** The statistics step of the calculator, from the returns object on. */
  method ComputeParametricFromSeries(
    ps: seq<Position>, priceSeries: Series, rets: Series, confidence: real, horizonDays: real, sqrt: real -> real
  ) returns (r: Result<ParametricResult, VaRError>)
    requires Ready(ps, priceSeries) && rets == ReturnsOf(priceSeries)
    ensures r == ParametricFromSeries(ps, priceSeries, confidence, horizonDays, sqrt)
  {
    var numDays := NumDays(rets);
    var total := ComputeTotalValue(ps, priceSeries);
    if total == 0.0 {
      // every weight divides by zero, and so does every day of the loop
      return Failure(NotANumber);
    }
    var portfolioReturns := ComputePortfolioReturns(ps, priceSeries, rets, numDays);
    var mean := Mean(portfolioReturns);
    var variance := PopulationVariance(portfolioReturns);
    var stdDev := sqrt(variance);
    var z := ZScore(confidence);
    var portfolioValue := ComputeTotalValue(ps, priceSeries);
    if horizonDays < 0.0 {
      return Failure(NotANumber);
    }
    r := Success(ParametricResult(portfolioValue, VaRFormula(portfolioValue, mean, z, stdDev, sqrt(horizonDays))));
  }

  /** The calculator as varService.js writes it, loop by loop. */
  method ComputeParametricVaR(
    store: Market.PriceStore, ps: seq<Position>, confidence: real, horizonDays: real, sqrt: real -> real
  ) returns (r: Result<ParametricResult, VaRError>)
    requires Inputs(store, ps)
    ensures r == ParametricOutcome(store, ps, confidence, horizonDays, sqrt)
  {
    var priceSeries := CollectPriceSeries(store, ps, LookBack);
    SeriesFacts(store, ps, LookBack);
    var rets := ComputeReturns(priceSeries);
    if !AllUsable(ps, priceSeries) {
      // `priceSeries[pos.symbol]` is undefined at the first day
      return Failure(UndefinedSeries);
    }
    PipelineFacts(store, ps, LookBack);
    r := ComputeParametricFromSeries(ps, priceSeries, rets, confidence, horizonDays, sqrt);
  }

  /**
    The calculator fails exactly when some position has fewer than two quotes
    (with that error), the latest holdings are worth zero in total, or the
    horizon is negative.
  */
  lemma ParametricErrors(
    store: Market.PriceStore, ps: seq<Position>, confidence: real, horizonDays: real, sqrt: real -> real)
    requires Inputs(store, ps)
    ensures var r := ParametricOutcome(store, ps, confidence, horizonDays, sqrt);
      && (r == Failure(UndefinedSeries) <==>
            exists i :: 0 <= i < |ps| && |Market.RecentPrices(store, ps[i].symbol, LookBack)| < 2)
      && (r.Success? <==>
            && horizonDays >= 0.0
            && (forall i :: 0 <= i < |ps| ==> |Market.RecentPrices(store, ps[i].symbol, LookBack)| >= 2)
            && NonZeroTotal(ps, PriceSeries(store, ps, LookBack)))
  {
    PriceSeriesContents(store, ps, LookBack);
    var series := PriceSeries(store, ps, LookBack);
    var r := ParametricOutcome(store, ps, confidence, horizonDays, sqrt);
    forall i | 0 <= i < |ps| ensures ps[i].symbol in series <==> |Market.RecentPrices(store, ps[i].symbol, LookBack)| >= 2 {
      assert HasSymbol(ps, ps[i].symbol);
    }
    if !AllUsable(ps, series) {
      assert r == Failure(UndefinedSeries);
    } else {
      PipelineFacts(store, ps, LookBack);
      assert r == ParametricFromSeries(ps, series, confidence, horizonDays, sqrt);
    }
  }

  /**
    A computed VaR is reported on the latest holdings' value: positive when
    every stored price is positive, as the price worker writes them, and
    negative when every stored price is negative.
  */
  lemma ParametricValueSign(
    store: Market.PriceStore, ps: seq<Position>, confidence: real, horizonDays: real, sqrt: real -> real)
    requires Inputs(store, ps)
    requires ParametricOutcome(store, ps, confidence, horizonDays, sqrt).Success?
    ensures var v := ParametricOutcome(store, ps, confidence, horizonDays, sqrt).value.portfolioValue;
      && v != 0.0
      && (Market.PositivePrices(store) ==> v > 0.0)
      && (Market.NegativePrices(store) ==> v < 0.0)
  {
    PipelineFacts(store, ps, LookBack);
    ValueSigns(store, ps, LookBack);
  }

  /** Constant prices give a parametric VaR of zero, whatever their sign. */
  lemma FlatPricesZeroVaR(
    store: Market.PriceStore, ps: seq<Position>, confidence: real, horizonDays: real, sqrt: real -> real)
    requires Inputs(store, ps) && Market.FlatPrices(store) && IsSqrt(sqrt)
    requires ParametricOutcome(store, ps, confidence, horizonDays, sqrt).Success?
    ensures ParametricOutcome(store, ps, confidence, horizonDays, sqrt).value.varValue == 0.0
  {
    PipelineFacts(store, ps, LookBack);
    var series := PriceSeries(store, ps, LookBack);
    assert PortfolioValue(ps, series) != 0.0;
    FlatStoreFlatSeries(store, ps, LookBack);
    FlatSeriesZeroReturns(ps, series);
    var rets := ReturnsOf(series);
    var pr := PortfolioReturns(ps, series, rets, NumDays(rets));
    ConstantStatistics(pr, 0.0);
    SqrtOfZero(sqrt);
  }
}
