/**
  `computeMonteCarloVaR` of backend/src/services/montecarloService.js: the
  returns of a 120-quote look-back, aligned on the shortest series, their
  covariance and its Cholesky factor (or the diagonal fallback), one
  revaluation of the portfolio per simulated vector of correlated normals,
  and the confidence quantile of the sorted simulated losses.
*/
module MonteCarloVaR {
  import opened Wrappers
  import opened Stats
  import Market
  import opened Sorting
  import opened ReturnSeries
  import opened Covariance
  import opened Cholesky
  import opened Normals

  /** The look-back window, in quotes. */
  const LookBack: nat := 120

  /** The `simulations` default of the signature, used when a job carries none. */
  const DefaultSimulations: nat := 5000

  /** What the calculator reads: non-zero stored prices and positive quantities. */
  ghost predicate Inputs(store: Market.PriceStore, ps: seq<Position>)
  {
    Market.NonZeroQuotes(store) && PositiveQuantities(ps)
  }

  /**
    `Object.keys(symbolToPrices)`: the symbols with a series, in the order the
    fetch loop first stored them.
  */
  function SeriesSymbols(store: Market.PriceStore, ps: seq<Position>, days: nat): seq<string>
  {
    if |ps| == 0 then []
    else
      var prev := SeriesSymbols(store, ps[..|ps| - 1], days);
      var sym := ps[|ps| - 1].symbol;
      if |Market.RecentPrices(store, sym, days)| >= 2 && sym !in prev then prev + [sym] else prev
  }

  /** The key order lists every key of the series object once. */
  lemma {:induction false} SeriesSymbolsAreKeys(store: Market.PriceStore, ps: seq<Position>, days: nat)
    ensures forall sym :: sym in SeriesSymbols(store, ps, days) <==> sym in PriceSeries(store, ps, days)
    ensures forall a, b :: 0 <= a < b < |SeriesSymbols(store, ps, days)| ==>
      SeriesSymbols(store, ps, days)[a] != SeriesSymbols(store, ps, days)[b]
  {
    if |ps| > 0 {
      SeriesSymbolsAreKeys(store, ps[..|ps| - 1], days);
    }
  }

  /** `symbols.map(sym => …)`: the simple returns of every series, in key order. */
  function ReturnsArray(series: Series, symbols: seq<string>): (rs: seq<seq<real>>)
    requires forall i :: 0 <= i < |symbols| ==> symbols[i] in series && NonZeroPrices(series[symbols[i]])
    ensures |rs| == |symbols|
  {
    seq(|symbols|, i requires 0 <= i < |symbols| => SimpleReturns(series[symbols[i]]))
  }

  /** The mapping callback's push loop, once per symbol. */
  method ComputeReturnsArray(series: Series, symbols: seq<string>) returns (rs: seq<seq<real>>)
    requires forall i :: 0 <= i < |symbols| ==> symbols[i] in series && NonZeroPrices(series[symbols[i]])
    ensures rs == ReturnsArray(series, symbols)
  {
    rs := [];
    var i := 0;
    while i < |symbols|
      invariant 0 <= i <= |symbols|
      invariant rs == ReturnsArray(series, symbols)[..i]
    {
      var r := BuildReturns(series[symbols[i]]);
      rs := rs + [r];
      i := i + 1;
    }
  }

  /** `Math.min(...returnsArr.map(r => r.length))` of a non-empty array. */
  function MinLength(rs: seq<seq<real>>): (n: nat)
    requires |rs| > 0
    ensures exists i :: 0 <= i < |rs| && n == |rs[i]|
    ensures forall i :: 0 <= i < |rs| ==> n <= |rs[i]|
  {
    if |rs| == 1 then |rs[0]|
    else
      var m := MinLength(rs[..|rs| - 1]);
      assert forall i :: 0 <= i < |rs| - 1 ==> rs[..|rs| - 1][i] == rs[i];
      if |rs[|rs| - 1]| < m then |rs[|rs| - 1]| else m
  }

  /**
    `returnsArr.map(r => r.slice(r.length - minLen))`: every series cut to its
    most recent `n` entries.
  */
  function AlignRecent(rs: seq<seq<real>>, n: nat): (aligned: seq<seq<real>>)
    requires forall i :: 0 <= i < |rs| ==> n <= |rs[i]|
    ensures |aligned| == |rs|
    ensures forall i :: 0 <= i < |rs| ==> |aligned[i]| == n && rs[i] == rs[i][..|rs[i]| - n] + aligned[i]
  {
    seq(|rs|, i requires 0 <= i < |rs| => rs[i][|rs[i]| - n..])
  }

  /** `latestPrices[sym]` in key order: the last quote of every series. */
  function LatestPrices(series: Series, symbols: seq<string>): (last: seq<real>)
    requires forall i :: 0 <= i < |symbols| ==> symbols[i] in series && |series[symbols[i]]| > 0
    ensures |last| == |symbols|
  {
    seq(|symbols|, i requires 0 <= i < |symbols| => LastPrice(series, symbols[i]))
  }

  /** The loop that fills `latestPrices`. */
  method CollectLatestPrices(series: Series, symbols: seq<string>) returns (last: seq<real>)
    requires forall i :: 0 <= i < |symbols| ==> symbols[i] in series && |series[symbols[i]]| > 0
    ensures last == LatestPrices(series, symbols)
  {
    last := [];
    var i := 0;
    while i < |symbols|
      invariant 0 <= i <= |symbols|
      invariant last == LatestPrices(series, symbols)[..i]
    {
      var arr := series[symbols[i]];
      last := last + [arr[|arr| - 1]];
      i := i + 1;
    }
  }

  /** `positions.find(p => p.symbol === sym)`, its quantity, or 0 when no position holds the symbol. */
  function FirstQuantity(ps: seq<Position>, sym: string): real
  {
    if |ps| == 0 then 0.0
    else if ps[0].symbol == sym then ps[0].quantity
    else FirstQuantity(ps[1..], sym)
  }

  /** The quantity found is 0 when no position holds the symbol, and the first holder's quantity otherwise. */
  lemma {:induction false} FirstQuantityFinds(ps: seq<Position>, sym: string)
    ensures (forall i :: 0 <= i < |ps| ==> ps[i].symbol != sym) ==> FirstQuantity(ps, sym) == 0.0
    ensures forall i :: 0 <= i < |ps| && ps[i].symbol == sym && (forall k :: 0 <= k < i ==> ps[k].symbol != sym) ==>
      FirstQuantity(ps, sym) == ps[i].quantity
  {
    if |ps| > 0 && ps[0].symbol != sym {
      FirstQuantityFinds(ps[1..], sym);
      assert forall i :: 0 < i < |ps| ==> ps[1..][i - 1] == ps[i];
    }
  }

  function Quantities(ps: seq<Position>, symbols: seq<string>): (qty: seq<real>)
    ensures |qty| == |symbols|
  {
    seq(|symbols|, i requires 0 <= i < |symbols| => FirstQuantity(ps, symbols[i]))
  }

  /** `sum + means[i]` with `sum = Σ_{k <= i} L[i][k] · z[k]`: the correlated draws of one simulation. */
  function CorrelatedVector(l: Matrix, z: seq<real>, means: seq<real>): (c: seq<real>)
    requires |l| == |z| == |means| && forall i :: 0 <= i < |l| ==> |l[i]| == |l|
    ensures |c| == |l|
  {
    seq(|l|, i requires 0 <= i < |l| => RowDot(l[i], z, i + 1) + means[i])
  }

  /** One position's share of the revalued portfolio: `qty * (last * (1 + r))` with `r = correlated * scale`. */
  function RevaluedHolding(qty: real, last: real, correlated: real, scale: real): real
  {
    qty * Grow(last, correlated * scale)
  }

  /** `newPortfolioValue` after the first k symbols. */
  function Revalued(c: seq<real>, last: seq<real>, qty: seq<real>, scale: real, k: nat): real
    requires k <= |c| && k <= |last| && k <= |qty|
  {
    if k == 0 then 0.0 else Revalued(c, last, qty, scale, k - 1) + RevaluedHolding(qty[k - 1], last[k - 1], c[k - 1], scale)
  }

  /** `losses[s] = -(newPortfolioValue - portfolioValue)`, simulation s reading pairs from `s · ⌈dim/2⌉` on. */
  function Loss(l: Matrix, means: seq<real>, last: seq<real>, qty: seq<real>, pv: real, scale: real, draw: Draws, s: nat): real
    requires |l| == |means| == |last| == |qty| && forall i :: 0 <= i < |l| ==> |l[i]| == |l|
  {
    var z := NormalVector(draw, s * PairsFor(|l|), |l|);
    -(Revalued(CorrelatedVector(l, z, means), last, qty, scale, |l|) - pv)
  }

  function Losses(l: Matrix, means: seq<real>, last: seq<real>, qty: seq<real>, pv: real, scale: real, draw: Draws, sims: nat)
    : (losses: seq<real>)
    requires |l| == |means| == |last| == |qty| && forall i :: 0 <= i < |l| ==> |l[i]| == |l|
    ensures |losses| == sims
  {
    seq(sims, s requires 0 <= s < sims => Loss(l, means, last, qty, pv, scale, draw, s))
  }

  /** `Math.max(0, Math.min(simulations - 1, Math.floor(confidence * simulations) - 1))`. */
  function ClampedIndex(confidence: real, sims: nat): (idx: int)
    ensures sims > 0 ==> 0 <= idx < sims
    ensures sims == 0 ==> idx == 0
    ensures sims > 0 && 1 <= (confidence * sims as real).Floor <= sims ==> idx == (confidence * sims as real).Floor - 1
  {
    var raw := (confidence * sims as real).Floor - 1;
    var upper := if sims - 1 < raw then sims - 1 else raw;
    if upper < 0 then 0 else upper
  }

  /** `losses.slice(Math.max(0, idxSafe - 5), idxSafe + 5)`, with the ends clamped to the length as `slice` does. */
  function LossesSample(sorted: seq<real>, idx: int): (w: seq<real>)
    requires idx >= 0
    ensures |w| <= 10
    ensures idx < |sorted| ==> sorted[idx] in w
    ensures multiset(w) <= multiset(sorted)
  {
    var lo := if idx - 5 < 0 then 0 else idx - 5;
    var hi := if idx + 5 < |sorted| then idx + 5 else |sorted|;
    if hi <= lo then []
    else
      assert idx < hi ==> sorted[lo..hi][idx - lo] == sorted[idx];
      assert sorted == sorted[..lo] + sorted[lo..hi] + sorted[hi..];
      sorted[lo..hi]
  }

  /**
    The returned object: the loss at the clamped index (absent when there
    are no losses), the mean loss, the population standard deviation (NaN,
    so absent, when there are none) and the window of losses around the index.
  */
  datatype MonteCarloResult = MonteCarloResult(
    portfolioValue: real,
    varValue: Option<real>,
    simulations: nat,
    meanLoss: real,
    stdLoss: Option<real>,
    lossesSample: seq<real>)

  function Summary(pv: real, sorted: seq<real>, confidence: real, sqrt: real -> real): (r: MonteCarloResult)
    ensures r.portfolioValue == pv && r.simulations == |sorted|
    ensures r.varValue.Some? <==> |sorted| > 0
    ensures r.varValue.Some? ==> r.varValue.value == sorted[ClampedIndex(confidence, |sorted|)]
    ensures r.varValue.Some? ==> r.varValue.value in r.lossesSample
    ensures |r.lossesSample| <= 10
    ensures r.meanLoss == Mean(sorted)
  {
    var idx := ClampedIndex(confidence, |sorted|);
    MonteCarloResult(
      pv,
      if |sorted| > 0 then Some(sorted[idx]) else None,
      |sorted|,
      Mean(sorted),
      if |sorted| > 0 then Some(sqrt(PopulationVariance(sorted))) else None,
      LossesSample(sorted, idx))
  }

  /** The factor the simulation multiplies by: Cholesky when every pivot is positive, the diagonal fallback otherwise. */
  ghost function SimulationFactor(aligned: seq<seq<real>>, sqrt: real -> real): (l: Matrix)
    requires Rectangular(aligned) && |aligned[0]| >= 2
    ensures |l| == |aligned| && forall i :: 0 <= i < |l| ==> |l[i]| == |l|
  {
    var c := CovarianceOf(aligned);
    if PositivePivots(c, sqrt) then FactorOf(c, sqrt) else DiagonalOf(c, sqrt)
  }

  /**
    `symbols` lists the keys of `series` once each, and every series holds at
    least two non-zero prices.
  */
  ghost predicate KeyOrder(series: Series, symbols: seq<string>)
  {
    && WellFormedSeries(series)
    && |symbols| > 0
    && (forall i :: 0 <= i < |symbols| ==> symbols[i] in series)
    && (forall sym :: sym in series ==> sym in symbols)
    && (forall a, b :: 0 <= a < b < |symbols| ==> symbols[a] != symbols[b])
  }

  lemma SeriesKeyOrder(store: Market.PriceStore, ps: seq<Position>)
    requires Market.NonZeroQuotes(store) && |SeriesSymbols(store, ps, LookBack)| > 0
    ensures KeyOrder(PriceSeries(store, ps, LookBack), SeriesSymbols(store, ps, LookBack))
  {
    SeriesSymbolsAreKeys(store, ps, LookBack);
    SeriesFacts(store, ps, LookBack);
  }

  /** `aligned`: the returns of every series, cut to the shortest. */
  function AlignedOf(series: Series, symbols: seq<string>): (aligned: seq<seq<real>>)
    requires KeyOrder(series, symbols)
    ensures Rectangular(aligned) && |aligned| == |symbols|
    ensures forall i :: 0 <= i < |symbols| ==> 1 <= |aligned[i]| <= |series[symbols[i]]| - 1
  {
    var rs := ReturnsArray(series, symbols);
    MinLengthBounds(series, symbols);
    AlignRecent(rs, MinLength(rs))
  }

  /** Every series has at least 2 prices, so the shortest return series has at least 1 return. */
  lemma MinLengthBounds(series: Series, symbols: seq<string>)
    requires KeyOrder(series, symbols)
    ensures forall i :: 0 <= i < |symbols| ==>
      1 <= MinLength(ReturnsArray(series, symbols)) <= |series[symbols[i]]| - 1
  {
    var rs := ReturnsArray(series, symbols);
    assert forall i :: 0 <= i < |symbols| ==> |rs[i]| == |series[symbols[i]]| - 1 >= 1;
    var k :| 0 <= k < |rs| && MinLength(rs) == |rs[k]|;
    assert MinLength(rs) >= 1;
  }

  /** Every position has a series once each position's symbol does. */
  lemma UsableCovered(ps: seq<Position>, series: Series)
    requires WellFormedSeries(series) && AllUsable(ps, series)
    ensures Covered(ps, series)
  {
  }

  /** The calculator once the series are fetched and every position has one. */
  ghost function SimulationOutcome(
    ps: seq<Position>, series: Series, symbols: seq<string>, confidence: real, horizonDays: real, simulations: nat,
    sqrt: real -> real, draw: Draws
  ): (r: Result<MonteCarloResult, VaRError>)
    requires KeyOrder(series, symbols) && Covered(ps, series)
  {
    var aligned := AlignedOf(series, symbols);
    if simulations > 0 && (|aligned[0]| < 2 || horizonDays < 0.0) then Failure(NotANumber)
    else
      var pv := PortfolioValue(ps, series);
      var losses :=
        if simulations == 0 then []
        else Losses(SimulationFactor(aligned, sqrt), Means(aligned), LatestPrices(series, symbols),
                    Quantities(ps, symbols), pv, sqrt(horizonDays), draw, simulations);
      Success(Summary(pv, SortAscending(losses), confidence, sqrt))
  }

  /**
    The value the calculator returns, or why it cannot: no usable symbol
    throws, a negative number of simulations makes `new Array` throw, a
    position without a series makes the portfolio value NaN, and with at
    least one simulation a single aligned return (a 0/0 covariance) or a
    negative horizon makes every loss NaN.
  */
  ghost function MonteCarloOutcome(
    store: Market.PriceStore, ps: seq<Position>, confidence: real, horizonDays: real, simulations: int,
    sqrt: real -> real, draw: Draws
  ): Result<MonteCarloResult, VaRError>
    requires Inputs(store, ps)
  {
    var series := PriceSeries(store, ps, LookBack);
    var symbols := SeriesSymbols(store, ps, LookBack);
    if |symbols| == 0 then Failure(InsufficientData)
    else if simulations < 0 then Failure(InvalidArrayLength)
    else if !AllUsable(ps, series) then Failure(NotANumber)
    else
      SeriesKeyOrder(store, ps);
      UsableCovered(ps, series);
      SimulationOutcome(ps, series, symbols, confidence, horizonDays, simulations, sqrt, draw)
  }

  /** The inner loop of a simulation: `correlated[i] = Σ_{k <= i} L[i][k] * z[k] + means[i]`. */
  method Correlate(l: array2<real>, z: array<real>, means: seq<real>) returns (correlated: array<real>)
    requires l.Length0 == l.Length1 == z.Length == |means|
    ensures fresh(correlated)
    ensures correlated[..] == CorrelatedVector(Rows(l), z[..], means)
  {
    var dim := z.Length;
    correlated := new real[dim]((_) => 0.0);
    var i := 0;
    while i < dim
      invariant 0 <= i <= dim
      invariant forall t :: 0 <= t < i ==> correlated[t] == CorrelatedVector(Rows(l), z[..], means)[t]
    {
      var sum := 0.0;
      var k := 0;
      while k <= i
        invariant 0 <= k <= i + 1
        invariant sum == RowDot(Rows(l)[i], z[..], k)
      {
        sum := sum + l[i, k] * z[k];
        k := k + 1;
      }
      correlated[i] := sum + means[i];
      i := i + 1;
    }
    assert correlated[..] == CorrelatedVector(Rows(l), z[..], means);
  }

  /** The revaluation loop of a simulation. */
  method Revalue(correlated: array<real>, last: seq<real>, ps: seq<Position>, symbols: seq<string>, scale: real)
    returns (newPortfolioValue: real)
    requires correlated.Length == |last| == |symbols|
    ensures newPortfolioValue == Revalued(correlated[..], last, Quantities(ps, symbols), scale, |symbols|)
  {
    ghost var c := correlated[..];
    ghost var quantities := Quantities(ps, symbols);
    newPortfolioValue := 0.0;
    var i := 0;
    while i < |symbols|
      invariant 0 <= i <= |symbols|
      invariant newPortfolioValue == Revalued(c, last, quantities, scale, i)
    {
      var qty := FirstQuantity(ps, symbols[i]);
      RevaluedStep(c, last, quantities, scale, i, qty, correlated[i]);
      newPortfolioValue := newPortfolioValue + RevaluedHolding(qty, last[i], correlated[i], scale);
      i := i + 1;
    }
  }

  /** One more symbol adds its revalued holding. */
  lemma RevaluedStep(c: seq<real>, last: seq<real>, qty: seq<real>, scale: real, i: nat, q: real, x: real)
    requires i < |c| && i < |last| && i < |qty| && q == qty[i] && x == c[i]
    ensures Revalued(c, last, qty, scale, i + 1) == Revalued(c, last, qty, scale, i) + RevaluedHolding(q, last[i], x, scale)
  {
  }

  /** Simulation s: a vector of normals from pair `s · ⌈dim/2⌉` on, correlated, scaled and revalued. */
  method SimulateOne(
    l: array2<real>, means: seq<real>, last: seq<real>, ps: seq<Position>, symbols: seq<string>,
    portfolioValue: real, horizonDays: real, sqrt: real -> real, draw: Draws, s: nat
  ) returns (loss: real)
    requires l.Length0 == l.Length1 == |means| == |last| == |symbols|
    ensures loss == Loss(Rows(l), means, last, Quantities(ps, symbols), portfolioValue, sqrt(horizonDays), draw, s)
  {
    var dim := |symbols|;
    var z, _ := RandnVec(dim, draw, s * PairsFor(dim));
    var correlated := Correlate(l, z, means);
    var scale := sqrt(horizonDays);
    var newPortfolioValue := Revalue(correlated, last, ps, symbols, scale);
    var pnl := newPortfolioValue - portfolioValue;
    loss := -pnl;
  }

  /** The simulation loop: one loss per simulation, each reading the pairs after the previous one's. */
  method Simulate(
    l: array2<real>, means: seq<real>, last: seq<real>, ps: seq<Position>, symbols: seq<string>,
    portfolioValue: real, horizonDays: real, sqrt: real -> real, draw: Draws, simulations: nat
  ) returns (losses: array<real>)
    requires l.Length0 == l.Length1 == |means| == |last| == |symbols|
    ensures fresh(losses)
    ensures losses[..] == Losses(Rows(l), means, last, Quantities(ps, symbols), portfolioValue, sqrt(horizonDays), draw, simulations)
  {
    ghost var m := Rows(l);
    ghost var expected := Losses(m, means, last, Quantities(ps, symbols), portfolioValue, sqrt(horizonDays), draw, simulations);
    losses := new real[simulations];
    var s := 0;
    while s < simulations
      invariant 0 <= s <= simulations
      invariant Rows(l) == m
      invariant forall t :: 0 <= t < s ==> losses[t] == expected[t]
    {
      var loss := SimulateOne(l, means, last, ps, symbols, portfolioValue, horizonDays, sqrt, draw, s);
      assert loss == expected[s];
      losses[s] := loss;
      s := s + 1;
    }
    assert losses[..] == expected;
  }

  /** The fetch loop together with the key order of the object it fills. */
  method CollectSeries(store: Market.PriceStore, ps: seq<Position>) returns (series: Series, symbols: seq<string>)
    ensures series == PriceSeries(store, ps, LookBack)
    ensures symbols == SeriesSymbols(store, ps, LookBack)
  {
    series := map[];
    symbols := [];
    var k := 0;
    while k < |ps|
      invariant 0 <= k <= |ps|
      invariant series == PriceSeries(store, ps[..k], LookBack)
      invariant symbols == SeriesSymbols(store, ps[..k], LookBack)
    {
      PriceSeriesStep(store, ps, k, LookBack);
      SeriesSymbolsStep(store, ps, k);
      var data := Market.RecentPrices(store, ps[k].symbol, LookBack);
      if |data| >= 2 {
        if ps[k].symbol !in symbols {
          symbols := symbols + [ps[k].symbol];
        }
        series := series[ps[k].symbol := data];
      }
      k := k + 1;
    }
    assert ps[..|ps|] == ps;
  }

  /** Position k appends its symbol to the key order when its window has two prices and the symbol is new. */
  lemma SeriesSymbolsStep(store: Market.PriceStore, ps: seq<Position>, k: nat)
    requires k < |ps|
    ensures var prev := SeriesSymbols(store, ps[..k], LookBack);
      var sym := ps[k].symbol;
      SeriesSymbols(store, ps[..k + 1], LookBack)
        == if |Market.RecentPrices(store, sym, LookBack)| >= 2 && sym !in prev then prev + [sym] else prev
  {
    assert ps[..k + 1][..k] == ps[..k];
  }

  /** Steps 3, 4 and 6: covariance, its factor or the diagonal fallback, and the simulated losses. */
  method SimulatedLosses(
    aligned: seq<seq<real>>, latestPrices: seq<real>, ps: seq<Position>, symbols: seq<string>,
    portfolioValue: real, horizonDays: real, sqrt: real -> real, draw: Draws, simulations: nat
  ) returns (losses: seq<real>)
    requires Rectangular(aligned) && |aligned[0]| >= 2 && |aligned| == |latestPrices| == |symbols| && IsSqrt(sqrt)
    ensures losses == Losses(SimulationFactor(aligned, sqrt), Means(aligned), latestPrices, Quantities(ps, symbols),
                             portfolioValue, sqrt(horizonDays), draw, simulations)
  {
    var cov, means := CovarianceMatrix(aligned);
    var l := Cholesky.Cholesky(cov, sqrt);
    if l == null {
      l := DiagonalFallback(cov, sqrt);
    }
    assert |Rows(l)[0]| == l.Length1;
    var simulated := Simulate(l, means, latestPrices, ps, symbols, portfolioValue, horizonDays, sqrt, draw, simulations);
    losses := simulated[..];
  }

  /** Steps 2 to 7 of the calculator: returns, covariance, factor, valuation, simulation and quantile. */
  method ComputeFromSeries(
    ps: seq<Position>, series: Series, symbols: seq<string>, confidence: real, horizonDays: real, simulations: nat,
    sqrt: real -> real, draw: Draws
  ) returns (r: Result<MonteCarloResult, VaRError>)
    requires KeyOrder(series, symbols) && Covered(ps, series) && IsSqrt(sqrt)
    ensures r == SimulationOutcome(ps, series, symbols, confidence, horizonDays, simulations, sqrt, draw)
  {
    var returnsArr := ComputeReturnsArray(series, symbols);
    var minLen := MinLength(returnsArr);
    var aligned := AlignRecent(returnsArr, minLen);
    assert aligned == AlignedOf(series, symbols);
    var latestPrices := CollectLatestPrices(series, symbols);
    var portfolioValue := ComputeTotalValue(ps, series);
    if simulations > 0 && (minLen < 2 || horizonDays < 0.0) {
      OutcomeNotANumber(ps, series, symbols, confidence, horizonDays, simulations, sqrt, draw);
      return Failure(NotANumber);
    }
    var losses: seq<real> := [];
    if simulations > 0 {
      losses := SimulatedLosses(aligned, latestPrices, ps, symbols, portfolioValue, horizonDays, sqrt, draw, simulations);
    }
    OutcomeSummary(ps, series, symbols, confidence, horizonDays, simulations, sqrt, draw, losses);
    var sorted := SortAscending(losses);
    r := Success(Summary(portfolioValue, sorted, confidence, sqrt));
  }

  /** With a simulation over fewer than two aligned returns or a negative horizon, the losses are NaN. */
  lemma OutcomeNotANumber(
    ps: seq<Position>, series: Series, symbols: seq<string>, confidence: real, horizonDays: real, simulations: nat,
    sqrt: real -> real, draw: Draws)
    requires KeyOrder(series, symbols) && Covered(ps, series)
    requires simulations > 0 && (|AlignedOf(series, symbols)[0]| < 2 || horizonDays < 0.0)
    ensures SimulationOutcome(ps, series, symbols, confidence, horizonDays, simulations, sqrt, draw) == Failure(NotANumber)
  {
  }

  /** Otherwise the outcome is the summary of the sorted simulated losses, none when nothing is simulated. */
  lemma OutcomeSummary(
    ps: seq<Position>, series: Series, symbols: seq<string>, confidence: real, horizonDays: real, simulations: nat,
    sqrt: real -> real, draw: Draws, losses: seq<real>)
    requires KeyOrder(series, symbols) && Covered(ps, series)
    requires !(simulations > 0 && (|AlignedOf(series, symbols)[0]| < 2 || horizonDays < 0.0))
    requires simulations == 0 ==> losses == []
    requires simulations > 0 ==>
      var aligned := AlignedOf(series, symbols);
      losses == Losses(SimulationFactor(aligned, sqrt), Means(aligned), LatestPrices(series, symbols),
                       Quantities(ps, symbols), PortfolioValue(ps, series), sqrt(horizonDays), draw, simulations)
    ensures SimulationOutcome(ps, series, symbols, confidence, horizonDays, simulations, sqrt, draw)
      == Success(Summary(PortfolioValue(ps, series), SortAscending(losses), confidence, sqrt))
  {
  }

  /** `computeMonteCarloVaR(positions, confidence, horizonDays, simulations)`. */
  method ComputeMonteCarloVaR(
    store: Market.PriceStore, ps: seq<Position>, confidence: real, horizonDays: real, simulations: int,
    sqrt: real -> real, draw: Draws
  ) returns (r: Result<MonteCarloResult, VaRError>)
    requires Inputs(store, ps) && IsSqrt(sqrt)
    ensures r == MonteCarloOutcome(store, ps, confidence, horizonDays, simulations, sqrt, draw)
  {
    var series, symbols := CollectSeries(store, ps);
    if |symbols| == 0 {
      return Failure(InsufficientData);
    }
    if simulations < 0 {
      return Failure(InvalidArrayLength);
    }
    if !AllUsable(ps, series) {
      // a position without a series reads `latestPrices[pos.symbol]` as undefined
      return Failure(NotANumber);
    }
    SeriesKeyOrder(store, ps);
    UsableCovered(ps, series);
    r := ComputeFromSeries(ps, series, symbols, confidence, horizonDays, simulations, sqrt, draw);
  }

  /** Every fetched series holds at least n prices. */
  ghost predicate SeriesAtLeast(series: Series, n: nat)
  {
    forall sym :: sym in series ==> |series[sym]| >= n
  }

  /** The aligned length is the shortest series' number of returns, one less than its number of prices. */
  lemma AlignedLength(series: Series, symbols: seq<string>)
    requires KeyOrder(series, symbols)
    ensures |AlignedOf(series, symbols)[0]| >= 2 <==> SeriesAtLeast(series, 3)
  {
    var rs := ReturnsArray(series, symbols);
    var n := MinLength(rs);
    assert forall i :: 0 <= i < |symbols| ==> |rs[i]| == |series[symbols[i]]| - 1;
    if n >= 2 {
      forall sym | sym in series ensures |series[sym]| >= 3 {
        var i :| 0 <= i < |symbols| && symbols[i] == sym;
        assert |rs[i]| >= n;
      }
    }
  }

  /** A symbol has a series exactly when some position holds it and its window has two quotes or more. */
  lemma UsableWindows(store: Market.PriceStore, ps: seq<Position>)
    ensures AllUsable(ps, PriceSeries(store, ps, LookBack)) <==> WindowsAtLeast(store, ps, LookBack, 2)
    ensures |SeriesSymbols(store, ps, LookBack)| == 0 <==> !SomeWindowAtLeast(store, ps, LookBack, 2)
  {
    PriceSeriesContents(store, ps, LookBack);
    SeriesSymbolsAreKeys(store, ps, LookBack);
    var symbols := SeriesSymbols(store, ps, LookBack);
    if |symbols| > 0 {
      assert symbols[0] in PriceSeries(store, ps, LookBack);
    }
    forall i | 0 <= i < |ps| ensures HasSymbol(ps, ps[i].symbol) { }
    if SomeWindowAtLeast(store, ps, LookBack, 2) {
      var i :| 0 <= i < |ps| && |Market.RecentPrices(store, ps[i].symbol, LookBack)| >= 2;
      assert ps[i].symbol in symbols;
    }
  }

  /**
    Why the calculator fails: it throws exactly when no position has two
    quotes; `new Array` throws exactly when one has and the number of
    simulations is negative; and it returns a number exactly when every
    position has two quotes, and, if anything is simulated, three quotes and
    a non-negative horizon.
  */
  lemma MonteCarloErrors(
    store: Market.PriceStore, ps: seq<Position>, confidence: real, horizonDays: real, simulations: int,
    sqrt: real -> real, draw: Draws)
    requires Inputs(store, ps)
    ensures var r := MonteCarloOutcome(store, ps, confidence, horizonDays, simulations, sqrt, draw);
      && (r == Failure(InsufficientData) <==> !SomeWindowAtLeast(store, ps, LookBack, 2))
      && (r == Failure(InvalidArrayLength) <==> simulations < 0 && SomeWindowAtLeast(store, ps, LookBack, 2))
      && (r.Success? <==>
            && |ps| > 0
            && simulations >= 0
            && WindowsAtLeast(store, ps, LookBack, 2)
            && (simulations > 0 ==> horizonDays >= 0.0 && WindowsAtLeast(store, ps, LookBack, 3)))
  {
    UsableWindows(store, ps);
    if SomeWindowAtLeast(store, ps, LookBack, 2) && simulations >= 0 && AllUsable(ps, PriceSeries(store, ps, LookBack)) {
      SimulationSucceeds(store, ps, confidence, horizonDays, simulations, sqrt, draw);
    }
  }

  /**
    Once some position has a series, the number of simulations is not
    negative and every position has a series, the calculator returns a number
    exactly when nothing is simulated or the horizon is not negative and
    every window has three quotes.
  */
  lemma SimulationSucceeds(
    store: Market.PriceStore, ps: seq<Position>, confidence: real, horizonDays: real, simulations: int,
    sqrt: real -> real, draw: Draws)
    requires Inputs(store, ps) && |SeriesSymbols(store, ps, LookBack)| > 0 && simulations >= 0
    requires AllUsable(ps, PriceSeries(store, ps, LookBack))
    ensures MonteCarloOutcome(store, ps, confidence, horizonDays, simulations, sqrt, draw).Success? <==>
      (simulations > 0 ==> horizonDays >= 0.0 && WindowsAtLeast(store, ps, LookBack, 3))
  {
    var series := PriceSeries(store, ps, LookBack);
    var symbols := SeriesSymbols(store, ps, LookBack);
    SeriesKeyOrder(store, ps);
    UsableCovered(ps, series);
    assert MonteCarloOutcome(store, ps, confidence, horizonDays, simulations, sqrt, draw)
      == SimulationOutcome(ps, series, symbols, confidence, horizonDays, simulations, sqrt, draw);
    SimulationOutcomeSucceeds(ps, series, symbols, confidence, horizonDays, simulations, sqrt, draw);
    AlignedLength(series, symbols);
    ThreeQuotes(store, ps);
  }

  /** Steps 2 to 7 return a number unless something is simulated over fewer than two returns or a negative horizon. */
  lemma SimulationOutcomeSucceeds(
    ps: seq<Position>, series: Series, symbols: seq<string>, confidence: real, horizonDays: real, simulations: nat,
    sqrt: real -> real, draw: Draws)
    requires KeyOrder(series, symbols) && Covered(ps, series)
    ensures SimulationOutcome(ps, series, symbols, confidence, horizonDays, simulations, sqrt, draw).Success? <==>
      !(simulations > 0 && (|AlignedOf(series, symbols)[0]| < 2 || horizonDays < 0.0))
  {
  }

  /** Every series has three prices exactly when every position's window has three quotes. */
  lemma ThreeQuotes(store: Market.PriceStore, ps: seq<Position>)
    requires AllUsable(ps, PriceSeries(store, ps, LookBack))
    ensures SeriesAtLeast(PriceSeries(store, ps, LookBack), 3) <==> WindowsAtLeast(store, ps, LookBack, 3)
  {
    var series := PriceSeries(store, ps, LookBack);
    PriceSeriesContents(store, ps, LookBack);
    if WindowsAtLeast(store, ps, LookBack, 3) {
      forall sym | sym in series ensures |series[sym]| >= 3 {
        var i :| 0 <= i < |ps| && ps[i].symbol == sym;
        assert |Market.RecentPrices(store, ps[i].symbol, LookBack)| >= 3;
      }
    }
    if SeriesAtLeast(series, 3) {
      forall i | 0 <= i < |ps| ensures |Market.RecentPrices(store, ps[i].symbol, LookBack)| >= 3 {
        assert ps[i].symbol in series;
      }
    }
  }

  /**
    A successful run reports the latest holdings' value, positive when every
    stored price is positive (as the price worker writes them) and negative
    when every stored price is negative, and the number of simulations; it holds a VaR exactly when it simulated at least once; the
    VaR is the loss at the clamped index of the ascending losses, so no more
    than that index's worth of losses lie below it and the rest lie at or
    above it; and the sample is a window of at most ten sorted losses that
    contains the VaR.
  */
  lemma MonteCarloShape(
    store: Market.PriceStore, ps: seq<Position>, confidence: real, horizonDays: real, simulations: int,
    sqrt: real -> real, draw: Draws)
    requires Inputs(store, ps)
    requires MonteCarloOutcome(store, ps, confidence, horizonDays, simulations, sqrt, draw).Success?
    ensures var r := MonteCarloOutcome(store, ps, confidence, horizonDays, simulations, sqrt, draw).value;
      && Covered(ps, PriceSeries(store, ps, LookBack))
      && r.portfolioValue == PortfolioValue(ps, PriceSeries(store, ps, LookBack))
      && (Market.PositivePrices(store) ==> r.portfolioValue > 0.0)
      && (Market.NegativePrices(store) ==> r.portfolioValue < 0.0)
      && r.simulations == simulations
      && (r.varValue.Some? <==> simulations > 0)
      && (r.stdLoss.Some? <==> simulations > 0)
      && |r.lossesSample| <= 10
      && (r.varValue.Some? ==> r.varValue.value in r.lossesSample)
  {
    var series := PriceSeries(store, ps, LookBack);
    UsableWindows(store, ps);
    SeriesKeyOrder(store, ps);
    PipelineFacts(store, ps, LookBack);
    ValueSigns(store, ps, LookBack);
  }

  /**
    The summary of any list of losses: the VaR is the element at the clamped
    index of every ascending arrangement of the losses, every loss before it
    is at most the VaR and every loss after it at least the VaR.
  */
  lemma SummaryQuantile(pv: real, losses: seq<real>, confidence: real, sqrt: real -> real, sorted: seq<real>)
    requires |losses| > 0 && SortedAsc(sorted) && multiset(sorted) == multiset(losses)
    ensures var r := Summary(pv, SortAscending(losses), confidence, sqrt);
      var idx := ClampedIndex(confidence, |losses|);
      && |sorted| == |losses|
      && r.varValue == Some(sorted[idx])
      && (forall k :: 0 <= k < idx ==> sorted[k] <= r.varValue.value)
      && (forall k :: idx < k < |sorted| ==> r.varValue.value <= sorted[k])
      && r.varValue.value in losses
  {
    SortedPermutationUnique(sorted, SortAscending(losses));
    var idx := ClampedIndex(confidence, |losses|);
    assert |sorted| == |multiset(sorted)| == |losses|;
    assert sorted[idx] in multiset(losses);
  }
}
