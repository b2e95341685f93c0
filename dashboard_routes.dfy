/**
  The dashboard endpoint of backend/src/routes/dashboardRoutes.js: the
  value of every position of every portfolio of the caller at the latest
  quote, its average per portfolio, and the five newest runs.
*/
module DashboardRoutes {
  import opened Wrappers
  import Market
  import opened Http
  import opened PositionModel
  import opened VaRRunModel
  import opened Database
  import DataPrep
  import Text

  /** `latestPrice || 0`: the latest quote, or zero without one. */
  function QuoteOrZero(prices: Market.PriceStore, symbol: string): (q: real)
    ensures Market.LatestPrice(prices, symbol).Some? ==> q == Market.LatestPrice(prices, symbol).value
    ensures Market.LatestPrice(prices, symbol).None? ==> q == 0.0
  {
    match Market.LatestPrice(prices, symbol)
    case None => 0.0
    case Some(p) => p
  }

  /** `pos.quantity * (latestPrice || 0)`. */
  function HoldingValue(prices: Market.PriceStore, p: Position): real
  {
    p.quantity * QuoteOrZero(prices, p.symbol)
  }

  /** The inner loop's sum over one portfolio's positions. */
  function HoldingsValue(prices: Market.PriceStore, ps: seq<Position>): real
  {
    if |ps| == 0 then 0.0 else HoldingsValue(prices, ps[..|ps| - 1]) + HoldingValue(prices, ps[|ps| - 1])
  }

  /** The outer loop's sum over the caller's portfolios. */
  function PortfoliosValue(prices: Market.PriceStore, positions: map<nat, Position>, nextId: nat, owned: seq<Portfolio>): real
  {
    if |owned| == 0 then 0.0
    else
      PortfoliosValue(prices, positions, nextId, owned[..|owned| - 1])
        + HoldingsValue(prices, PositionsOf(positions, owned[|owned| - 1].id, nextId))
  }

  /** `totalPortfolios > 0 ? totalValue / totalPortfolios : 0`. */
  function AverageValue(totalValue: real, totalPortfolios: nat): (avg: real)
    ensures totalPortfolios == 0 ==> avg == 0.0
    ensures totalPortfolios > 0 ==> avg * totalPortfolios as real == totalValue
  {
    if totalPortfolios > 0 then totalValue / totalPortfolios as real else 0.0
  }

  /** One row of `recentVarRuns`. `result.value95` is not a path of the run record, so `var95` is always null. */
  datatype RunRow = RunRow(date: int, portfolio: string, var95: Option<real>, value: Option<real>, methodName: string)

  datatype DashboardView = DashboardView(
    totalPortfolios: nat,
    totalValue: real,
    avgValue: real,
    latestVar95: Option<real>,
    lastUpdated: int,
    recentVarRuns: seq<RunRow>)

  /** The number of rows `limit(5)` keeps. */
  const RecentLimit := 5

  /** The first `n` elements. */
  function Take<T>(s: seq<T>, n: nat): (r: seq<T>)
    ensures |r| <= n && |r| <= |s| && r == s[..|r|]
    ensures |s| >= n ==> |r| == n
  {
    if |s| <= n then s else s[..n]
  }

  /** A run's row; its populated portfolio must exist, since `r.portfolio.name` throws on a deleted one. */
  function Row(portfolios: map<nat, Portfolio>, run: VaRRun): (r: Option<RunRow>)
    ensures r.Some? <==> run.portfolio in portfolios
    ensures r.Some? ==>
      && r.value.date == run.createdAt
      && r.value.portfolio == portfolios[run.portfolio].name
      && r.value.var95.None?
      && (r.value.value.Some? <==> run.result.Some?)
      && (run.result.Some? ==> r.value.value.value == run.result.value.portfolioValue)
      && r.value.methodName == MethodName(run.kind)
  {
    if run.portfolio !in portfolios then None
    else
      var value := if run.result.Some? then Some(run.result.value.portfolioValue) else None;
      Some(RunRow(run.createdAt, portfolios[run.portfolio].name, None, value, MethodName(run.kind)))
  }

  /** The rows of the runs, or None when one of them lost its portfolio. */
  function Rows(portfolios: map<nat, Portfolio>, runs: seq<VaRRun>): (r: Option<seq<RunRow>>)
    ensures r.Some? <==> forall k :: 0 <= k < |runs| ==> runs[k].portfolio in portfolios
    ensures r.Some? ==> |r.value| == |runs| && forall k :: 0 <= k < |runs| ==> Some(r.value[k]) == Row(portfolios, runs[k])
  {
    if |runs| == 0 then Some([])
    else match Row(portfolios, runs[0])
      case None => None
      case Some(row) =>
        match Rows(portfolios, runs[1..])
        case None => None
        case Some(rest) => Some([row] + rest)
  }

  /** The caller's five newest runs. */
  function RecentRuns(runs: map<nat, VaRRun>, caller: nat, nextId: nat): seq<VaRRun>
  {
    Take(RunsNewestFirst(runs, caller, nextId), RecentLimit)
  }

  /**
    What `GET /` answers: the portfolio count, the total value and its
    average, no `latestVar95`, the time of the request and the rows of the
    five newest runs; a recent run whose portfolio was deleted makes the
    projection throw (500).
  */
  function DashboardReply(
    portfolios: map<nat, Portfolio>, positions: map<nat, Position>, runs: map<nat, VaRRun>, prices: Market.PriceStore,
    nextId: nat, caller: nat, now: int
  ): (r: Reply<DashboardView>)
    ensures r.Ok? <==> forall k :: 0 <= k < |RecentRuns(runs, caller, nextId)| ==> RecentRuns(runs, caller, nextId)[k].portfolio in portfolios
    ensures r.Refused? ==> r == Refused(SERVER_ERROR, InternalServerError)
    ensures r.Ok? ==>
      var owned := PortfoliosBelow(portfolios, caller, nextId);
      && r.status == OK
      && r.value.totalPortfolios == |owned|
      && r.value.totalValue == PortfoliosValue(prices, positions, nextId, owned)
      && r.value.avgValue == AverageValue(r.value.totalValue, |owned|)
      && r.value.latestVar95.None?
      && r.value.lastUpdated == now
      && Some(r.value.recentVarRuns) == Rows(portfolios, RecentRuns(runs, caller, nextId))
  {
    var owned := PortfoliosBelow(portfolios, caller, nextId);
    var totalValue := PortfoliosValue(prices, positions, nextId, owned);
    match Rows(portfolios, RecentRuns(runs, caller, nextId))
    case None => Refused(SERVER_ERROR, InternalServerError)
    case Some(rows) => Ok(OK, DashboardView(|owned|, totalValue, AverageValue(totalValue, |owned|), None, now, rows))
  }

  /** The inner loop: `totalValue += pos.quantity * (latestPrice || 0)` over one portfolio's positions. */
  method AddHoldings(prices: Market.PriceStore, ps: seq<Position>, start: real) returns (total: real)
    ensures total == start + HoldingsValue(prices, ps)
  {
    total := start;
    var i := 0;
    while i < |ps|
      invariant 0 <= i <= |ps|
      invariant total == start + HoldingsValue(prices, ps[..i])
    {
      HoldingsStep(prices, ps, i);
      total := total + HoldingValue(prices, ps[i]);
      i := i + 1;
    }
    assert ps[..|ps|] == ps;
  }

  /** One more position adds its holding value. */
  lemma HoldingsStep(prices: Market.PriceStore, ps: seq<Position>, i: nat)
    requires i < |ps|
    ensures HoldingsValue(prices, ps[..i + 1]) == HoldingsValue(prices, ps[..i]) + HoldingValue(prices, ps[i])
  {
    assert ps[..i + 1][..i] == ps[..i];
  }

  /** The two nested loops over the caller's portfolios and their positions. */
  method TotalValue(prices: Market.PriceStore, positions: map<nat, Position>, nextId: nat, owned: seq<Portfolio>)
    returns (totalValue: real)
    ensures totalValue == PortfoliosValue(prices, positions, nextId, owned)
  {
    totalValue := 0.0;
    var i := 0;
    while i < |owned|
      invariant 0 <= i <= |owned|
      invariant totalValue == PortfoliosValue(prices, positions, nextId, owned[..i])
    {
      assert owned[..i + 1][..i] == owned[..i];
      var ps := PositionsOf(positions, owned[i].id, nextId);
      totalValue := AddHoldings(prices, ps, totalValue);
      i := i + 1;
    }
    assert owned[..|owned|] == owned;
  }

  /** `GET /`, with the loops as the handler writes them. */
  method Dashboard(
    portfolios: map<nat, Portfolio>, positions: map<nat, Position>, runs: map<nat, VaRRun>, prices: Market.PriceStore,
    nextId: nat, caller: nat, now: int
  ) returns (r: Reply<DashboardView>)
    ensures r == DashboardReply(portfolios, positions, runs, prices, nextId, caller, now)
  {
    var owned := PortfoliosBelow(portfolios, caller, nextId);
    var totalValue := TotalValue(prices, positions, nextId, owned);
    var totalPortfolios := |owned|;
    var avgValue := if totalPortfolios > 0 then totalValue / totalPortfolios as real else 0.0;
    var rows := Rows(portfolios, RecentRuns(runs, caller, nextId));
    if rows.None? {
      return Refused(SERVER_ERROR, InternalServerError);
    }
    r := Ok(OK, DashboardView(totalPortfolios, totalValue, avgValue, None, now, rows.value));
  }

  /**
    The rows are at most five, the caller's own runs, newest first, and
    every run of the caller newer than the last row is among them.
  */
  lemma RecentRunsShape(runs: map<nat, VaRRun>, caller: nat, nextId: nat)
    requires forall id :: id in runs ==> runs[id].id == id
    ensures var recent := RecentRuns(runs, caller, nextId);
      && |recent| <= RecentLimit
      && (forall k :: 0 <= k < |recent| ==> recent[k].id in runs && runs[recent[k].id] == recent[k] && recent[k].user == caller)
      && (forall a, b :: 0 <= a < b < |recent| ==> recent[a].id > recent[b].id)
      && (|RunsNewestFirst(runs, caller, nextId)| >= RecentLimit ==> |recent| == RecentLimit)
      && (|recent| < RecentLimit ==> forall id :: id in runs && id < nextId && runs[id].user == caller ==> runs[id] in recent)
  {
    RunsNewestFirstContents(runs, caller, nextId);
    var all := RunsNewestFirst(runs, caller, nextId);
    var recent := RecentRuns(runs, caller, nextId);
    assert recent == all[..|recent|];
    if |recent| < RecentLimit {
      assert recent == all;
    }
  }

  /**
    A position without a nonzero quote adds zero to the dashboard and is
    skipped by the valuation, so one portfolio's dashboard value is the
    valuation's total value.
  */
  lemma {:induction false} HoldingsMatchValuation(prices: Market.PriceStore, ps: seq<Position>)
    ensures HoldingsValue(prices, ps) == DataPrep.TotalValue(DataPrep.EnrichAll(prices, ps))
  {
    if |ps| > 0 {
      var init := ps[..|ps| - 1];
      var last := ps[|ps| - 1];
      HoldingsMatchValuation(prices, init);
      var es := DataPrep.EnrichAll(prices, init);
      var e := DataPrep.Enrich(prices, last);
      if e.Some? {
        DataPrep.TotalsStep(es, e.value);
      } else {
        assert DataPrep.EnrichAll(prices, ps) == es;
        assert QuoteOrZero(prices, last.symbol) == 0.0;
      }
    }
  }

  /**
    Holdings of positive quantities are worth nothing negative when every
    stored quote is positive (as the price worker writes them), and nothing
    positive when every stored quote is negative.
  */
  lemma {:induction false} HoldingsSign(prices: Market.PriceStore, ps: seq<Position>)
    requires forall k :: 0 <= k < |ps| ==> ps[k].quantity >= 1.0
    ensures Market.PositivePrices(prices) ==> HoldingsValue(prices, ps) >= 0.0
    ensures Market.NegativePrices(prices) ==> HoldingsValue(prices, ps) <= 0.0
  {
    if |ps| > 0 {
      HoldingsSign(prices, ps[..|ps| - 1]);
      HoldingValueSign(prices, ps[|ps| - 1]);
    }
  }

  lemma HoldingValueSign(prices: Market.PriceStore, p: Position)
    requires p.quantity >= 1.0
    ensures Market.PositivePrices(prices) ==> HoldingValue(prices, p) >= 0.0
    ensures Market.NegativePrices(prices) ==> HoldingValue(prices, p) <= 0.0
  {
    var h := Market.History(prices, Text.ToUpper(p.symbol));
    if |h| > 0 {
      assert QuoteOrZero(prices, p.symbol) == h[|h| - 1];
    }
  }
}
