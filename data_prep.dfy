/**
  The valuation helpers of backend/src/services/dataPrep.js: one position
  priced at the latest quote, and a portfolio's priced positions with their
  totals.
*/
module DataPrep {
  import opened Wrappers
  import Market
  import Text
  import opened PositionModel
  import opened Database
  import PortfolioRoutes
  import Seqs

  /** A position with its latest quote, market value and unrealized profit or loss. */
  datatype Enriched = Enriched(
    symbol: string,
    quantity: real,
    avgPrice: real,
    latestPrice: real,
    marketValue: real,
    unrealizedPnL: real)

  /** `quantity * latestPrice`. */
  function MarketValue(quantity: real, latestPrice: real): real
  {
    quantity * latestPrice
  }

  /** What an enriched entry cost: `quantity * avgPrice`. */
  function EntryCost(e: Enriched): real
  {
    e.quantity * e.avgPrice
  }

  /** `!latestPrice`: no quote, or a quote of zero. */
  predicate Unpriced(latest: Option<real>)
  {
    latest.None? || latest.value == 0.0
  }

  /** The enrichment of the fields `enrichPositionWithLatest` reads. */
  function EnrichFields(prices: Market.PriceStore, symbol: string, quantity: real, avgPrice: real): (r: Option<Enriched>)
    ensures r.None? <==> Unpriced(Market.LatestPrice(prices, symbol))
    ensures r.Some? ==>
      var latest := Market.LatestPrice(prices, symbol).value;
      && r.value.symbol == symbol && r.value.quantity == quantity && r.value.avgPrice == avgPrice
      && r.value.latestPrice == latest
      && r.value.marketValue == MarketValue(quantity, latest)
      && r.value.unrealizedPnL == r.value.marketValue - EntryCost(r.value)
  {
    var latest := Market.LatestPrice(prices, symbol);
    if Unpriced(latest) then None
    else
      var marketValue := MarketValue(quantity, latest.value);
      Some(Enriched(symbol, quantity, avgPrice, latest.value, marketValue, marketValue - quantity * avgPrice))
  }

  /**
    `enrichPositionWithLatest(pos)`: null when the symbol has no nonzero
    latest quote; otherwise the position's fields, the quote, the market
    value and the profit or loss over the cost basis.
  */
  function Enrich(prices: Market.PriceStore, p: Position): (r: Option<Enriched>)
    ensures r.None? <==> Unpriced(Market.LatestPrice(prices, p.symbol))
    ensures r.Some? ==>
      && r.value.symbol == p.symbol && r.value.quantity == p.quantity && r.value.avgPrice == p.avgPrice
      && r.value.latestPrice == Market.LatestPrice(prices, p.symbol).value
      && EntryCost(r.value) == CostBasis(p)
      && r.value.unrealizedPnL == r.value.marketValue - CostBasis(p)
  {
    EnrichFields(prices, p.symbol, p.quantity, p.avgPrice)
  }

  /**
    A priced holding's market value has its quote's sign: positive at a
    positive quote (every quote the price worker writes), negative at a
    negative one (which `POST /api/market` accepts).
  */
  lemma EnrichedValueSign(prices: Market.PriceStore, p: Position)
    requires p.quantity > 0.0
    requires Enrich(prices, p).Some?
    ensures var e := Enrich(prices, p).value;
      && (e.latestPrice > 0.0 ==> e.marketValue > 0.0)
      && (e.latestPrice < 0.0 ==> e.marketValue < 0.0)
      && (Market.PositivePrices(prices) ==> e.marketValue > 0.0)
  {
    var h := Market.History(prices, Text.ToUpper(p.symbol));
    var e := Enrich(prices, p).value;
    assert e.latestPrice == h[|h| - 1];
    if e.latestPrice < 0.0 {
      assert p.quantity * e.latestPrice < 0.0;
    }
  }

  /** The position list with every unpriced position skipped, in the input order. */
  function EnrichAll(prices: Market.PriceStore, ps: seq<Position>): (es: seq<Enriched>)
    ensures |es| <= |ps|
  {
    if |ps| == 0 then [] else EnrichAll(prices, ps[..|ps| - 1]) + Kept(prices, ps[|ps| - 1])
  }

  /** The entry of one position, or nothing when it is unpriced. */
  function Kept(prices: Market.PriceStore, p: Position): (r: seq<Enriched>)
    ensures |r| <= 1
  {
    var e := Enrich(prices, p);
    if e.Some? then [e.value] else []
  }

  /** The sum of the market values of the entries. */
  function TotalValue(es: seq<Enriched>): real
  {
    if |es| == 0 then 0.0 else TotalValue(es[..|es| - 1]) + es[|es| - 1].marketValue
  }

  /** The sum of the cost bases of the entries. */
  function TotalInvested(es: seq<Enriched>): real
  {
    if |es| == 0 then 0.0 else TotalInvested(es[..|es| - 1]) + EntryCost(es[|es| - 1])
  }

  /** The sum of the unrealized profits and losses of the entries. */
  function TotalPnL(es: seq<Enriched>): real
  {
    if |es| == 0 then 0.0 else TotalPnL(es[..|es| - 1]) + es[|es| - 1].unrealizedPnL
  }

  datatype Valuation = Valuation(positions: seq<Enriched>, totalValue: real, totalInvested: real)

  /** `getPortfolioPositions`: the priced positions and the two totals over them. */
  function ValuationOf(prices: Market.PriceStore, ps: seq<Position>): (v: Valuation)
    ensures v.positions == EnrichAll(prices, ps)
    ensures v.totalValue == TotalValue(v.positions) && v.totalInvested == TotalInvested(v.positions)
  {
    var es := EnrichAll(prices, ps);
    Valuation(es, TotalValue(es), TotalInvested(es))
  }

  /** One more position extends the enriched list by its enrichment, if any. */
  lemma EnrichAllStep(prices: Market.PriceStore, ps: seq<Position>, i: nat)
    requires i < |ps|
    ensures EnrichAll(prices, ps[..i + 1])
      == EnrichAll(prices, ps[..i]) + (if Enrich(prices, ps[i]).Some? then [Enrich(prices, ps[i]).value] else [])
  {
    assert ps[..i + 1][..i] == ps[..i];
  }

  /** One more entry adds its market value and its cost to the totals. */
  lemma TotalsStep(es: seq<Enriched>, e: Enriched)
    ensures TotalValue(es + [e]) == TotalValue(es) + e.marketValue
    ensures TotalInvested(es + [e]) == TotalInvested(es) + EntryCost(e)
  {
    assert (es + [e])[..|es|] == es;
  }

  /** The loop's accumulators after the first i positions: the enriched prefix and its two totals. */
  ghost predicate Accumulated(prices: Market.PriceStore, ps: seq<Position>, i: nat,
                              enriched: seq<Enriched>, totalValue: real, totalInvested: real)
    requires i <= |ps|
  {
    && enriched == EnrichAll(prices, ps[..i])
    && totalValue == TotalValue(enriched)
    && totalInvested == TotalInvested(enriched)
  }

  /** A pass of the loop of `getPortfolioPositions` over an unpriced position skips it. */
  lemma UnpricedStep(prices: Market.PriceStore, ps: seq<Position>, i: nat,
                     enriched: seq<Enriched>, totalValue: real, totalInvested: real)
    requires i < |ps| && Accumulated(prices, ps, i, enriched, totalValue, totalInvested)
    requires Unpriced(Market.LatestPrice(prices, ps[i].symbol))
    ensures Accumulated(prices, ps, i + 1, enriched, totalValue, totalInvested)
  {
    EnrichAllStep(prices, ps, i);
  }

  /**
    A pass over a priced position appends its entry and adds its market value
    and cost basis to the totals.
  */
  lemma PricedStep(prices: Market.PriceStore, ps: seq<Position>, i: nat,
                   enriched: seq<Enriched>, totalValue: real, totalInvested: real,
                   marketValue: real, costBasis: real, e: Enriched)
    requires i < |ps| && Accumulated(prices, ps, i, enriched, totalValue, totalInvested)
    requires !Unpriced(Market.LatestPrice(prices, ps[i].symbol))
    requires var pos := ps[i];
      var latest := Market.LatestPrice(prices, pos.symbol).value;
      && marketValue == MarketValue(pos.quantity, latest) && costBasis == CostBasis(pos)
      && e == Enriched(pos.symbol, pos.quantity, pos.avgPrice, latest, marketValue, marketValue - costBasis)
    ensures Accumulated(prices, ps, i + 1, enriched + [e], totalValue + marketValue, totalInvested + costBasis)
  {
    EnrichAllStep(prices, ps, i);
    assert Enrich(prices, ps[i]) == Some(e);
    TotalsStep(enriched, e);
  }

  /** `getPortfolioPositions`: `Position.find({ portfolio })`, then the valuation loop over the result. */
  method GetPortfolioPositions(prices: Market.PriceStore, positions: map<nat, Position>, portfolioId: nat, nextId: nat)
    returns (v: Valuation)
    ensures v == ValuationOf(prices, PositionsOf(positions, portfolioId, nextId))
  {
    v := ValuePositions(prices, PositionsOf(positions, portfolioId, nextId));
  }

  /** The loop of `getPortfolioPositions` over the found positions, with its two accumulators. */
  method ValuePositions(prices: Market.PriceStore, ps: seq<Position>) returns (v: Valuation)
    ensures v == ValuationOf(prices, ps)
  {
    var totalValue := 0.0;
    var totalInvested := 0.0;
    var enriched: seq<Enriched> := [];
    var i := 0;
    while i < |ps|
      invariant 0 <= i <= |ps|
      invariant Accumulated(prices, ps, i, enriched, totalValue, totalInvested)
    {
      var pos := ps[i];
      var latest := Market.LatestPrice(prices, pos.symbol);
      if Unpriced(latest) {
        UnpricedStep(prices, ps, i, enriched, totalValue, totalInvested);
      } else {
        var marketValue := MarketValue(pos.quantity, latest.value);
        var costBasis := CostBasis(pos);
        var e := Enriched(pos.symbol, pos.quantity, pos.avgPrice, latest.value, marketValue, marketValue - costBasis);
        PricedStep(prices, ps, i, enriched, totalValue, totalInvested, marketValue, costBasis, e);
        totalValue := totalValue + marketValue;
        totalInvested := totalInvested + costBasis;
        enriched := enriched + [e];
      }
      i := i + 1;
    }
    assert ps[..|ps|] == ps;
    v := Valuation(enriched, totalValue, totalInvested);
  }

  /** Skipping distributes over concatenation, so the enriched list keeps the input order. */
  lemma {:induction false} EnrichAllAppend(prices: Market.PriceStore, a: seq<Position>, b: seq<Position>)
    ensures EnrichAll(prices, a + b) == EnrichAll(prices, a) + EnrichAll(prices, b)
    decreases |b|
  {
    if |b| == 0 {
      assert a + b == a;
    } else {
      var init, last := b[..|b| - 1], b[|b| - 1];
      assert (a + b)[..|a + b| - 1] == a + init;
      assert (a + b)[|a + b| - 1] == last;
      EnrichAllAppend(prices, a, init);
      var x, y, z := EnrichAll(prices, a), EnrichAll(prices, init), Kept(prices, last);
      Seqs.AppendAssoc(x, y, z);
    }
  }

  /** Every position has a nonzero latest quote. */
  ghost predicate AllPriced(prices: Market.PriceStore, ps: seq<Position>)
  {
    forall i :: 0 <= i < |ps| ==> Enrich(prices, ps[i]).Some?
  }

  /** No position is skipped exactly when every position has a nonzero quote. */
  lemma {:induction false} EnrichAllKeepsAll(prices: Market.PriceStore, ps: seq<Position>)
    ensures |EnrichAll(prices, ps)| == |ps| <==> AllPriced(prices, ps)
  {
    if |ps| > 0 {
      var init, last := ps[..|ps| - 1], ps[|ps| - 1];
      EnrichAllKeepsAll(prices, init);
      assert |EnrichAll(prices, ps)| == |EnrichAll(prices, init)| + |Kept(prices, last)|;
      AllPricedStep(prices, ps);
    }
  }

  /** Every position is priced when the ones before the last are and the last is. */
  lemma AllPricedStep(prices: Market.PriceStore, ps: seq<Position>)
    requires |ps| > 0
    ensures AllPriced(prices, ps) <==> AllPriced(prices, ps[..|ps| - 1]) && Enrich(prices, ps[|ps| - 1]).Some?
  {
    var init := ps[..|ps| - 1];
    assert forall i :: 0 <= i < |init| ==> init[i] == ps[i];
  }

  /** Every entry is the enrichment of some position of the input. */
  lemma {:induction false} EnrichAllSound(prices: Market.PriceStore, ps: seq<Position>)
    ensures forall e :: e in EnrichAll(prices, ps) ==> exists i :: 0 <= i < |ps| && Enrich(prices, ps[i]) == Some(e)
  {
    if |ps| > 0 {
      var init := ps[..|ps| - 1];
      EnrichAllSound(prices, init);
      forall e | e in EnrichAll(prices, ps) ensures exists i :: 0 <= i < |ps| && Enrich(prices, ps[i]) == Some(e) {
        if e in EnrichAll(prices, init) {
          var i :| 0 <= i < |init| && Enrich(prices, init[i]) == Some(e);
          assert init[i] == ps[i];
        } else {
          assert Enrich(prices, ps[|ps| - 1]) == Some(e);
        }
      }
    }
  }

  /** Every position with a nonzero quote has its enrichment in the list. */
  lemma {:induction false} EnrichAllComplete(prices: Market.PriceStore, ps: seq<Position>)
    ensures forall i :: 0 <= i < |ps| && Enrich(prices, ps[i]).Some? ==> Enrich(prices, ps[i]).value in EnrichAll(prices, ps)
  {
    if |ps| > 0 {
      var init := ps[..|ps| - 1];
      EnrichAllComplete(prices, init);
      forall i | 0 <= i < |ps| && Enrich(prices, ps[i]).Some? ensures Enrich(prices, ps[i]).value in EnrichAll(prices, ps) {
        if i < |init| {
          assert init[i] == ps[i];
        }
      }
    }
  }

  /** The two totals differ by the summed profit and loss: `totalValue - totalInvested == Σ unrealizedPnL`. */
  lemma TotalsDifferByPnL(prices: Market.PriceStore, ps: seq<Position>)
    ensures var v := ValuationOf(prices, ps); v.totalValue - v.totalInvested == TotalPnL(v.positions)
  {
    EntriesKeepPnL(prices, ps);
    PnLSums(EnrichAll(prices, ps));
  }

  /** `TotalValue - TotalInvested == TotalPnL` over entries that each satisfy the P&L identity. */
  lemma {:induction false} PnLSums(es: seq<Enriched>)
    requires forall k :: 0 <= k < |es| ==> es[k].unrealizedPnL == es[k].marketValue - EntryCost(es[k])
    ensures TotalValue(es) - TotalInvested(es) == TotalPnL(es)
  {
    if |es| > 0 {
      PnLSums(es[..|es| - 1]);
    }
  }

  /** Every entry holds `unrealizedPnL == marketValue - quantity * avgPrice`. */
  lemma {:induction false} EntriesKeepPnL(prices: Market.PriceStore, ps: seq<Position>)
    ensures forall k :: 0 <= k < |EnrichAll(prices, ps)| ==>
      EnrichAll(prices, ps)[k].unrealizedPnL == EnrichAll(prices, ps)[k].marketValue - EntryCost(EnrichAll(prices, ps)[k])
  {
    if |ps| > 0 {
      EntriesKeepPnL(prices, ps[..|ps| - 1]);
    }
  }

  /**
    The valuation's invested total never exceeds the summary's, which also
    counts unpriced positions, and equals it when every position is priced.
  */
  lemma {:induction false} InvestedAtMostSummary(prices: Market.PriceStore, ps: seq<Position>)
    requires forall k :: 0 <= k < |ps| ==> ps[k].quantity >= 1.0 && ps[k].avgPrice >= 0.0
    ensures TotalInvested(EnrichAll(prices, ps)) <= PortfolioRoutes.Invested(ps)
    ensures (forall k :: 0 <= k < |ps| ==> Enrich(prices, ps[k]).Some?) ==>
      TotalInvested(EnrichAll(prices, ps)) == PortfolioRoutes.Invested(ps)
  {
    if |ps| > 0 {
      var init := ps[..|ps| - 1];
      var last := ps[|ps| - 1];
      InvestedAtMostSummary(prices, init);
      CostBasisNonNegative(last);
      var es := EnrichAll(prices, init);
      var e := Enrich(prices, last);
      if e.Some? {
        assert (es + [e.value])[..|es|] == es;
      } else {
        assert EnrichAll(prices, ps) == es;
      }
    }
  }

  datatype PrepError = PortfolioNotFound | NotIterable

  datatype EnrichedPortfolio = EnrichedPortfolio(
    portfolioId: nat, name: string, baseCurrency: Currency, totalValue: real, positions: seq<Enriched>)

  /**
    `getEnrichedPortfolio` as written: "Portfolio not found" when the caller
    does not own it, and otherwise a TypeError, because the loop iterates the
    object `getPortfolioPositions` returns instead of its `positions` array.
  */
  function EnrichedPortfolioAsWritten(portfolios: map<nat, Portfolio>, portfolioId: nat, user: nat)
    : (r: Result<EnrichedPortfolio, PrepError>)
    ensures r.Failure?
    ensures r.error == PortfolioNotFound <==> !Owned(portfolios, portfolioId, user)
  {
    if !Owned(portfolios, portfolioId, user) then Failure(PortfolioNotFound) else Failure(NotIterable)
  }

  /** The portfolio a caller owns, with a priced position, that the function as written fails to return. */
  lemma EnrichedPortfolioAsWrittenFails()
    ensures var portfolios := map[0 := Portfolio(0, "Main", USD, 7)];
      EnrichedPortfolioAsWritten(portfolios, 0, 7) == Failure(NotIterable)
  {
  }

  /**
    `getEnrichedPortfolio` iterating the `positions` of the valuation, as
    intended: each listed position is enriched again and summed.
  */
  method GetEnrichedPortfolio(
    portfolios: map<nat, Portfolio>, positions: map<nat, Position>, prices: Market.PriceStore, nextId: nat,
    portfolioId: nat, user: nat
  ) returns (r: Result<EnrichedPortfolio, PrepError>)
    ensures r.Failure? <==> !Owned(portfolios, portfolioId, user)
    ensures r.Failure? ==> r.error == PortfolioNotFound
    ensures r.Success? ==>
      var v := ValuationOf(prices, PositionsOf(positions, portfolioId, nextId));
      && r.value.portfolioId == portfolioId && r.value.name == portfolios[portfolioId].name
      && r.value.baseCurrency == portfolios[portfolioId].baseCurrency
      && r.value.positions == v.positions && r.value.totalValue == v.totalValue
  {
    if !Owned(portfolios, portfolioId, user) {
      return Failure(PortfolioNotFound);
    }
    var portfolio := portfolios[portfolioId];
    var valuation := GetPortfolioPositions(prices, positions, portfolioId, nextId);
    EnrichAgainKeeps(prices, PositionsOf(positions, portfolioId, nextId));
    var enrichedPositions, totalValue := EnrichListed(prices, valuation.positions);
    r := Success(EnrichedPortfolio(portfolioId, portfolio.name, portfolio.baseCurrency, totalValue, enrichedPositions));
  }

  /** Every entry enriches, against the quotes, to itself. */
  ghost predicate SelfEnriching(prices: Market.PriceStore, listed: seq<Enriched>)
  {
    forall k :: 0 <= k < |listed| ==>
      EnrichFields(prices, listed[k].symbol, listed[k].quantity, listed[k].avgPrice) == Some(listed[k])
  }

  /** A pass of the loop of `EnrichListed` re-enriches entry i to itself and adds its market value. */
  lemma ListedStep(prices: Market.PriceStore, listed: seq<Enriched>, i: nat)
    requires i < |listed| && SelfEnriching(prices, listed)
    ensures EnrichFields(prices, listed[i].symbol, listed[i].quantity, listed[i].avgPrice) == Some(listed[i])
    ensures listed[..i + 1] == listed[..i] + [listed[i]]
    ensures TotalValue(listed[..i + 1]) == TotalValue(listed[..i]) + listed[i].marketValue
  {
    Seqs.PrefixStep(listed, i);
  }

  /** The loop of the corrected `getEnrichedPortfolio` over entries that enrich to themselves. */
  method EnrichListed(prices: Market.PriceStore, listed: seq<Enriched>) returns (enrichedPositions: seq<Enriched>, totalValue: real)
    requires SelfEnriching(prices, listed)
    ensures enrichedPositions == listed && totalValue == TotalValue(listed)
  {
    enrichedPositions := [];
    totalValue := 0.0;
    var i := 0;
    while i < |listed|
      invariant 0 <= i <= |listed|
      invariant enrichedPositions == listed[..i]
      invariant totalValue == TotalValue(enrichedPositions)
    {
      var pos := listed[i];
      ListedStep(prices, listed, i);
      var enriched := EnrichFields(prices, pos.symbol, pos.quantity, pos.avgPrice);
      if enriched.Some? {
        totalValue := totalValue + enriched.value.marketValue;
        enrichedPositions := enrichedPositions + [enriched.value];
      }
      i := i + 1;
    }
    assert listed[..|listed|] == listed;
  }

  /** Enriching an enriched entry again, against the same quotes, gives the entry back. */
  lemma {:induction false} EnrichAgainKeeps(prices: Market.PriceStore, ps: seq<Position>)
    ensures forall k :: 0 <= k < |EnrichAll(prices, ps)| ==>
      var e := EnrichAll(prices, ps)[k];
      EnrichFields(prices, e.symbol, e.quantity, e.avgPrice) == Some(e)
  {
    if |ps| > 0 {
      EnrichAgainKeeps(prices, ps[..|ps| - 1]);
    }
  }
}
