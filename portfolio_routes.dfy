/**
  The handlers of backend/src/routes/portfolioRoutes.js that carry logic:
  create (the caller becomes the owner), delete (with its positions) and the
  summary fold.
*/
module PortfolioRoutes {
  import opened Wrappers
  import opened Http
  import opened PositionModel
  import opened Database

  /** The body fields the Portfolio schema knows. */
  datatype PortfolioBody = PortfolioBody(name: Option<string>, baseCurrency: Option<string>, user: Option<nat>)

  /** Whether the caller already has a portfolio of this name (the unique (user, name) index). */
  predicate NameTaken(portfolios: map<nat, Portfolio>, user: nat, name: string)
  {
    exists id :: id in portfolios && portfolios[id].user == user && portfolios[id].name == name
  }

  /**
    What `POST /` answers: `new Portfolio({ ...req.body, user: req.user._id })`
    then `save`. The caller always becomes the owner, whatever the body says;
    a missing or empty name, a currency outside the enum or a name the caller
    already uses makes `save` throw (500).
  */
  function CreateReply(portfolios: map<nat, Portfolio>, nextId: nat, caller: nat, body: PortfolioBody): (r: Reply<Portfolio>)
    ensures r.Ok? <==>
      && body.name.Some? && body.name.value != ""
      && ParseCurrency(body.baseCurrency).Some?
      && !NameTaken(portfolios, caller, body.name.value)
    ensures r.Ok? ==>
      && r.status == CREATED
      && r == Ok(CREATED, Portfolio(nextId, body.name.value, ParseCurrency(body.baseCurrency).value, caller))
    ensures r.Refused? ==> r == Refused(SERVER_ERROR, InternalServerError)
  {
    if body.name.None? || body.name.value == "" then Refused(SERVER_ERROR, InternalServerError)
    else match ParseCurrency(body.baseCurrency)
      case None => Refused(SERVER_ERROR, InternalServerError)
      case Some(currency) =>
        if NameTaken(portfolios, caller, body.name.value) then Refused(SERVER_ERROR, InternalServerError)
        else Ok(CREATED, Portfolio(nextId, body.name.value, currency, caller))
  }

  /** A portfolio under the counter's id whose (user, name) is free keeps the store valid. */
  lemma AddPortfolioKeepsValid(
    portfolios: map<nat, Portfolio>, positions: map<nat, Position>, nextId: nat, p: Portfolio)
    requires PortfoliosValid(portfolios, nextId) && PositionsValid(positions, nextId)
    requires p.id == nextId && !NameTaken(portfolios, p.user, p.name)
    ensures PortfoliosValid(portfolios[p.id := p], nextId + 1)
    ensures PositionsValid(positions, nextId + 1)
  {
    assert p.id !in portfolios;
  }

  /** `POST /`: answers as `CreateReply` says and stores the created portfolio, and only it. */
  method CreatePortfolio(store: Store, caller: nat, body: PortfolioBody) returns (reply: Reply<Portfolio>)
    requires store.Valid()
    modifies store
    ensures store.Valid()
    ensures reply == CreateReply(old(store.portfolios), old(store.nextId), caller, body)
    ensures reply.Ok? ==>
      store.portfolios == old(store.portfolios)[reply.value.id := reply.value] && store.nextId == old(store.nextId) + 1
    ensures reply.Refused? ==> store.portfolios == old(store.portfolios) && store.nextId == old(store.nextId)
    ensures store.positions == old(store.positions) && store.runs == old(store.runs)
    ensures store.jobs == old(store.jobs) && store.prices == old(store.prices)
  {
    if body.name.None? || body.name.value == "" {
      return Refused(SERVER_ERROR, InternalServerError);
    }
    var currency := ParseCurrency(body.baseCurrency);
    if currency.None? || NameTaken(store.portfolios, caller, body.name.value) {
      return Refused(SERVER_ERROR, InternalServerError);
    }
    var portfolio := Portfolio(store.nextId, body.name.value, currency.value, caller);
    AddPortfolioKeepsValid(store.portfolios, store.positions, store.nextId, portfolio);
    CounterGrowth(store.portfolios, store.positions, store.runs, store.jobs, store.nextId, store.nextId + 1);
    store.portfolios := store.portfolios[portfolio.id := portfolio];
    store.nextId := store.nextId + 1;
    reply := Ok(CREATED, portfolio);
  }

  /** `Position.deleteMany({ portfolio })`: every position that does not reference the portfolio. */
  function WithoutPortfolio(positions: map<nat, Position>, portfolioId: nat): (rest: map<nat, Position>)
    ensures forall id :: id in rest <==> id in positions && positions[id].portfolio != portfolioId
    ensures forall id :: id in rest ==> rest[id] == positions[id]
  {
    map id | id in positions && positions[id].portfolio != portfolioId :: positions[id]
  }

  /** Dropping a portfolio keeps every other portfolio under its id and keeps the names unique. */
  lemma CascadePortfolios(portfolios: map<nat, Portfolio>, nextId: nat, portfolioId: nat)
    requires PortfoliosValid(portfolios, nextId)
    ensures PortfoliosValid(portfolios - {portfolioId}, nextId)
  {
  }

  /** The positions left after the cascade still satisfy the schema, and none names the deleted portfolio. */
  lemma CascadeRecords(positions: map<nat, Position>, nextId: nat, portfolioId: nat)
    requires PositionsValid(positions, nextId)
    ensures var rest := WithoutPortfolio(positions, portfolioId);
      && (forall id :: id in rest ==> rest[id].id == id && id < nextId)
      && (forall id :: id in rest ==> ValidPosition(rest[id]) && rest[id].portfolio != portfolioId)
  {
    var rest := WithoutPortfolio(positions, portfolioId);
    forall id | id in rest
      ensures rest[id].id == id && id < nextId
    {
      assert rest[id] == positions[id];
    }
    forall id | id in rest
      ensures ValidPosition(rest[id]) && rest[id].portfolio != portfolioId
    {
      var p := positions[id];
      assert rest[id] == p && p.portfolio != portfolioId;
      assert ValidPosition(p);
    }
  }

  /** Dropping positions keeps the (portfolio, symbol) index unique. */
  lemma CascadeUnique(positions: map<nat, Position>, portfolioId: nat)
    requires UniqueKeys(positions)
    ensures UniqueKeys(WithoutPortfolio(positions, portfolioId))
  {
    var rest := WithoutPortfolio(positions, portfolioId);
    forall a, b | a in rest && b in rest && a != b
      ensures rest[a].portfolio != rest[b].portfolio || rest[a].symbol != rest[b].symbol
    {
      assert rest[a] == positions[a] && rest[b] == positions[b];
    }
  }

  /** Dropping a portfolio together with its positions keeps the store valid. */
  lemma CascadeKeepsValid(portfolios: map<nat, Portfolio>, positions: map<nat, Position>, nextId: nat, portfolioId: nat)
    requires PortfoliosValid(portfolios, nextId) && PositionsValid(positions, nextId)
    ensures PortfoliosValid(portfolios - {portfolioId}, nextId)
    ensures PositionsValid(WithoutPortfolio(positions, portfolioId), nextId)
  {
    CascadePortfolios(portfolios, nextId, portfolioId);
    CascadeRecords(positions, nextId, portfolioId);
    CascadeUnique(positions, portfolioId);
  }

  /**
    `DELETE /:id`: no owned portfolio is a 404 that removes nothing;
    otherwise the portfolio and every position referencing it are removed,
    and the runs are kept.
  */
  method DeletePortfolio(store: Store, caller: nat, portfolioId: nat) returns (reply: Reply<Message>)
    requires store.Valid()
    modifies store
    ensures store.Valid()
    ensures !Owned(old(store.portfolios), portfolioId, caller) ==>
      reply == Refused(NOT_FOUND, PortfolioNotFound)
      && store.portfolios == old(store.portfolios) && store.positions == old(store.positions)
    ensures Owned(old(store.portfolios), portfolioId, caller) ==>
      && reply == Ok(OK, PortfolioDeleted)
      && store.portfolios == old(store.portfolios) - {portfolioId}
      && store.positions == WithoutPortfolio(old(store.positions), portfolioId)
    ensures store.runs == old(store.runs) && store.jobs == old(store.jobs)
    ensures store.prices == old(store.prices) && store.nextId == old(store.nextId)
  {
    if !Owned(store.portfolios, portfolioId, caller) {
      return Refused(NOT_FOUND, PortfolioNotFound);
    }
    CascadeKeepsValid(store.portfolios, store.positions, store.nextId, portfolioId);
    store.portfolios := store.portfolios - {portfolioId};
    store.positions := WithoutPortfolio(store.positions, portfolioId);
    reply := Ok(OK, PortfolioDeleted);
  }

  /** `positions.reduce((sum, p) => sum + p.quantity * p.avgPrice, 0)`. */
  function Invested(ps: seq<Position>): real
  {
    if |ps| == 0 then 0.0 else Invested(ps[..|ps| - 1]) + CostBasis(ps[|ps| - 1])
  }

  /** Positions the schema accepts hold no negative amount. */
  lemma {:induction false} InvestedNonNegative(ps: seq<Position>)
    requires forall k :: 0 <= k < |ps| ==> ps[k].quantity >= 1.0 && ps[k].avgPrice >= 0.0
    ensures Invested(ps) >= 0.0
  {
    if |ps| > 0 {
      InvestedNonNegative(ps[..|ps| - 1]);
      CostBasisNonNegative(ps[|ps| - 1]);
    }
  }

  /** The fold of two lists one after the other is the sum of the two folds. */
  lemma {:induction false} InvestedAppend(a: seq<Position>, b: seq<Position>)
    ensures Invested(a + b) == Invested(a) + Invested(b)
    decreases |b|
  {
    if |b| == 0 {
      assert a + b == a;
    } else {
      assert (a + b)[..|a + b| - 1] == a + b[..|b| - 1];
      assert (a + b)[|a + b| - 1] == b[|b| - 1];
      InvestedAppend(a, b[..|b| - 1]);
    }
  }

  datatype Summary = Summary(portfolio: string, baseCurrency: Currency, totalPositions: nat, totalInvested: real)

  /**
    `GET /:id/summary`: a 404 unless the caller owns the portfolio; otherwise
    the count of its positions and the sum of `quantity * avgPrice` over
    them, which is zero when it has none.
  */
  function SummaryReply(portfolios: map<nat, Portfolio>, positions: map<nat, Position>, nextId: nat, caller: nat, portfolioId: nat)
    : (r: Reply<Summary>)
    ensures r.Refused? <==> !Owned(portfolios, portfolioId, caller)
    ensures r.Refused? ==> r == Refused(NOT_FOUND, PortfolioNotFound)
    ensures r.Ok? ==>
      var ps := PositionsOf(positions, portfolioId, nextId);
      && r.status == OK
      && r.value.portfolio == portfolios[portfolioId].name
      && r.value.totalPositions == |ps|
      && r.value.totalInvested == Invested(ps)
      && (|ps| == 0 ==> r.value.totalInvested == 0.0)
  {
    if !Owned(portfolios, portfolioId, caller) then Refused(NOT_FOUND, PortfolioNotFound)
    else
      var p := portfolios[portfolioId];
      var ps := PositionsOf(positions, portfolioId, nextId);
      Ok(OK, Summary(p.name, p.baseCurrency, |ps|, Invested(ps)))
  }

  /** In a valid store the summary counts exactly the positions that reference the portfolio. */
  lemma SummaryCountsReferencingPositions(
    portfolios: map<nat, Portfolio>, positions: map<nat, Position>, nextId: nat, caller: nat, portfolioId: nat)
    requires forall id :: id in positions ==> positions[id].id == id && id < nextId
    requires Owned(portfolios, portfolioId, caller)
    ensures var r := SummaryReply(portfolios, positions, nextId, caller, portfolioId);
      r.Ok? && r.value.totalPositions == |set id | id in positions && positions[id].portfolio == portfolioId|
  {
    var r := SummaryReply(portfolios, positions, nextId, caller, portfolioId);
    assert r.value.totalPositions == |PositionsBelow(positions, portfolioId, nextId)|;
    PositionsBelowCount(positions, portfolioId, nextId);
    var refs := set id | id in positions && positions[id].portfolio == portfolioId;
    assert ReferencingBelow(positions, portfolioId, nextId) == refs by {
      forall id | id in refs ensures id < nextId {
        assert positions[id].id == id;
      }
    }
  }

  /** In a valid store the summary's invested amount is not negative. */
  lemma SummaryInvestedNonNegative(
    portfolios: map<nat, Portfolio>, positions: map<nat, Position>, nextId: nat, caller: nat, portfolioId: nat)
    requires PositionsValid(positions, nextId)
    requires Owned(portfolios, portfolioId, caller)
    ensures var r := SummaryReply(portfolios, positions, nextId, caller, portfolioId);
      r.Ok? && r.value.totalInvested >= 0.0
  {
    var ps := PositionsOf(positions, portfolioId, nextId);
    PositionsOfValid(positions, portfolioId, nextId);
    forall k | 0 <= k < |ps| ensures ps[k].quantity >= 1.0 && ps[k].avgPrice >= 0.0 {
      assert ValidPosition(ps[k]);
    }
    InvestedNonNegative(ps);
  }
}
