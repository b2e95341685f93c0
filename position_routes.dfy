/**
  The handlers of backend/src/routes/positionRoutes.js: create, update and
  delete a position of one of the caller's portfolios.
*/
module PositionRoutes {
  import opened Wrappers
  import opened Http
  import opened PositionModel
  import opened Database
  import VaRRunModel
  import Market

  /** The fields `POST /` reads from the body. */
  datatype PositionBody = PositionBody(
    symbol: Option<string>, quantity: Option<real>, avgPrice: Option<real>, currency: Option<string>)

  /** `!symbol` of a string: absent or empty. */
  predicate FalsyText(s: Option<string>)
  {
    s.None? || s.value == ""
  }

  /** `!x` of a number: absent or zero (NaN is not modelled). */
  predicate FalsyNumber(x: Option<real>)
  {
    x.None? || x.value == 0.0
  }

  /**
    The two checks `POST /` makes before it looks for the portfolio. A zero
    average price is refused by the first, so a created position has a
    positive average price although the schema accepts zero.
  */
  function CreateCheck(body: PositionBody): (r: Option<Message>)
    ensures r == Some(FieldsRequired) <==>
      FalsyText(body.symbol) || FalsyNumber(body.quantity) || FalsyNumber(body.avgPrice)
    ensures r == Some(QuantityPositiveAvgPriceNonNegative) <==>
      && !FalsyText(body.symbol) && !FalsyNumber(body.quantity) && !FalsyNumber(body.avgPrice)
      && (body.quantity.value <= 0.0 || body.avgPrice.value < 0.0)
    ensures r.None? <==>
      && body.symbol.Some? && body.symbol.value != ""
      && body.quantity.Some? && body.quantity.value > 0.0
      && body.avgPrice.Some? && body.avgPrice.value > 0.0
  {
    if FalsyText(body.symbol) || FalsyNumber(body.quantity) || FalsyNumber(body.avgPrice) then Some(FieldsRequired)
    else if body.quantity.value <= 0.0 || body.avgPrice.value < 0.0 then Some(QuantityPositiveAvgPriceNonNegative)
    else None
  }

  /** A valid record stored under the counter's id, with its key free, keeps the positions valid. */
  lemma InsertKeepsValid(positions: map<nat, Position>, nextId: nat, p: Position)
    requires PositionsValid(positions, nextId)
    requires p.id == nextId && ValidPosition(p)
    requires !KeyTaken(positions, p.portfolio, p.symbol, None)
    ensures PositionsValid(positions[p.id := p], nextId + 1)
  {
    InsertRecords(positions, nextId, p);
    InsertUnique(positions, nextId, p);
  }

  lemma InsertRecords(positions: map<nat, Position>, nextId: nat, p: Position)
    requires PositionsValid(positions, nextId)
    requires p.id == nextId && ValidPosition(p)
    ensures var next := positions[p.id := p];
      && (forall id :: id in next ==> next[id].id == id && id < nextId + 1)
      && (forall id :: id in next ==> ValidPosition(next[id]))
  {
    var next := positions[p.id := p];
    forall id | id in next ensures next[id].id == id && id < nextId + 1 {
      if id != p.id { assert next[id] == positions[id]; }
    }
    forall id | id in next ensures ValidPosition(next[id]) {
      if id != p.id { assert next[id] == positions[id]; }
    }
  }

  lemma InsertUnique(positions: map<nat, Position>, nextId: nat, p: Position)
    requires PositionsValid(positions, nextId)
    requires p.id == nextId && !KeyTaken(positions, p.portfolio, p.symbol, None)
    ensures UniqueKeys(positions[p.id := p])
  {
    assert p.id !in positions;
    assert !KeyTaken(positions, p.portfolio, p.symbol, Some(p.id));
    StoreKeepsUniqueKeys(positions, p);
  }

  /**
    What `POST /` answers: the two body checks (400), the ownership lookup
    (404), then the document `new Position` builds; a failing validator or a
    taken (portfolio, symbol) key makes `save` throw (500); otherwise the
    document is created (201). A created position is valid, belongs to the
    portfolio, carries the submitted fields as the schema stores them and has
    a positive average price.
  */
  function CreateReply(
    portfolios: map<nat, Portfolio>, positions: map<nat, Position>, nextId: nat,
    caller: nat, portfolioId: nat, body: PositionBody
  ): (r: Reply<Position>)
    ensures r.status == BAD_REQUEST <==> CreateCheck(body).Some?
    ensures r.status == NOT_FOUND <==> CreateCheck(body).None? && !Owned(portfolios, portfolioId, caller)
    ensures r.Ok? <==>
      && CreateCheck(body).None? && Owned(portfolios, portfolioId, caller)
      && MakePosition(nextId, portfolioId, body.symbol, body.quantity, body.avgPrice, body.currency).Success?
      && !KeyTaken(positions, portfolioId,
           MakePosition(nextId, portfolioId, body.symbol, body.quantity, body.avgPrice, body.currency).value.symbol, None)
    ensures r.Ok? ==>
      && r.status == CREATED
      && r.value == MakePosition(nextId, portfolioId, body.symbol, body.quantity, body.avgPrice, body.currency).value
      && ValidPosition(r.value) && r.value.id == nextId && r.value.portfolio == portfolioId
      && r.value.symbol == NormalizeSymbol(body.symbol.value)
      && r.value.quantity == body.quantity.value && r.value.avgPrice == body.avgPrice.value
      && r.value.avgPrice > 0.0
    ensures r.Refused? ==> r.status in {BAD_REQUEST, NOT_FOUND, SERVER_ERROR}
  {
    var check := CreateCheck(body);
    if check.Some? then Refused(BAD_REQUEST, check.value)
    else if !Owned(portfolios, portfolioId, caller) then Refused(NOT_FOUND, PortfolioNotFound)
    else
      var made := MakePosition(nextId, portfolioId, body.symbol, body.quantity, body.avgPrice, body.currency);
      if made.Failure? || KeyTaken(positions, portfolioId, made.value.symbol, None) then Refused(SERVER_ERROR, InternalServerError)
      else Ok(CREATED, made.value)
  }

  /** `position.save()` of a new document: stored under the counter's id, which advances. */
  method Insert(store: Store, p: Position)
    requires store.Valid() && p.id == store.nextId && ValidPosition(p)
    requires !KeyTaken(store.positions, p.portfolio, p.symbol, None)
    modifies store
    ensures store.Valid()
    ensures store.positions == old(store.positions)[p.id := p] && store.nextId == old(store.nextId) + 1
    ensures store.portfolios == old(store.portfolios) && store.runs == old(store.runs)
    ensures store.jobs == old(store.jobs) && store.prices == old(store.prices)
  {
    var next, n := store.positions[p.id := p], store.nextId + 1;
    InsertKeepsStoreValid(store.portfolios, store.positions, store.runs, store.jobs, store.prices, store.nextId, p);
    store.positions, store.nextId := next, n;
    assert StoreValid(store.portfolios, store.positions, store.runs, store.jobs, store.prices, store.nextId);
  }

  /** The same, for the whole store, whose counter advances past the new id. */
  lemma InsertKeepsStoreValid(portfolios: map<nat, Portfolio>, positions: map<nat, Position>, runs: map<nat, VaRRunModel.VaRRun>,
                              jobs: seq<Job>, prices: Market.PriceStore, nextId: nat, p: Position)
    requires StoreValid(portfolios, positions, runs, jobs, prices, nextId)
    requires p.id == nextId && ValidPosition(p)
    requires !KeyTaken(positions, p.portfolio, p.symbol, None)
    ensures StoreValid(portfolios, positions[p.id := p], runs, jobs, prices, nextId + 1)
  {
    InsertKeepsValid(positions, nextId, p);
    CounterGrowth(portfolios, positions, runs, jobs, nextId, nextId + 1);
  }

  /** `POST /`: answers as `CreateReply` says and stores the created position, and only it. */
  method CreatePosition(store: Store, caller: nat, portfolioId: nat, body: PositionBody) returns (reply: Reply<Position>)
    requires store.Valid()
    modifies store
    ensures store.Valid()
    ensures reply == CreateReply(old(store.portfolios), old(store.positions), old(store.nextId), caller, portfolioId, body)
    ensures reply.Ok? ==>
      store.positions == old(store.positions)[reply.value.id := reply.value] && store.nextId == old(store.nextId) + 1
    ensures reply.Refused? ==> store.positions == old(store.positions) && store.nextId == old(store.nextId)
    ensures store.portfolios == old(store.portfolios) && store.runs == old(store.runs)
    ensures store.jobs == old(store.jobs) && store.prices == old(store.prices)
  {
    var check := CreateCheck(body);
    if check.Some? {
      return Refused(BAD_REQUEST, check.value);
    }
    if !Owned(store.portfolios, portfolioId, caller) {
      return Refused(NOT_FOUND, PortfolioNotFound);
    }
    var made := MakePosition(store.nextId, portfolioId, body.symbol, body.quantity, body.avgPrice, body.currency);
    if made.Failure? || KeyTaken(store.positions, portfolioId, made.value.symbol, None) {
      return Refused(SERVER_ERROR, InternalServerError);
    }
    var position := made.value;
    Insert(store, position);
    reply := Ok(CREATED, position);
  }

  /** The checks `PUT /:positionId` makes of the fields that are present. */
  function UpdateCheck(patch: PositionPatch): (r: Option<Message>)
    ensures r == Some(QuantityMustBePositive) <==> patch.quantity.Some? && patch.quantity.value <= 0.0
    ensures r == Some(AvgPriceCannotBeNegative) <==>
      (patch.quantity.None? || patch.quantity.value > 0.0) && patch.avgPrice.Some? && patch.avgPrice.value < 0.0
    ensures r.None? <==>
      (patch.quantity.Some? ==> patch.quantity.value > 0.0) && (patch.avgPrice.Some? ==> patch.avgPrice.value >= 0.0)
  {
    if patch.quantity.Some? && patch.quantity.value <= 0.0 then Some(QuantityMustBePositive)
    else if patch.avgPrice.Some? && patch.avgPrice.value < 0.0 then Some(AvgPriceCannotBeNegative)
    else None
  }

  /** `{ _id: positionId, portfolio }` matches a stored position. */
  predicate InPortfolio(positions: map<nat, Position>, positionId: nat, portfolioId: nat)
  {
    positionId in positions && positions[positionId].portfolio == portfolioId
  }

  /** Replacing a record by a valid one whose key no other record holds keeps the positions valid. */
  lemma ReplaceKeepsValid(positions: map<nat, Position>, nextId: nat, p: Position)
    requires PositionsValid(positions, nextId)
    requires p.id in positions
    requires ValidPosition(p) && !KeyTaken(positions, p.portfolio, p.symbol, Some(p.id))
    ensures PositionsValid(positions[p.id := p], nextId)
  {
    ReplaceRecords(positions, nextId, p);
    StoreKeepsUniqueKeys(positions, p);
  }

  lemma ReplaceRecords(positions: map<nat, Position>, nextId: nat, p: Position)
    requires forall id :: id in positions ==> positions[id].id == id && id < nextId
    requires forall id :: id in positions ==> ValidPosition(positions[id])
    requires p.id in positions && ValidPosition(p)
    ensures var next := positions[p.id := p];
      && (forall id :: id in next ==> next[id].id == id && id < nextId)
      && (forall id :: id in next ==> ValidPosition(next[id]))
  {
    var next := positions[p.id := p];
    forall id | id in next ensures next[id].id == id && id < nextId {
      if id != p.id { assert next[id] == positions[id]; }
    }
    forall id | id in next ensures ValidPosition(next[id]) {
      if id != p.id { assert next[id] == positions[id]; }
    }
  }

  /** Removing a record keeps the positions valid. */
  lemma RemoveKeepsValid(positions: map<nat, Position>, nextId: nat, id: nat)
    requires PositionsValid(positions, nextId)
    ensures PositionsValid(positions - {id}, nextId)
  {
    var rest := positions - {id};
    assert forall k :: k in rest ==> k in positions && rest[k] == positions[k];
    SubmapKeepsValid(positions, rest, nextId);
  }

  /**
    What `PUT /:positionId` answers: the two checks (400), the ownership
    lookup (404); the update validators run before the query, so an invalid
    patch throws (500) whether or not the position exists; no match is a 404;
    a (portfolio, symbol) key another position holds after the update makes
    it throw (500); otherwise the patched position (200) under the same id,
    in the portfolio the body names or else in the same one.
  */
  function UpdateReply(
    portfolios: map<nat, Portfolio>, positions: map<nat, Position>,
    caller: nat, portfolioId: nat, positionId: nat, patch: PositionPatch
  ): (r: Reply<Position>)
    ensures r.status == BAD_REQUEST <==> UpdateCheck(patch).Some?
    ensures r == Refused(NOT_FOUND, PortfolioNotFound) <==> UpdateCheck(patch).None? && !Owned(portfolios, portfolioId, caller)
    ensures r == Refused(NOT_FOUND, PositionNotFound) <==>
      UpdateCheck(patch).None? && Owned(portfolios, portfolioId, caller) && PatchValid(patch)
      && !InPortfolio(positions, positionId, portfolioId)
    ensures r.Ok? <==>
      && UpdateCheck(patch).None? && Owned(portfolios, portfolioId, caller) && PatchValid(patch)
      && InPortfolio(positions, positionId, portfolioId)
      && !KeyTaken(positions, ApplyPatch(positions[positionId], patch).value.portfolio,
                   ApplyPatch(positions[positionId], patch).value.symbol, Some(positionId))
    ensures r.Ok? ==>
      && r.status == OK
      && r.value == ApplyPatch(positions[positionId], patch).value
      && r.value.id == positions[positionId].id
      && r.value.portfolio == (if patch.portfolio.Some? then patch.portfolio.value else portfolioId)
  {
    var check := UpdateCheck(patch);
    if check.Some? then Refused(BAD_REQUEST, check.value)
    else if !Owned(portfolios, portfolioId, caller) then Refused(NOT_FOUND, PortfolioNotFound)
    else if !PatchValid(patch) then Refused(SERVER_ERROR, InternalServerError)
    else if !InPortfolio(positions, positionId, portfolioId) then Refused(NOT_FOUND, PositionNotFound)
    else
      var updated := ApplyPatch(positions[positionId], patch).value;
      if KeyTaken(positions, updated.portfolio, updated.symbol, Some(positionId)) then Refused(SERVER_ERROR, InternalServerError)
      else Ok(OK, updated)
  }

  /**
    A body that names only a portfolio moves an owned position there, unless
    that portfolio already holds the symbol: nothing checks that the target
    exists or belongs to the caller.
  */
  lemma UpdateMovesPosition(
    portfolios: map<nat, Portfolio>, positions: map<nat, Position>,
    caller: nat, portfolioId: nat, positionId: nat, target: nat)
    requires Owned(portfolios, portfolioId, caller) && InPortfolio(positions, positionId, portfolioId)
    requires !KeyTaken(positions, target, positions[positionId].symbol, Some(positionId))
    ensures var r := UpdateReply(portfolios, positions, caller, portfolioId, positionId,
                                 PositionPatch(Some(target), None, None, None, None));
      && r.Ok?
      && r.value == positions[positionId].(portfolio := target)
  {
  }

  /** The same, for the whole store. */
  lemma ReplaceKeepsStoreValid(portfolios: map<nat, Portfolio>, positions: map<nat, Position>, runs: map<nat, VaRRunModel.VaRRun>,
                               jobs: seq<Job>, prices: Market.PriceStore, nextId: nat, p: Position)
    requires StoreValid(portfolios, positions, runs, jobs, prices, nextId)
    requires p.id in positions
    requires ValidPosition(p) && !KeyTaken(positions, p.portfolio, p.symbol, Some(p.id))
    ensures StoreValid(portfolios, positions[p.id := p], runs, jobs, prices, nextId)
  {
    ReplaceKeepsValid(positions, nextId, p);
  }

  /** `findOneAndUpdate` writing the patched document over the old one. */
  method Replace(store: Store, p: Position)
    requires store.Valid() && p.id in store.positions
    requires ValidPosition(p) && !KeyTaken(store.positions, p.portfolio, p.symbol, Some(p.id))
    modifies store
    ensures store.Valid()
    ensures store.positions == old(store.positions)[p.id := p] && store.nextId == old(store.nextId)
    ensures store.portfolios == old(store.portfolios) && store.runs == old(store.runs)
    ensures store.jobs == old(store.jobs) && store.prices == old(store.prices)
  {
    var next := store.positions[p.id := p];
    ReplaceKeepsStoreValid(store.portfolios, store.positions, store.runs, store.jobs, store.prices, store.nextId, p);
    store.positions := next;
    assert StoreValid(store.portfolios, store.positions, store.runs, store.jobs, store.prices, store.nextId);
  }

  /** `PUT /:positionId`: answers as `UpdateReply` says and writes the patched position, and only it. */
  method UpdatePosition(store: Store, caller: nat, portfolioId: nat, positionId: nat, patch: PositionPatch)
    returns (reply: Reply<Position>)
    requires store.Valid()
    modifies store
    ensures store.Valid()
    ensures reply == UpdateReply(old(store.portfolios), old(store.positions), caller, portfolioId, positionId, patch)
    ensures reply.Ok? ==> store.positions == old(store.positions)[positionId := reply.value]
    ensures reply.Refused? ==> store.positions == old(store.positions)
    ensures store.portfolios == old(store.portfolios) && store.runs == old(store.runs)
    ensures store.jobs == old(store.jobs) && store.prices == old(store.prices) && store.nextId == old(store.nextId)
  {
    var check := UpdateCheck(patch);
    if check.Some? {
      return Refused(BAD_REQUEST, check.value);
    }
    if !Owned(store.portfolios, portfolioId, caller) {
      return Refused(NOT_FOUND, PortfolioNotFound);
    }
    if !PatchValid(patch) {
      return Refused(SERVER_ERROR, InternalServerError);
    }
    if !InPortfolio(store.positions, positionId, portfolioId) {
      return Refused(NOT_FOUND, PositionNotFound);
    }
    var current := store.positions[positionId];
    var updated := ApplyPatch(current, patch).value;
    if KeyTaken(store.positions, updated.portfolio, updated.symbol, Some(positionId)) {
      return Refused(SERVER_ERROR, InternalServerError);
    }
    ApplyPatchKeepsValidity(current, patch);
    Replace(store, updated);
    reply := Ok(OK, updated);
  }

  /**
    `DELETE /:positionId`: the ownership lookup (404), no match (404), otherwise
    the position is removed (200).
  */
  method DeletePosition(store: Store, caller: nat, portfolioId: nat, positionId: nat) returns (reply: Reply<Message>)
    requires store.Valid()
    modifies store
    ensures store.Valid()
    ensures store.portfolios == old(store.portfolios) && store.runs == old(store.runs)
    ensures store.jobs == old(store.jobs) && store.prices == old(store.prices) && store.nextId == old(store.nextId)
    ensures !Owned(old(store.portfolios), portfolioId, caller) ==> reply == Refused(NOT_FOUND, PortfolioNotFound)
    ensures Owned(old(store.portfolios), portfolioId, caller) && !InPortfolio(old(store.positions), positionId, portfolioId) ==>
      reply == Refused(NOT_FOUND, PositionNotFound)
    ensures Owned(old(store.portfolios), portfolioId, caller) && InPortfolio(old(store.positions), positionId, portfolioId) ==>
      reply == Ok(OK, PositionDeleted)
    ensures reply.Ok? ==> store.positions == old(store.positions) - {positionId}
    ensures reply.Refused? ==> store.positions == old(store.positions)
  {
    if !Owned(store.portfolios, portfolioId, caller) {
      return Refused(NOT_FOUND, PortfolioNotFound);
    }
    if !InPortfolio(store.positions, positionId, portfolioId) {
      return Refused(NOT_FOUND, PositionNotFound);
    }
    var rest := store.positions - {positionId};
    RemoveKeepsStoreValid(store.portfolios, store.positions, store.runs, store.jobs, store.prices, store.nextId, positionId);
    store.positions := rest;
    assert StoreValid(store.portfolios, store.positions, store.runs, store.jobs, store.prices, store.nextId);
    reply := Ok(OK, PositionDeleted);
  }

  /** The same, for the whole store. */
  lemma RemoveKeepsStoreValid(portfolios: map<nat, Portfolio>, positions: map<nat, Position>, runs: map<nat, VaRRunModel.VaRRun>,
                              jobs: seq<Job>, prices: Market.PriceStore, nextId: nat, id: nat)
    requires StoreValid(portfolios, positions, runs, jobs, prices, nextId)
    ensures StoreValid(portfolios, positions - {id}, runs, jobs, prices, nextId)
  {
    RemoveKeepsValid(positions, nextId, id);
  }
}
