/**
  The Position schema of backend/src/models/Position.js: the record, the casts
  Mongoose applies to `symbol` (upper-case, trim) and `currency` (default),
  the validators (required fields, minimums, the currency enum) and the unique
  index on (portfolio, symbol).
*/
module PositionModel {
  import opened Wrappers
  import Text

  /** The currencies both schemas allow. */
  datatype Currency = USD | EUR | GBP | JPY | GHS

  function CurrencyName(c: Currency): string
  {
    match c
    case USD => "USD"
    case EUR => "EUR"
    case GBP => "GBP"
    case JPY => "JPY"
    case GHS => "GHS"
  }

  /**
    The enum validator with its default: an absent currency becomes USD, a
    present one must be one of the five names exactly.
  */
  function ParseCurrency(text: Option<string>): (r: Option<Currency>)
    ensures text.None? ==> r == Some(USD)
    ensures text.Some? && r.Some? ==> CurrencyName(r.value) == text.value
    ensures text.Some? && r.None? ==> forall c: Currency :: CurrencyName(c) != text.value
  {
    match text
    case None => Some(USD)
    case Some(s) =>
      if s == "USD" then Some(USD)
      else if s == "EUR" then Some(EUR)
      else if s == "GBP" then Some(GBP)
      else if s == "JPY" then Some(JPY)
      else if s == "GHS" then Some(GHS)
      else None
  }

  lemma CurrencyRoundTrip(c: Currency)
    ensures ParseCurrency(Some(CurrencyName(c))) == Some(c)
  {
  }

  datatype Position = Position(
    id: nat,
    portfolio: nat,
    symbol: string,
    quantity: real,
    avgPrice: real,
    currency: Currency)

  /**
    The `uppercase` and `trim` setters of the symbol path. The schema lists
    `uppercase` first; the two commute (`NormalizeSymbolIdempotent`), and
    trimming first is the form used here.
  */
  function NormalizeSymbol(s: string): string
  {
    Text.ToUpper(Text.Trim(s))
  }

  /** The two setters commute, and storing a stored symbol again changes nothing. */
  lemma NormalizeSymbolIdempotent(s: string)
    ensures NormalizeSymbol(NormalizeSymbol(s)) == NormalizeSymbol(s)
    ensures NormalizeSymbol(s) == Text.Trim(Text.ToUpper(s))
  {
    var t := Text.Trim(s);
    Text.TrimCommutesWithUpper(s);
    Text.TrimIdempotent(s);
    Text.TrimCommutesWithUpper(t);
    Text.ToUpperIdempotent(t);
  }

  /** What the schema lets a stored position be. */
  ghost predicate ValidPosition(p: Position)
  {
    && |p.symbol| > 0
    && NormalizeSymbol(p.symbol) == p.symbol
    && p.quantity >= 1.0
    && p.avgPrice >= 0.0
  }

  /** What a holding cost: `quantity * avgPrice`. */
  function CostBasis(p: Position): real
  {
    p.quantity * p.avgPrice
  }

  /** A holding of at least one unit bought at a non-negative price cost nothing negative. */
  lemma CostBasisNonNegative(p: Position)
    requires p.quantity >= 1.0 && p.avgPrice >= 0.0
    ensures CostBasis(p) >= 0.0
  {
  }

  datatype ValidationError =
    | SymbolRequired
    | QuantityRequired
    | QuantityBelowMinimum
    | AvgPriceRequired
    | AvgPriceNegative
    | CurrencyNotAllowed

  /**
    `new Position({ symbol, quantity, avgPrice, currency, portfolio })`
    followed by the validation `save` runs: the normalised record, or the
    first validator that fails.
  */
  function MakePosition(
    id: nat, portfolio: nat,
    symbol: Option<string>, quantity: Option<real>, avgPrice: Option<real>, currency: Option<string>
  ): (r: Result<Position, ValidationError>)
    ensures r.Success? <==>
      && symbol.Some? && |NormalizeSymbol(symbol.value)| > 0
      && quantity.Some? && quantity.value >= 1.0
      && avgPrice.Some? && avgPrice.value >= 0.0
      && ParseCurrency(currency).Some?
    ensures r.Success? ==>
      && ValidPosition(r.value)
      && r.value.id == id && r.value.portfolio == portfolio
      && r.value.symbol == NormalizeSymbol(symbol.value)
      && r.value.quantity == quantity.value && r.value.avgPrice == avgPrice.value
      && r.value.currency == ParseCurrency(currency).value
  {
    if symbol.None? || |NormalizeSymbol(symbol.value)| == 0 then Failure(SymbolRequired)
    else if quantity.None? then Failure(QuantityRequired)
    else if quantity.value < 1.0 then Failure(QuantityBelowMinimum)
    else if avgPrice.None? then Failure(AvgPriceRequired)
    else if avgPrice.value < 0.0 then Failure(AvgPriceNegative)
    else match ParseCurrency(currency)
      case None => Failure(CurrencyNotAllowed)
      case Some(c) =>
        NormalizeSymbolIdempotent(symbol.value);
        Success(Position(id, portfolio, NormalizeSymbol(symbol.value), quantity.value, avgPrice.value, c))
  }

  /**
    The fields of a PUT body that the schema knows, `portfolio` among them;
    an absent field is left as it is.
  */
  datatype PositionPatch = PositionPatch(
    portfolio: Option<nat>,
    symbol: Option<string>,
    quantity: Option<real>,
    avgPrice: Option<real>,
    currency: Option<string>)

  /**
    The update validators pass: a present symbol is not blank once trimmed, a
    present quantity is at least 1, a present average price is not negative and
    a present currency is one of the five. They look at the patch only.
  */
  predicate PatchValid(patch: PositionPatch)
  {
    && (patch.symbol.Some? ==> |NormalizeSymbol(patch.symbol.value)| > 0)
    && (patch.quantity.Some? ==> patch.quantity.value >= 1.0)
    && (patch.avgPrice.Some? ==> patch.avgPrice.value >= 0.0)
    && (patch.currency.Some? ==> ParseCurrency(patch.currency).Some?)
  }

  /**
    `findOneAndUpdate(…, body, { runValidators: true })` on one record: the
    present fields are cast by the same setters and checked by the same
    validators; an invalid patch changes nothing. A present `portfolio` moves
    the record to that portfolio, whoever owns it and whether or not it exists.
  */
  function ApplyPatch(p: Position, patch: PositionPatch): (r: Result<Position, ValidationError>)
    ensures r.Success? <==> PatchValid(patch)
    ensures r.Success? ==> r.value.id == p.id
    ensures r.Success? ==> r.value.portfolio == (if patch.portfolio.Some? then patch.portfolio.value else p.portfolio)
    ensures r.Success? ==>
      && r.value.symbol == (if patch.symbol.Some? then NormalizeSymbol(patch.symbol.value) else p.symbol)
      && r.value.quantity == (if patch.quantity.Some? then patch.quantity.value else p.quantity)
      && r.value.avgPrice == (if patch.avgPrice.Some? then patch.avgPrice.value else p.avgPrice)
      && (patch.currency.None? ==> r.value.currency == p.currency)
      && (patch.currency.Some? ==> ParseCurrency(patch.currency).Some? && r.value.currency == ParseCurrency(patch.currency).value)
  {
    if patch.symbol.Some? && |NormalizeSymbol(patch.symbol.value)| == 0 then Failure(SymbolRequired)
    else if patch.quantity.Some? && patch.quantity.value < 1.0 then Failure(QuantityBelowMinimum)
    else if patch.avgPrice.Some? && patch.avgPrice.value < 0.0 then Failure(AvgPriceNegative)
    else if patch.currency.Some? && ParseCurrency(patch.currency).None? then Failure(CurrencyNotAllowed)
    else
      Success(p.(
        portfolio := if patch.portfolio.Some? then patch.portfolio.value else p.portfolio,
        symbol := if patch.symbol.Some? then NormalizeSymbol(patch.symbol.value) else p.symbol,
        quantity := if patch.quantity.Some? then patch.quantity.value else p.quantity,
        avgPrice := if patch.avgPrice.Some? then patch.avgPrice.value else p.avgPrice,
        currency := if patch.currency.Some? then ParseCurrency(patch.currency).value else p.currency))
  }

  /** A successful update of a valid record is valid, and an empty patch is the identity. */
  lemma ApplyPatchKeepsValidity(p: Position, patch: PositionPatch)
    requires ValidPosition(p)
    ensures ApplyPatch(p, patch).Success? ==> ValidPosition(ApplyPatch(p, patch).value)
    ensures patch == PositionPatch(None, None, None, None, None) ==> ApplyPatch(p, patch) == Success(p)
  {
    if patch.symbol.Some? {
      NormalizeSymbolIdempotent(patch.symbol.value);
    }
  }

  /** The unique index on (portfolio, symbol): no two stored positions share both. */
  ghost predicate UniqueKeys(positions: map<nat, Position>)
  {
    forall a, b :: a in positions && b in positions && a != b ==>
      positions[a].portfolio != positions[b].portfolio || positions[a].symbol != positions[b].symbol
  }

  /** Dropping records keeps the (portfolio, symbol) index unique. */
  lemma SubmapKeepsUniqueKeys(positions: map<nat, Position>, rest: map<nat, Position>)
    requires UniqueKeys(positions)
    requires forall k :: k in rest ==> k in positions && rest[k] == positions[k]
    ensures UniqueKeys(rest)
  {
  }

  /** Whether a record other than `except` already holds this (portfolio, symbol) key. */
  predicate KeyTaken(positions: map<nat, Position>, portfolio: nat, symbol: string, except: Option<nat>)
  {
    exists id :: id in positions && Some(id) != except
      && positions[id].portfolio == portfolio && positions[id].symbol == symbol
  }

  /** Writing a record whose key no other record holds keeps the index unique. */
  lemma StoreKeepsUniqueKeys(positions: map<nat, Position>, p: Position)
    requires UniqueKeys(positions)
    requires !KeyTaken(positions, p.portfolio, p.symbol, Some(p.id))
    ensures UniqueKeys(positions[p.id := p])
  {
  }
}
