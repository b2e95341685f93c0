/**
  The MongoDB collections the handlers read and write, as one store: the
  Portfolio, Position, VaRRun and MarketPrice collections, the BullMQ
  `montecarlo-var` queue's jobs, and the id counter that hands out `_id`
  values in increasing order (so a collection's natural order is id order).
*/
module Database {
  import opened Wrappers
  import Market
  import opened PositionModel
  import opened VaRRunModel

  /** A Portfolio document of backend/src/models/Portfolio.js. */
  datatype Portfolio = Portfolio(id: nat, name: string, baseCurrency: Currency, user: nat)

  /** `varQueue.add(name, { runId }, { attempts, backoff: { type: "exponential", delay } })`. */
  datatype Job = Job(id: nat, name: string, runId: nat, attempts: nat, backoffDelay: nat)

  class Store {
    var portfolios: map<nat, Portfolio>
    var positions: map<nat, Position>
    var runs: map<nat, VaRRun>
    var jobs: seq<Job>
    var prices: Market.PriceStore
    var nextId: nat

    /**
      The store's invariant: every document sits under its own id below the
      counter; positions are valid and keep the unique (portfolio, symbol)
      index; portfolios keep the unique
      (user, name) index; runs have the shapes the handlers give them; every
      job names a Monte Carlo run; job ids count the jobs; no price is zero.
    */
    ghost predicate Valid()
      reads this
    {
      StoreValid(portfolios, positions, runs, jobs, prices, nextId)
    }

    /** An empty database. */
    constructor ()
      ensures Valid()
      ensures portfolios == map[] && positions == map[] && runs == map[] && jobs == [] && prices == map[]
    {
      portfolios := map[];
      positions := map[];
      runs := map[];
      jobs := [];
      prices := map[];
      nextId := 0;
    }
  }

  /** The store's invariant on the values of its collections, as `Store.Valid` states it. */
  ghost predicate StoreValid(portfolios: map<nat, Portfolio>, positions: map<nat, Position>, runs: map<nat, VaRRun>,
                             jobs: seq<Job>, prices: Market.PriceStore, nextId: nat)
  {
    && PortfoliosValid(portfolios, nextId)
    && PositionsValid(positions, nextId)
    && RunsValid(runs, jobs, nextId)
    && Market.NonZeroQuotes(prices)
  }

  /** Portfolios sit under their ids below the counter and keep the unique (user, name) index. */
  ghost predicate PortfoliosValid(portfolios: map<nat, Portfolio>, nextId: nat)
  {
    && (forall id :: id in portfolios ==> portfolios[id].id == id && id < nextId)
    && UniqueNames(portfolios)
  }

  /**
    Positions sit under their ids below the counter, satisfy the schema and
    keep the unique (portfolio, symbol) index. The portfolio a position names
    need not exist: `PUT /:positionId` can move a position to any portfolio id.
  */
  ghost predicate PositionsValid(positions: map<nat, Position>, nextId: nat)
  {
    && (forall id :: id in positions ==> positions[id].id == id && id < nextId)
    && (forall id :: id in positions ==> ValidPosition(positions[id]))
    && UniqueKeys(positions)
  }

  /** Dropping records from a valid position store keeps it valid. */
  lemma SubmapKeepsValid(positions: map<nat, Position>, rest: map<nat, Position>, nextId: nat)
    requires PositionsValid(positions, nextId)
    requires forall k :: k in rest ==> k in positions && rest[k] == positions[k]
    ensures PositionsValid(rest, nextId)
  {
    SubmapKeepsRecords(positions, rest, nextId);
    SubmapKeepsUniqueKeys(positions, rest);
  }

  /** Every record of a smaller store is a record of the valid store: under its id and well-formed. */
  lemma SubmapKeepsRecords(positions: map<nat, Position>, rest: map<nat, Position>, nextId: nat)
    requires forall id :: id in positions ==> positions[id].id == id && id < nextId
    requires forall id :: id in positions ==> ValidPosition(positions[id])
    requires forall k :: k in rest ==> k in positions && rest[k] == positions[k]
    ensures forall id :: id in rest ==> rest[id].id == id && id < nextId
    ensures forall id :: id in rest ==> ValidPosition(rest[id])
  {
  }

  /** Runs sit under their ids below the counter with the handlers' shapes; jobs are numbered and name Monte Carlo runs. */
  ghost predicate RunsValid(runs: map<nat, VaRRun>, jobs: seq<Job>, nextId: nat)
  {
    && (forall id :: id in runs ==> runs[id].id == id && id < nextId)
    && (forall id :: id in runs ==> WellFormedRun(runs[id]))
    && (forall k :: 0 <= k < |jobs| ==> jobs[k].id == k + 1 && jobs[k].runId in runs && runs[jobs[k].runId].kind == MonteCarlo)
  }

  /** Raising the counter keeps every part of the invariant. */
  lemma CounterGrowth(portfolios: map<nat, Portfolio>, positions: map<nat, Position>, runs: map<nat, VaRRun>, jobs: seq<Job>,
                      nextId: nat, later: nat)
    requires nextId <= later
    ensures PortfoliosValid(portfolios, nextId) ==> PortfoliosValid(portfolios, later)
    ensures PositionsValid(positions, nextId) ==> PositionsValid(positions, later)
    ensures RunsValid(runs, jobs, nextId) ==> RunsValid(runs, jobs, later)
  {
  }

  /** The unique index on (user, name) of the Portfolio schema. */
  ghost predicate UniqueNames(portfolios: map<nat, Portfolio>)
  {
    forall a, b :: a in portfolios && b in portfolios && a != b ==>
      portfolios[a].user != portfolios[b].user || portfolios[a].name != portfolios[b].name
  }

  /** `Portfolio.findOne({ _id: portfolioId, user })` finds a document. */
  predicate Owned(portfolios: map<nat, Portfolio>, portfolioId: nat, user: nat)
  {
    portfolioId in portfolios && portfolios[portfolioId].user == user
  }

  /** The positions with an id below `bound` that reference the portfolio, in id order. */
  function PositionsBelow(positions: map<nat, Position>, portfolioId: nat, bound: nat): (ps: seq<Position>)
    ensures |ps| <= bound
  {
    if bound == 0 then []
    else
      var id := bound - 1;
      PositionsBelow(positions, portfolioId, id)
        + (if id in positions && positions[id].portfolio == portfolioId then [positions[id]] else [])
  }

  /** `Position.find({ portfolio: portfolioId })`. */
  function PositionsOf(positions: map<nat, Position>, portfolioId: nat, nextId: nat): seq<Position>
  {
    PositionsBelow(positions, portfolioId, nextId)
  }

  /** The ids of the stored positions below `bound` that reference the portfolio. */
  ghost function ReferencingBelow(positions: map<nat, Position>, portfolioId: nat, bound: nat): set<nat>
  {
    set id | id in positions && id < bound && positions[id].portfolio == portfolioId
  }

  /** One more id extends the query's result by that position when it references the portfolio. */
  lemma PositionsBelowStep(positions: map<nat, Position>, portfolioId: nat, bound: nat)
    requires bound > 0
    ensures var id := bound - 1;
      PositionsBelow(positions, portfolioId, bound) == PositionsBelow(positions, portfolioId, id)
        + (if id in positions && positions[id].portfolio == portfolioId then [positions[id]] else [])
    ensures var id := bound - 1;
      ReferencingBelow(positions, portfolioId, bound) == ReferencingBelow(positions, portfolioId, id)
        + (if id in positions && positions[id].portfolio == portfolioId then {id} else {})
  {
  }

  /** The query returns as many positions as there are referencing documents. */
  lemma {:induction false} PositionsBelowCount(positions: map<nat, Position>, portfolioId: nat, bound: nat)
    ensures |PositionsBelow(positions, portfolioId, bound)| == |ReferencingBelow(positions, portfolioId, bound)|
  {
    if bound > 0 {
      var id := bound - 1;
      PositionsBelowCount(positions, portfolioId, id);
      PositionsBelowStep(positions, portfolioId, bound);
      assert id !in ReferencingBelow(positions, portfolioId, id);
    }
  }

  /** Each returned position is a stored, referencing document below the bound. */
  lemma {:induction false} PositionsBelowSound(positions: map<nat, Position>, portfolioId: nat, bound: nat)
    requires forall id :: id in positions ==> positions[id].id == id
    ensures forall k :: 0 <= k < |PositionsBelow(positions, portfolioId, bound)| ==>
      var p := PositionsBelow(positions, portfolioId, bound)[k];
      p.id in ReferencingBelow(positions, portfolioId, bound) && positions[p.id] == p
  {
    if bound > 0 {
      var id := bound - 1;
      PositionsBelowSound(positions, portfolioId, id);
      PositionsBelowStep(positions, portfolioId, bound);
      var before := PositionsBelow(positions, portfolioId, id);
      var ps := PositionsBelow(positions, portfolioId, bound);
      forall k | 0 <= k < |ps|
        ensures ps[k].id in ReferencingBelow(positions, portfolioId, bound) && positions[ps[k].id] == ps[k]
      {
        if k < |before| {
          assert ps[k] == before[k];
        }
      }
    }
  }

  /** The query lists the positions in increasing id order. */
  lemma {:induction false} PositionsBelowOrdered(positions: map<nat, Position>, portfolioId: nat, bound: nat)
    requires forall id :: id in positions ==> positions[id].id == id
    ensures forall a, b :: 0 <= a < b < |PositionsBelow(positions, portfolioId, bound)| ==>
      PositionsBelow(positions, portfolioId, bound)[a].id < PositionsBelow(positions, portfolioId, bound)[b].id
  {
    if bound > 0 {
      var id := bound - 1;
      PositionsBelowOrdered(positions, portfolioId, id);
      PositionsBelowSound(positions, portfolioId, id);
      PositionsBelowStep(positions, portfolioId, bound);
      var before := PositionsBelow(positions, portfolioId, id);
      var ps := PositionsBelow(positions, portfolioId, bound);
      forall a, b | 0 <= a < b < |ps| ensures ps[a].id < ps[b].id {
        assert ps[a] == before[a];
        if b < |before| {
          assert ps[b] == before[b];
        } else {
          assert before[a].id in ReferencingBelow(positions, portfolioId, id);
        }
      }
    }
  }

  /** Every referencing document below the bound is returned. */
  lemma {:induction false} PositionsBelowComplete(positions: map<nat, Position>, portfolioId: nat, bound: nat)
    ensures forall id :: id in ReferencingBelow(positions, portfolioId, bound) ==> positions[id] in PositionsBelow(positions, portfolioId, bound)
  {
    if bound > 0 {
      var last := bound - 1;
      PositionsBelowComplete(positions, portfolioId, last);
      PositionsBelowStep(positions, portfolioId, bound);
      var before := PositionsBelow(positions, portfolioId, last);
      var ps := PositionsBelow(positions, portfolioId, bound);
      forall id | id in ReferencingBelow(positions, portfolioId, bound) ensures positions[id] in ps {
        if id != last {
          assert id in ReferencingBelow(positions, portfolioId, last);
          assert positions[id] in before;
        }
      }
    }
  }

  /**
    The query returns every referencing position once, in increasing id
    order, and nothing else: its length is the number of referencing
    documents and its k-th element is one of them.
  */
  lemma PositionsBelowContents(positions: map<nat, Position>, portfolioId: nat, bound: nat)
    requires forall id :: id in positions ==> positions[id].id == id
    ensures |PositionsBelow(positions, portfolioId, bound)| == |ReferencingBelow(positions, portfolioId, bound)|
    ensures forall k :: 0 <= k < |PositionsBelow(positions, portfolioId, bound)| ==>
      var p := PositionsBelow(positions, portfolioId, bound)[k];
      p.id in ReferencingBelow(positions, portfolioId, bound) && positions[p.id] == p
    ensures forall a, b :: 0 <= a < b < |PositionsBelow(positions, portfolioId, bound)| ==>
      PositionsBelow(positions, portfolioId, bound)[a].id < PositionsBelow(positions, portfolioId, bound)[b].id
    ensures forall id :: id in ReferencingBelow(positions, portfolioId, bound) ==> positions[id] in PositionsBelow(positions, portfolioId, bound)
  {
    PositionsBelowCount(positions, portfolioId, bound);
    PositionsBelowSound(positions, portfolioId, bound);
    PositionsBelowOrdered(positions, portfolioId, bound);
    PositionsBelowComplete(positions, portfolioId, bound);
  }

  /** Positions of a valid store hold at least one unit. */
  lemma PositionsOfValid(positions: map<nat, Position>, portfolioId: nat, bound: nat)
    requires forall id :: id in positions ==> positions[id].id == id && ValidPosition(positions[id])
    ensures forall k :: 0 <= k < |PositionsBelow(positions, portfolioId, bound)| ==>
      ValidPosition(PositionsBelow(positions, portfolioId, bound)[k])
      && PositionsBelow(positions, portfolioId, bound)[k].portfolio == portfolioId
  {
    PositionsBelowContents(positions, portfolioId, bound);
  }

  /** The portfolios of a user with an id below `bound`, in id order: `Portfolio.find({ user })`. */
  function PortfoliosBelow(portfolios: map<nat, Portfolio>, user: nat, bound: nat): (r: seq<Portfolio>)
    ensures |r| <= bound
  {
    if bound == 0 then []
    else
      var id := bound - 1;
      PortfoliosBelow(portfolios, user, id)
        + (if id in portfolios && portfolios[id].user == user then [portfolios[id]] else [])
  }

  /** The user's portfolios, each once, in increasing id order. */
  lemma {:induction false} PortfoliosBelowContents(portfolios: map<nat, Portfolio>, user: nat, bound: nat)
    requires forall id :: id in portfolios ==> portfolios[id].id == id
    ensures forall k :: 0 <= k < |PortfoliosBelow(portfolios, user, bound)| ==>
      var p := PortfoliosBelow(portfolios, user, bound)[k];
      p.id in portfolios && portfolios[p.id] == p && p.user == user && p.id < bound
    ensures forall a, b :: 0 <= a < b < |PortfoliosBelow(portfolios, user, bound)| ==>
      PortfoliosBelow(portfolios, user, bound)[a].id < PortfoliosBelow(portfolios, user, bound)[b].id
    ensures forall id :: id in portfolios && id < bound && portfolios[id].user == user ==>
      portfolios[id] in PortfoliosBelow(portfolios, user, bound)
  {
    if bound > 0 {
      PortfoliosBelowContents(portfolios, user, bound - 1);
    }
  }

  /** The runs of a user with an id below `bound`, the largest id first: `VaRRun.find({ user }).sort({ createdAt: -1 })`. */
  function RunsNewestFirst(runs: map<nat, VaRRun>, user: nat, bound: nat): (r: seq<VaRRun>)
    ensures |r| <= bound
  {
    if bound == 0 then []
    else
      var id := bound - 1;
      (if id in runs && runs[id].user == user then [runs[id]] else []) + RunsNewestFirst(runs, user, id)
  }

  /** The newest-first runs are the user's runs, ids strictly decreasing. */
  lemma {:induction false} RunsNewestFirstContents(runs: map<nat, VaRRun>, user: nat, bound: nat)
    requires forall id :: id in runs ==> runs[id].id == id
    ensures forall k :: 0 <= k < |RunsNewestFirst(runs, user, bound)| ==>
      var r := RunsNewestFirst(runs, user, bound)[k];
      r.id in runs && runs[r.id] == r && r.user == user && r.id < bound
    ensures forall a, b :: 0 <= a < b < |RunsNewestFirst(runs, user, bound)| ==>
      RunsNewestFirst(runs, user, bound)[a].id > RunsNewestFirst(runs, user, bound)[b].id
    ensures forall id :: id in runs && id < bound && runs[id].user == user ==> runs[id] in RunsNewestFirst(runs, user, bound)
  {
    if bound > 0 {
      RunsNewestFirstContents(runs, user, bound - 1);
    }
  }
}
