/**
  The job handler of backend/src/workers/varWorker.js: it loads the queued
  run, marks it running, simulates the portfolio's positions with the run's
  parameters and stores the result as a completed run.
*/
module VaRWorker {
  import opened Wrappers
  import opened Stats
  import Market
  import opened PositionModel
  import opened VaRRunModel
  import opened Database
  import opened ReturnSeries
  import opened Normals
  import MonteCarloVaR
  import VaRRoutes

  datatype WorkerError =
    | RunMissing                    // "VaRRun not found"
    | PortfolioMissing              // `portfolio._id` on a portfolio that no longer exists
    | SimulationFailed(error: VaRError)

  /** `run.params.simulations`, or the calculator's default when the request gave none. */
  function SimulationCount(params: RunParams): (n: int)
    ensures params.simulations.Some? ==> n == params.simulations.value
    ensures params.simulations.None? ==> n == MonteCarloVaR.DefaultSimulations
  {
    if params.simulations.Some? then params.simulations.value else MonteCarloVaR.DefaultSimulations
  }

  /**
    As written, strict mode saves a queued Monte Carlo run without its count
    and without its status: the job then simulates the default 5000 paths
    whatever was asked, and the run is not in any shape the handlers intend.
  */
  lemma StrictSaveAsWritten(run: VaRRun)
    requires run.kind == MonteCarlo && run.params.simulations == Some(100)
    ensures SimulationCount(StrictSave(run).params) == MonteCarloVaR.DefaultSimulations
    ensures SimulationCount(run.params) == 100
    ensures !WellFormedRun(StrictSave(run))
  {
  }

  /** The result sub-document of the record keeps only the schema's paths: the value and the VaR. */
  function StoredResult(mc: MonteCarloVaR.MonteCarloResult): (r: RunResult)
    ensures r.portfolioValue == mc.portfolioValue && r.varValue == mc.varValue && r.quantileReturn.None?
  {
    RunResult(mc.portfolioValue, mc.varValue, None)
  }

  /** What the simulation gives for a stored run, in the store's current state. */
  ghost function Simulation(
    positions: map<nat, Position>, prices: Market.PriceStore, nextId: nat, run: VaRRun, sqrt: real -> real, draw: Draws
  ): Result<MonteCarloVaR.MonteCarloResult, VaRError>
    requires VaRRoutes.Readable(positions, prices)
  {
    VaRRoutes.PositionsOfPositive(positions, run.portfolio, nextId);
    MonteCarloVaR.MonteCarloOutcome(prices, PositionsOf(positions, run.portfolio, nextId),
      run.params.confidence, run.params.horizonDays, SimulationCount(run.params), sqrt, draw)
  }

  /**
    The job's outcome: a missing run fails at once; a run whose portfolio is
    gone, or whose simulation fails, fails after being marked running; a
    successful simulation completes the run with its result.
  */
  ghost function JobOutcome(
    portfolios: map<nat, Portfolio>, positions: map<nat, Position>, prices: Market.PriceStore, runs: map<nat, VaRRun>,
    nextId: nat, runId: nat, sqrt: real -> real, draw: Draws
  ): (r: Result<VaRRun, WorkerError>)
    requires VaRRoutes.Readable(positions, prices)
    ensures r.Failure? && r.error == RunMissing <==> runId !in runs
    ensures r.Failure? && r.error == PortfolioMissing <==> runId in runs && runs[runId].portfolio !in portfolios
    ensures r.Success? <==>
      && runId in runs && runs[runId].portfolio in portfolios
      && Simulation(positions, prices, nextId, runs[runId], sqrt, draw).Success?
    ensures r.Success? ==>
      r.value == runs[runId].(status := Completed,
                              result := Some(StoredResult(Simulation(positions, prices, nextId, runs[runId], sqrt, draw).value)))
  {
    if runId !in runs then Failure(RunMissing)
    else
      var run := runs[runId];
      if run.portfolio !in portfolios then Failure(PortfolioMissing)
      else match Simulation(positions, prices, nextId, run, sqrt, draw)
        case Failure(e) => Failure(SimulationFailed(e))
        case Success(mc) => Success(run.(status := Completed, result := Some(StoredResult(mc))))
  }

  /** The runs after the job: unchanged when the run is missing, else the run's new record. */
  ghost function RunsAfterJob(
    portfolios: map<nat, Portfolio>, positions: map<nat, Position>, prices: Market.PriceStore, runs: map<nat, VaRRun>,
    nextId: nat, runId: nat, sqrt: real -> real, draw: Draws
  ): (after: map<nat, VaRRun>)
    requires VaRRoutes.Readable(positions, prices)
    ensures after.Keys == runs.Keys
    ensures forall id :: id in runs && id != runId ==> after[id] == runs[id]
    ensures runId in runs ==>
      after[runId].status != Queued && after[runId].kind == runs[runId].kind && after[runId].params == runs[runId].params
  {
    if runId !in runs then runs
    else match JobOutcome(portfolios, positions, prices, runs, nextId, runId, sqrt, draw)
      case Success(run) => runs[runId := run]
      case Failure(_) => runs[runId := runs[runId].(status := Running)]
  }

  /** Marking a Monte Carlo run running, or completing it with a result, keeps the run invariant. */
  lemma UpdateRunKeepsValid(runs: map<nat, VaRRun>, jobs: seq<Job>, nextId: nat, run: VaRRun)
    requires RunsValid(runs, jobs, nextId)
    requires run.id in runs && runs[run.id].kind == run.kind == MonteCarlo
    requires run.status == Running || (run.status == Completed && run.result.Some?)
    ensures RunsValid(runs[run.id := run], jobs, nextId)
  {
  }

  /** `findByIdAndUpdate` and `run.save()`: overwrites one Monte Carlo run. */
  method WriteRun(store: Store, run: VaRRun)
    requires store.Valid()
    requires run.id in store.runs && store.runs[run.id].kind == run.kind == MonteCarlo
    requires run.status == Running || (run.status == Completed && run.result.Some?)
    modifies store
    ensures store.Valid()
    ensures store.runs == old(store.runs)[run.id := run]
    ensures store.portfolios == old(store.portfolios) && store.positions == old(store.positions)
    ensures store.jobs == old(store.jobs) && store.prices == old(store.prices) && store.nextId == old(store.nextId)
  {
    UpdateRunKeepsValid(store.runs, store.jobs, store.nextId, run);
    store.runs := store.runs[run.id := run];
  }

  /**
    The handler once the run is marked running: `Portfolio.findById`, whose
    `_id` fails on a portfolio that is gone, then `computeMonteCarloVaR` on
    the portfolio's positions with the run's parameters, then `run.save()` of
    the completed run when it succeeds.
  */
  method CompleteRun(store: Store, run: VaRRun, sqrt: real -> real, draw: Draws) returns (r: Result<VaRRun, WorkerError>)
    requires store.Valid() && IsSqrt(sqrt) && VaRRoutes.Readable(store.positions, store.prices)
    requires run.id in store.runs && store.runs[run.id].kind == run.kind == MonteCarlo
    modifies store
    ensures store.Valid()
    ensures run.portfolio !in old(store.portfolios) ==> r == Failure(PortfolioMissing) && store.runs == old(store.runs)
    ensures run.portfolio in old(store.portfolios) ==>
      var mc := Simulation(old(store.positions), old(store.prices), old(store.nextId), run, sqrt, draw);
      && (mc.Failure? ==> r == Failure(SimulationFailed(mc.error)) && store.runs == old(store.runs))
      && (mc.Success? ==>
            && r == Success(run.(status := Completed, result := Some(StoredResult(mc.value))))
            && store.runs == old(store.runs)[run.id := r.value])
    ensures store.portfolios == old(store.portfolios) && store.positions == old(store.positions)
    ensures store.jobs == old(store.jobs) && store.prices == old(store.prices) && store.nextId == old(store.nextId)
  {
    if run.portfolio !in store.portfolios {
      return Failure(PortfolioMissing);
    }
    var ps := PositionsOf(store.positions, run.portfolio, store.nextId);
    VaRRoutes.PositionsOfPositive(store.positions, run.portfolio, store.nextId);
    var mc := MonteCarloVaR.ComputeMonteCarloVaR(store.prices, ps, run.params.confidence, run.params.horizonDays,
                                                 SimulationCount(run.params), sqrt, draw);
    if mc.Failure? {
      return Failure(SimulationFailed(mc.error));
    }
    var completed := run.(status := Completed, result := Some(StoredResult(mc.value)));
    WriteRun(store, completed);
    r := Success(completed);
  }

  /** A job whose run is missing fails and leaves the runs as they are. */
  lemma MissingRunOutcome(
    portfolios: map<nat, Portfolio>, positions: map<nat, Position>, prices: Market.PriceStore, runs: map<nat, VaRRun>,
    nextId: nat, runId: nat, sqrt: real -> real, draw: Draws)
    requires VaRRoutes.Readable(positions, prices) && runId !in runs
    ensures JobOutcome(portfolios, positions, prices, runs, nextId, runId, sqrt, draw) == Failure(RunMissing)
    ensures RunsAfterJob(portfolios, positions, prices, runs, nextId, runId, sqrt, draw) == runs
  {
  }

  /** A job whose portfolio is gone fails and leaves its run marked running. */
  lemma MissingPortfolioOutcome(
    portfolios: map<nat, Portfolio>, positions: map<nat, Position>, prices: Market.PriceStore, runs: map<nat, VaRRun>,
    nextId: nat, runId: nat, sqrt: real -> real, draw: Draws)
    requires VaRRoutes.Readable(positions, prices) && runId in runs && runs[runId].portfolio !in portfolios
    ensures JobOutcome(portfolios, positions, prices, runs, nextId, runId, sqrt, draw) == Failure(PortfolioMissing)
    ensures RunsAfterJob(portfolios, positions, prices, runs, nextId, runId, sqrt, draw)
      == runs[runId := runs[runId].(status := Running)]
  {
  }

  /** A job whose simulation fails fails with its error and leaves its run marked running. */
  lemma FailedSimulationOutcome(
    portfolios: map<nat, Portfolio>, positions: map<nat, Position>, prices: Market.PriceStore, runs: map<nat, VaRRun>,
    nextId: nat, runId: nat, sqrt: real -> real, draw: Draws)
    requires VaRRoutes.Readable(positions, prices) && runId in runs && runs[runId].portfolio in portfolios
    requires Simulation(positions, prices, nextId, runs[runId], sqrt, draw).Failure?
    ensures JobOutcome(portfolios, positions, prices, runs, nextId, runId, sqrt, draw)
      == Failure(SimulationFailed(Simulation(positions, prices, nextId, runs[runId], sqrt, draw).error))
    ensures RunsAfterJob(portfolios, positions, prices, runs, nextId, runId, sqrt, draw)
      == runs[runId := runs[runId].(status := Running)]
  {
  }

  /** A job whose simulation succeeds completes its run with the result and stores it. */
  lemma CompletedSimulationOutcome(
    portfolios: map<nat, Portfolio>, positions: map<nat, Position>, prices: Market.PriceStore, runs: map<nat, VaRRun>,
    nextId: nat, runId: nat, sqrt: real -> real, draw: Draws)
    requires VaRRoutes.Readable(positions, prices) && runId in runs && runs[runId].portfolio in portfolios
    requires Simulation(positions, prices, nextId, runs[runId], sqrt, draw).Success?
    ensures var completed := runs[runId].(status := Completed,
                                          result := Some(StoredResult(Simulation(positions, prices, nextId, runs[runId], sqrt, draw).value)));
      && JobOutcome(portfolios, positions, prices, runs, nextId, runId, sqrt, draw) == Success(completed)
      && RunsAfterJob(portfolios, positions, prices, runs, nextId, runId, sqrt, draw) == runs[runId := completed]
  {
  }

  /**
    Processes the job for `runId`. Jobs name only Monte Carlo runs (the POST
    handler enqueues no other kind), so a run found under that id is one.
  */
  method ProcessJob(store: Store, runId: nat, sqrt: real -> real, draw: Draws) returns (r: Result<VaRRun, WorkerError>)
    requires store.Valid() && IsSqrt(sqrt)
    requires runId in store.runs ==> store.runs[runId].kind == MonteCarlo
    modifies store
    ensures store.Valid()
    ensures VaRRoutes.Readable(old(store.positions), old(store.prices))
    ensures r == JobOutcome(old(store.portfolios), old(store.positions), old(store.prices), old(store.runs),
                            old(store.nextId), runId, sqrt, draw)
    ensures store.runs == RunsAfterJob(old(store.portfolios), old(store.positions), old(store.prices), old(store.runs),
                                       old(store.nextId), runId, sqrt, draw)
    ensures store.portfolios == old(store.portfolios) && store.positions == old(store.positions)
    ensures store.jobs == old(store.jobs) && store.prices == old(store.prices) && store.nextId == old(store.nextId)
  {
    ghost var portfolios, positions, prices, runs, nextId := store.portfolios, store.positions, store.prices, store.runs, store.nextId;
    VaRRoutes.ValidIsReadable(portfolios, positions, runs, store.jobs, prices, nextId);
    if runId !in store.runs {
      MissingRunOutcome(portfolios, positions, prices, runs, nextId, runId, sqrt, draw);
      return Failure(RunMissing);
    }
    var run := store.runs[runId];
    assert run.id == runId;
    if run.portfolio !in portfolios {
      MissingPortfolioOutcome(portfolios, positions, prices, runs, nextId, runId, sqrt, draw);
    } else if Simulation(positions, prices, nextId, run, sqrt, draw).Failure? {
      FailedSimulationOutcome(portfolios, positions, prices, runs, nextId, runId, sqrt, draw);
    } else {
      CompletedSimulationOutcome(portfolios, positions, prices, runs, nextId, runId, sqrt, draw);
    }
    WriteRun(store, run.(status := Running));
    r := CompleteRun(store, run, sqrt, draw);
    if r.Success? {
      OverwriteTwice(runs, runId, run.(status := Running), r.value);
    }
  }

  /** A second overwrite of the same run replaces the first. */
  lemma OverwriteTwice(runs: map<nat, VaRRun>, id: nat, first: VaRRun, second: VaRRun)
    ensures runs[id := first][id := second] == runs[id := second]
  {
  }

  /**
    A completed run holds the simulated portfolio value, which is positive
    when every stored price is (as the price worker writes them) and negative
    when every stored price is negative, and a VaR exactly when the run asked
    for at least one simulation.
  */
  lemma CompletedRunShape(
    portfolios: map<nat, Portfolio>, positions: map<nat, Position>, prices: Market.PriceStore, runs: map<nat, VaRRun>,
    nextId: nat, runId: nat, sqrt: real -> real, draw: Draws)
    requires VaRRoutes.Readable(positions, prices)
    requires JobOutcome(portfolios, positions, prices, runs, nextId, runId, sqrt, draw).Success?
    ensures var run := JobOutcome(portfolios, positions, prices, runs, nextId, runId, sqrt, draw).value;
      && run.status == Completed && run.result.Some?
      && (Market.PositivePrices(prices) ==> run.result.value.portfolioValue > 0.0)
      && (Market.NegativePrices(prices) ==> run.result.value.portfolioValue < 0.0)
      && (run.result.value.varValue.Some? <==> SimulationCount(run.params) > 0)
  {
    var run := runs[runId];
    var ps := PositionsOf(positions, run.portfolio, nextId);
    VaRRoutes.PositionsOfPositive(positions, run.portfolio, nextId);
    MonteCarloVaR.MonteCarloShape(prices, ps, run.params.confidence, run.params.horizonDays,
      SimulationCount(run.params), sqrt, draw);
  }
}
