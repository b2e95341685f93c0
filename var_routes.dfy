/**
  The VaR endpoints of backend/src/routes/varRoutes.js: `POST /` runs a
  parametric or historical calculation and stores the run, or stores a
  queued Monte Carlo run and enqueues a job for it; `GET /:runId` returns one
  of the caller's runs.
*/
module VaRRoutes {
  import opened Wrappers
  import opened Stats
  import Market
  import opened Http
  import opened PositionModel
  import opened VaRRunModel
  import opened Database
  import opened ReturnSeries
  import ParametricVaR
  import HistoricalVaR

  /** The request body fields the handler destructures. */
  datatype VaRBody = VaRBody(methodName: Option<string>, confidence: Option<real>, horizonDays: Option<real>, simulations: Option<int>)

  /** The two success bodies: the stored run (201) or the queue receipt (202). */
  datatype PostAnswer = RunCreated(run: VaRRun) | RunQueued(runId: nat, jobId: nat)

  /** The name and options every Monte Carlo job is enqueued with. */
  const JobName := "montecarlo-run"
  const JobAttempts := 3
  const JobBackoffDelay := 5000

  /** The positions of a valid store hold positive quantities, as every calculator requires. */
  lemma PositionsOfPositive(positions: map<nat, Position>, portfolioId: nat, nextId: nat)
    requires forall id :: id in positions ==> positions[id].id == id && ValidPosition(positions[id])
    ensures PositiveQuantities(PositionsOf(positions, portfolioId, nextId))
  {
    var ps := PositionsOf(positions, portfolioId, nextId);
    PositionsOfValid(positions, portfolioId, nextId);
    forall i | 0 <= i < |ps| ensures ps[i].quantity > 0.0 {
      assert ValidPosition(ps[i]);
    }
  }

  /** What the record stores of a parametric or historical result: its value, its VaR and (historical only) its quantile. */
  function SyncResult(
    kind: Method, prices: Market.PriceStore, ps: seq<Position>, confidence: real, horizonDays: real, sqrt: real -> real
  ): (r: Result<RunResult, VaRError>)
    requires kind != MonteCarlo
    requires |ps| > 0 && Market.NonZeroQuotes(prices) && PositiveQuantities(ps)
    ensures kind == Parametric ==>
      && (r.Success? <==> ParametricVaR.ParametricOutcome(prices, ps, confidence, horizonDays, sqrt).Success?)
      && (r.Success? ==>
        var v := ParametricVaR.ParametricOutcome(prices, ps, confidence, horizonDays, sqrt).value;
        r.value == RunResult(v.portfolioValue, Some(v.varValue), None))
    ensures kind == Historical ==>
      && (r.Success? <==> HistoricalVaR.HistoricalOutcome(prices, ps, confidence, horizonDays, sqrt).Success?)
      && (r.Success? ==>
        var v := HistoricalVaR.HistoricalOutcome(prices, ps, confidence, horizonDays, sqrt).value;
        r.value == RunResult(v.portfolioValue, Some(v.varValue), Some(v.quantileReturn)))
  {
    if kind == Parametric then
      match ParametricVaR.ParametricOutcome(prices, ps, confidence, horizonDays, sqrt)
      case Failure(e) => Failure(e)
      case Success(v) => Success(RunResult(v.portfolioValue, Some(v.varValue), None))
    else
      match HistoricalVaR.HistoricalOutcome(prices, ps, confidence, horizonDays, sqrt)
      case Failure(e) => Failure(e)
      case Success(v) => Success(RunResult(v.portfolioValue, Some(v.varValue), Some(v.quantileReturn)))
  }

  /** The queued run the Monte Carlo branch creates: no result yet, the simulation count kept. */
  function QueuedRun(id: nat, portfolioId: nat, caller: nat, body: VaRBody, now: int): Result<VaRRun, RunValidationError>
  {
    MakeRun(id, portfolioId, caller, MonteCarlo, body.confidence, body.horizonDays, body.simulations, Queued, None, now)
  }

  /** The request-independent state the POST handler reads. */
  ghost predicate Readable(positions: map<nat, Position>, prices: Market.PriceStore)
  {
    && (forall id :: id in positions ==> positions[id].id == id && ValidPosition(positions[id]))
    && Market.NonZeroQuotes(prices)
  }

  /** A valid store can be read by every calculator. */
  lemma ValidIsReadable(portfolios: map<nat, Portfolio>, positions: map<nat, Position>, runs: map<nat, VaRRun>,
                        jobs: seq<Job>, prices: Market.PriceStore, nextId: nat)
    requires StoreValid(portfolios, positions, runs, jobs, prices, nextId)
    ensures Readable(positions, prices)
  {
  }

  /**
    What `POST /` answers. In order: a portfolio the caller does not own is a
    404; a portfolio without positions a 400; an unknown method a 400. A
    parametric or historical request computes; a missing parameter fails the
    record's validation and a failed calculation throws, both a 500;
    otherwise the new run (201), holding the parameters without a simulation
    count and no status. A Monte Carlo request with its parameters present
    answers 202 with the new run's id and the next job id; without them the
    record's validation fails (500).
  */
  function PostReply(
    portfolios: map<nat, Portfolio>, positions: map<nat, Position>, prices: Market.PriceStore, nextId: nat, jobCount: nat,
    caller: nat, portfolioId: nat, body: VaRBody, now: int, sqrt: real -> real
  ): (r: Reply<PostAnswer>)
    requires Readable(positions, prices)
    ensures r == Refused(NOT_FOUND, PortfolioNotFound) <==> !Owned(portfolios, portfolioId, caller)
    ensures r == Refused(BAD_REQUEST, NoPositions) <==>
      Owned(portfolios, portfolioId, caller) && |PositionsOf(positions, portfolioId, nextId)| == 0
    ensures r == Refused(BAD_REQUEST, UnsupportedMethod) <==>
      && Owned(portfolios, portfolioId, caller) && |PositionsOf(positions, portfolioId, nextId)| > 0
      && (body.methodName.None? || ParseMethod(body.methodName.value).None?)
    ensures r.Ok? && r.value.RunQueued? <==>
      && Owned(portfolios, portfolioId, caller) && |PositionsOf(positions, portfolioId, nextId)| > 0
      && body.methodName == Some("montecarlo") && body.confidence.Some? && body.horizonDays.Some?
    ensures r.Ok? && r.value.RunQueued? ==>
      r == Ok(ACCEPTED, RunQueued(nextId, jobCount + 1))
    ensures r.Ok? && r.value.RunCreated? ==>
      var run := r.value.run;
      && r.status == CREATED
      && Owned(portfolios, portfolioId, caller) && |PositionsOf(positions, portfolioId, nextId)| > 0
      && body.methodName.Some? && ParseMethod(body.methodName.value) == Some(run.kind) && run.kind != MonteCarlo
      && body.confidence.Some? && body.horizonDays.Some?
      && run == VaRRun(nextId, portfolioId, caller, run.kind, RunParams(body.confidence.value, body.horizonDays.value, None),
                       Unset, run.result, now)
      && run.result.Some?
      && PositiveQuantities(PositionsOf(positions, portfolioId, nextId))
      && Success(run.result.value)
         == SyncResult(run.kind, prices, PositionsOf(positions, portfolioId, nextId), body.confidence.value, body.horizonDays.value, sqrt)
      && WellFormedRun(run)
    ensures r.Refused? && r.status == SERVER_ERROR ==> r.message == InternalServerError
  {
    PositionsOfPositive(positions, portfolioId, nextId);
    if !Owned(portfolios, portfolioId, caller) then Refused(NOT_FOUND, PortfolioNotFound)
    else
      var ps := PositionsOf(positions, portfolioId, nextId);
      if |ps| == 0 then Refused(BAD_REQUEST, NoPositions)
      else if body.methodName.None? || ParseMethod(body.methodName.value).None? then Refused(BAD_REQUEST, UnsupportedMethod)
      else
        var kind := ParseMethod(body.methodName.value).value;
        if kind == MonteCarlo then
          match QueuedRun(nextId, portfolioId, caller, body, now)
          case Failure(_) => Refused(SERVER_ERROR, InternalServerError)
          case Success(run) => Ok(ACCEPTED, RunQueued(run.id, jobCount + 1))
        else if body.confidence.None? || body.horizonDays.None? then Refused(SERVER_ERROR, InternalServerError)
        else
          match SyncResult(kind, prices, ps, body.confidence.value, body.horizonDays.value, sqrt)
          case Failure(_) => Refused(SERVER_ERROR, InternalServerError)
          case Success(result) =>
            Ok(CREATED, RunCreated(VaRRun(nextId, portfolioId, caller, kind,
              RunParams(body.confidence.value, body.horizonDays.value, None), Unset, Some(result), now)))
  }

  /** A well-formed run under the counter's id keeps the run invariant. */
  lemma AddRunKeepsValid(runs: map<nat, VaRRun>, jobs: seq<Job>, nextId: nat, run: VaRRun)
    requires RunsValid(runs, jobs, nextId)
    requires run.id == nextId && WellFormedRun(run)
    ensures RunsValid(runs[run.id := run], jobs, nextId + 1)
  {
    assert run.id !in runs;
  }

  /** A job numbered after the last one and naming a stored Monte Carlo run keeps the run invariant. */
  lemma AddJobKeepsValid(runs: map<nat, VaRRun>, jobs: seq<Job>, nextId: nat, job: Job)
    requires RunsValid(runs, jobs, nextId)
    requires job.id == |jobs| + 1 && job.runId in runs && runs[job.runId].kind == MonteCarlo
    ensures RunsValid(runs, jobs + [job], nextId)
  {
  }

  /** `run.save()`: stores a well-formed run under the counter's id and advances the counter. */
  method SaveRun(store: Store, run: VaRRun)
    requires store.Valid()
    requires run.id == store.nextId && WellFormedRun(run)
    modifies store
    ensures store.Valid()
    ensures store.runs == old(store.runs)[run.id := run] && store.nextId == old(store.nextId) + 1
    ensures store.portfolios == old(store.portfolios) && store.positions == old(store.positions)
    ensures store.jobs == old(store.jobs) && store.prices == old(store.prices)
  {
    AddRunKeepsValid(store.runs, store.jobs, store.nextId, run);
    CounterGrowth(store.portfolios, store.positions, store.runs, store.jobs, store.nextId, store.nextId + 1);
    store.runs := store.runs[run.id := run];
    store.nextId := store.nextId + 1;
  }

  /** `varQueue.add(...)`: appends the job for a stored Monte Carlo run and returns its id. */
  method Enqueue(store: Store, runId: nat) returns (jobId: nat)
    requires store.Valid()
    requires runId in store.runs && store.runs[runId].kind == MonteCarlo
    modifies store
    ensures store.Valid()
    ensures jobId == |old(store.jobs)| + 1
    ensures store.jobs == old(store.jobs) + [Job(jobId, JobName, runId, JobAttempts, JobBackoffDelay)]
    ensures store.portfolios == old(store.portfolios) && store.positions == old(store.positions)
    ensures store.runs == old(store.runs) && store.prices == old(store.prices) && store.nextId == old(store.nextId)
  {
    jobId := |store.jobs| + 1;
    var job := Job(jobId, JobName, runId, JobAttempts, JobBackoffDelay);
    AddJobKeepsValid(store.runs, store.jobs, store.nextId, job);
    store.jobs := store.jobs + [job];
  }

  /**
    `POST /`: answers as `PostReply` says; a created answer stores its run, a
    queued answer stores the queued run and enqueues its job, and every
    refusal leaves the store as it was.
  */
  method PostVaR(store: Store, caller: nat, portfolioId: nat, body: VaRBody, now: int, sqrt: real -> real)
    returns (reply: Reply<PostAnswer>)
    requires store.Valid()
    modifies store
    ensures store.Valid()
    ensures Readable(old(store.positions), old(store.prices))
    ensures reply == PostReply(old(store.portfolios), old(store.positions), old(store.prices), old(store.nextId),
                               |old(store.jobs)|, caller, portfolioId, body, now, sqrt)
    ensures reply.Refused? ==>
      store.runs == old(store.runs) && store.jobs == old(store.jobs) && store.nextId == old(store.nextId)
    ensures reply.Ok? && reply.value.RunCreated? ==>
      && store.runs == old(store.runs)[reply.value.run.id := reply.value.run]
      && store.jobs == old(store.jobs) && store.nextId == old(store.nextId) + 1
    ensures reply.Ok? && reply.value.RunQueued? ==>
      && QueuedRun(old(store.nextId), portfolioId, caller, body, now).Success?
      && store.runs == old(store.runs)[old(store.nextId) := QueuedRun(old(store.nextId), portfolioId, caller, body, now).value]
      && store.jobs == old(store.jobs) + [Job(|old(store.jobs)| + 1, JobName, old(store.nextId), JobAttempts, JobBackoffDelay)]
      && store.nextId == old(store.nextId) + 1
    ensures store.portfolios == old(store.portfolios) && store.positions == old(store.positions)
    ensures store.prices == old(store.prices)
  {
    ghost var expected := PostReply(store.portfolios, store.positions, store.prices, store.nextId,
                                    |store.jobs|, caller, portfolioId, body, now, sqrt);
    if !Owned(store.portfolios, portfolioId, caller) {
      return Refused(NOT_FOUND, PortfolioNotFound);
    }
    var ps := PositionsOf(store.positions, portfolioId, store.nextId);
    if |ps| == 0 {
      return Refused(BAD_REQUEST, NoPositions);
    }
    if body.methodName.None? || ParseMethod(body.methodName.value).None? {
      return Refused(BAD_REQUEST, UnsupportedMethod);
    }
    var kind := ParseMethod(body.methodName.value).value;
    if kind == MonteCarlo {
      var queued := QueuedRun(store.nextId, portfolioId, caller, body, now);
      if queued.Failure? {
        return Refused(SERVER_ERROR, InternalServerError);
      }
      var run := queued.value;
      SaveRun(store, run);
      var jobId := Enqueue(store, run.id);
      reply := Ok(ACCEPTED, RunQueued(run.id, jobId));
      assert reply == expected;
      return;
    }
    if body.confidence.None? || body.horizonDays.None? {
      return Refused(SERVER_ERROR, InternalServerError);
    }
    PositionsOfPositive(store.positions, portfolioId, store.nextId);
    var result := ComputeSync(kind, store.prices, ps, body.confidence.value, body.horizonDays.value, sqrt);
    if result.Failure? {
      return Refused(SERVER_ERROR, InternalServerError);
    }
    var run := VaRRun(store.nextId, portfolioId, caller, kind,
      RunParams(body.confidence.value, body.horizonDays.value, None), Unset, Some(result.value), now);
    SaveRun(store, run);
    reply := Ok(CREATED, RunCreated(run));
  }

  /** The dispatch to `computeParametricVaR` or `computeHistoricalVaR`. */
  method ComputeSync(
    kind: Method, prices: Market.PriceStore, ps: seq<Position>, confidence: real, horizonDays: real, sqrt: real -> real
  ) returns (r: Result<RunResult, VaRError>)
    requires kind != MonteCarlo
    requires |ps| > 0 && Market.NonZeroQuotes(prices) && PositiveQuantities(ps)
    ensures r == SyncResult(kind, prices, ps, confidence, horizonDays, sqrt)
  {
    if kind == Parametric {
      var v := ParametricVaR.ComputeParametricVaR(prices, ps, confidence, horizonDays, sqrt);
      if v.Failure? {
        return Failure(v.error);
      }
      r := Success(RunResult(v.value.portfolioValue, Some(v.value.varValue), None));
    } else {
      var v := HistoricalVaR.ComputeHistoricalVaR(prices, ps, confidence, horizonDays, sqrt);
      if v.Failure? {
        return Failure(v.error);
      }
      r := Success(RunResult(v.value.portfolioValue, Some(v.value.varValue), Some(v.value.quantileReturn)));
    }
  }

  /** `GET /:runId`: the run when it exists and belongs to the caller, else a 404. */
  function GetRun(runs: map<nat, VaRRun>, caller: nat, runId: nat): (r: Reply<VaRRun>)
    ensures r.Ok? <==> runId in runs && runs[runId].user == caller
    ensures r.Ok? ==> r.status == OK && r.value in runs.Values && r.value.id == runId
    ensures r.Refused? ==> r == Refused(NOT_FOUND, RunNotFound)
    requires forall id :: id in runs ==> runs[id].id == id
  {
    if runId in runs && runs[runId].user == caller then Ok(OK, runs[runId]) else Refused(NOT_FOUND, RunNotFound)
  }

  /**
    A run the POST handler created can be read back by its creator and by
    nobody else, and a queued run can be read back by its creator.
  */
  lemma PostThenGet(
    portfolios: map<nat, Portfolio>, positions: map<nat, Position>, prices: Market.PriceStore, runs: map<nat, VaRRun>,
    nextId: nat, jobCount: nat, caller: nat, other: nat, portfolioId: nat, body: VaRBody, now: int, sqrt: real -> real)
    requires Readable(positions, prices)
    requires forall id :: id in runs ==> runs[id].id == id && id < nextId
    requires caller != other
    ensures var r := PostReply(portfolios, positions, prices, nextId, jobCount, caller, portfolioId, body, now, sqrt);
      r.Ok? && r.value.RunCreated? ==>
        var after := runs[nextId := r.value.run];
        GetRun(after, caller, nextId) == Ok(OK, r.value.run) && GetRun(after, other, nextId).Refused?
    ensures var r := PostReply(portfolios, positions, prices, nextId, jobCount, caller, portfolioId, body, now, sqrt);
      r.Ok? && r.value.RunQueued? ==>
        var after := runs[nextId := QueuedRun(nextId, portfolioId, caller, body, now).value];
        && GetRun(after, caller, r.value.runId).Ok?
        && GetRun(after, caller, r.value.runId).value.status == Queued
        && GetRun(after, other, r.value.runId).Refused?
  {
  }
}
