/**
  The VaRRun record of backend/src/models/VaRRun.js: the method enum, the
  required parameters, the three result fields and the creation time, plus
  the status the request handler and the job handler write beside them.
*/
module VaRRunModel {
  import opened Wrappers

  datatype Method = Parametric | Historical | MonteCarlo

  function MethodName(m: Method): string
  {
    match m
    case Parametric => "parametric"
    case Historical => "historical"
    case MonteCarlo => "montecarlo"
  }

  /** The method enum: exactly the three names, compared as the handler compares them. */
  function ParseMethod(s: string): (r: Option<Method>)
    ensures r.Some? ==> MethodName(r.value) == s
    ensures r.None? ==> forall m: Method :: MethodName(m) != s
  {
    if s == "parametric" then Some(Parametric)
    else if s == "historical" then Some(Historical)
    else if s == "montecarlo" then Some(MonteCarlo)
    else None
  }

  /** No status written (synchronous runs), or one of the three the handlers write. */
  datatype RunStatus = Unset | Queued | Running | Completed

  datatype RunParams = RunParams(confidence: real, horizonDays: real, simulations: Option<int>)

  /**
    The `result` sub-document: only these three paths are kept. `varValue` is
    absent when a Monte Carlo run with no simulations produces no quantile.
  */
  datatype RunResult = RunResult(portfolioValue: real, varValue: Option<real>, quantileReturn: Option<real>)

  datatype VaRRun = VaRRun(
    id: nat,
    portfolio: nat,
    user: nat,
    kind: Method,
    params: RunParams,
    status: RunStatus,
    result: Option<RunResult>,
    createdAt: int)

  datatype RunValidationError = ConfidenceRequired | HorizonDaysRequired

  /**
    `new VaRRun({ … })` and the validation `save` runs: `params.confidence`
    and `params.horizonDays` are required, `createdAt` defaults to the
    present time.
  */
  function MakeRun(
    id: nat, portfolio: nat, user: nat, kind: Method,
    confidence: Option<real>, horizonDays: Option<real>, simulations: Option<int>,
    status: RunStatus, result: Option<RunResult>, now: int
  ): (r: Result<VaRRun, RunValidationError>)
    ensures r.Success? <==> confidence.Some? && horizonDays.Some?
    ensures confidence.None? ==> r == Failure(ConfidenceRequired)
    ensures r.Success? ==>
      && r.value.id == id && r.value.portfolio == portfolio && r.value.user == user
      && r.value.kind == kind && r.value.status == status && r.value.result == result
      && r.value.params == RunParams(confidence.value, horizonDays.value, simulations)
      && r.value.createdAt == now
  {
    if confidence.None? then Failure(ConfidenceRequired)
    else if horizonDays.None? then Failure(HorizonDaysRequired)
    else Success(VaRRun(id, portfolio, user, kind,
      RunParams(confidence.value, horizonDays.value, simulations), status, result, now))
  }

  /**
    The shapes the handlers leave a run in: a synchronous run has a result and
    no status; a Monte Carlo run is queued without a result, then running, and
    has a result once completed.
  */
  ghost predicate WellFormedRun(r: VaRRun)
  {
    && (r.kind == MonteCarlo <==> r.status != Unset)
    && (r.status == Unset ==> r.result.Some?)
    && (r.status == Queued ==> r.result.None?)
    && (r.status == Completed ==> r.result.Some?)
  }

  /**
    The document Mongoose's strict mode would save: paths the schema does not
    declare are dropped, and `status` and `params.simulations` are two of them.
  */
  function StrictSave(run: VaRRun): (r: VaRRun)
    ensures r.status == Unset && r.params.simulations.None?
    ensures && r.id == run.id && r.portfolio == run.portfolio && r.user == run.user && r.kind == run.kind
            && r.params.confidence == run.params.confidence && r.params.horizonDays == run.params.horizonDays
            && r.result == run.result && r.createdAt == run.createdAt
  {
    run.(status := Unset, params := run.params.(simulations := None))
  }
}
