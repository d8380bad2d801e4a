/**
 The rows of one capture analysis as values, and every command on them: the
 dispatch row that owns the queue task, and the run row that owns the provider
 attempts. The two are never locked in the same transaction except to read a
 completed result.
 */
module AnalysisRows {
  import opened Common
  import opened AnalysisContracts

  type ScopeId = nat

  datatype CaptureStatus = Pending | Dispatching | Queued | Running | Completed | Failed

  datatype RunStatus = RunPending | RunRunning | RunCompleted | RunFailed

  datatype Stage = Prompt | InputLookup | ProviderCall | Parse | SourceMap | ResultLoad | ScopeImport

  datatype Detail =
    | PromptNotConfigured | NoReadyMedia | ProviderRejected | ProviderTimeout | ProviderUnavailable
    | EmptyResponse | SchemaValidation | InvalidSourceReference | MixedSourceLocation
    | DuplicateItemKey | DuplicateLocation | ResultMissing | ScopeImportInvalid

  datatype Cause = Cause(kind: ErrorCode, stage: Option<Stage>, providerStatus: Option<int>, detail: Option<Detail>)

  datatype Failure = Failure(cause: Cause, retryable: bool)

  datatype RowError = RowNotFound | RowConflict

  datatype Dispatch = Dispatch(
    run: RunId,
    capture: CaptureId,
    moveJob: MoveJobId,
    trace: string,
    status: CaptureStatus,
    scheduledAt: Time,
    attempts: nat,
    token: Option<Token>,
    lockedUntil: Option<Time>,
    taskId: Option<TaskId>,
    dispatchError: Option<ErrorCode>,
    failure: Option<Failure>,
    scope: Option<ScopeId>,
    lastAttemptAt: Option<Time>,
    completedAt: Option<Time>)

  /** The result column stands for the model columns, the detection rows and the suggestion rows of the run. */
  datatype RunRow = RunRow(
    id: RunId,
    capture: CaptureId,
    trace: string,
    status: RunStatus,
    attempt: nat,
    startedAt: Option<Time>,
    completedAt: Option<Time>,
    cause: Option<Cause>,
    result: Option<AnalysisResult>)

  datatype Task = Task(run: RunId, capture: CaptureId, attempt: nat, trace: string)

  datatype Claim = Claim(task: Task, token: Token)

  datatype DispatchOutcome = Accepted(taskId: TaskId) | Refused(code: ErrorCode)

  datatype Decision = RetryLater | Terminal

  // -------------------------------------------------------------- submission

  function NewDispatch(run: RunId, capture: CaptureId, moveJob: MoveJobId, trace: string, now: Time): Dispatch {
    Dispatch(run, capture, moveJob, trace, Pending, now, 0, None, None, None, None, None, None, None, None)
  }

  /** One intent per capture: a second submission answers the stored row. */
  function Submitted(existing: Option<Dispatch>, consented: bool, jobOpen: bool, inventory: seq<bool>,
                     run: RunId, capture: CaptureId, moveJob: MoveJobId, trace: string, now: Time)
    : Result<Dispatch, RowError>
  {
    if !consented then Err(RowConflict)
    else if existing.Some? then Ok(existing.value)
    else if !jobOpen || inventory == [] || false in inventory then Err(RowConflict)
    else Ok(NewDispatch(run, capture, moveJob, trace, now))
  }

  // ---------------------------------------------------------------- dispatch

  predicate Due(row: Dispatch, now: Time) {
    || (row.status == Pending && row.scheduledAt <= now)
    || (row.status == Dispatching && row.lockedUntil.Some? && row.lockedUntil.value <= now)
  }

  function Claimed(row: Dispatch, now: Time, leaseSeconds: nat, token: Token): Dispatch {
    var counted :=
      if row.status == Pending then row.(attempts := row.attempts + 1, lastAttemptAt := Some(now)) else row;
    counted.(status := Dispatching, token := Some(token), lockedUntil := Some(now + leaseSeconds))
  }

  /** Every dispatch attempt of a capture carries the same task. */
  function TaskOf(row: Dispatch): Task {
    Task(row.run, row.capture, 1, row.trace)
  }

  predicate HoldsLease(row: Dispatch, claim: Claim) {
    row.status == Dispatching && row.token == Some(claim.token)
  }

  predicate AlreadyAccepted(row: Dispatch, claim: Claim, outcome: DispatchOutcome) {
    && outcome.Accepted?
    && row.capture == claim.task.capture
    && row.trace == claim.task.trace
    && row.status in {Queued, Running, Completed, Failed}
    && row.token.None?
    && (row.taskId.None? || row.taskId == Some(outcome.taskId))
  }

  function Power(n: nat): nat {
    if n == 0 then 1 else 2 * Power(n - 1)
  }

  const MAX_RETRY_DELAY := 300

  function Min(a: int, b: int): int {
    if a < b then a else b
  }

  function RetryDelay(attempts: nat): int {
    Min(Power(Min(attempts, 8)), MAX_RETRY_DELAY)
  }

  function Finalized(row: Dispatch, claim: Claim, outcome: DispatchOutcome, now: Time): (Dispatch, bool) {
    if !HoldsLease(row, claim) then
      if AlreadyAccepted(row, claim, outcome) then
        (row.(taskId := Some(outcome.taskId)), true)
      else
        (row, false)
    else
      var released := row.(token := None, lockedUntil := None);
      match outcome
      case Accepted(taskId) =>
        (released.(status := Queued, taskId := Some(taskId), dispatchError := None), true)
      case Refused(code) =>
        (released.(status := Pending, scheduledAt := now + RetryDelay(row.attempts), dispatchError := Some(code)), true)
  }

  // --------------------------------------------------------- capture commands

  predicate Answers(row: Dispatch, task: Task) {
    row.run == task.run && row.capture == task.capture && row.trace == task.trace && task.attempt == 1
  }

  /** The row after a delivery is accepted, and whether there is still something to do. */
  function StartedCapture(row: Dispatch, task: Task): Result<(Dispatch, bool), RowError> {
    if !Answers(row, task) then Err(RowNotFound)
    else if row.status in {Completed, Failed} then Ok((row, false))
    else Ok((row.(status := Running, token := None, lockedUntil := None), true))
  }

  function MarkedFailed(row: Dispatch, failure: Failure, now: Time): Dispatch {
    row.(status := Failed, failure := Some(failure), scope := None, token := None, lockedUntil := None,
         completedAt := Some(now))
  }

  /** Each stored diagnostic is absent or the reported one. */
  predicate Covers(stored: Cause, reported: Cause) {
    && stored.kind == reported.kind
    && (stored.stage.None? || stored.stage == reported.stage)
    && (stored.providerStatus.None? || stored.providerStatus == reported.providerStatus)
    && (stored.detail.None? || stored.detail == reported.detail)
  }

  function Or<T>(stored: Option<T>, reported: Option<T>): Option<T> {
    if stored.Some? then stored else reported
  }

  /** A replayed failure fills in the diagnostics that were absent. */
  function Merged(stored: Cause, reported: Cause): Cause {
    Cause(stored.kind, Or(stored.stage, reported.stage), Or(stored.providerStatus, reported.providerStatus),
          Or(stored.detail, reported.detail))
  }

  /** The row after a failure is reported, and whether a failed event was appended. */
  function FailedCapture(row: Dispatch, task: Task, failure: Failure, now: Time): Result<(Dispatch, bool), RowError> {
    if !Answers(row, task) then Err(RowNotFound)
    else if row.status == Failed then
      if row.failure.Some? && Covers(row.failure.value.cause, failure.cause)
         && row.failure.value.retryable == failure.retryable then
        Ok((row.(failure := Some(Failure(Merged(row.failure.value.cause, failure.cause), failure.retryable))), false))
      else Err(RowConflict)
    else if row.status == Completed then Err(RowConflict)
    else Ok((MarkedFailed(row, failure, now), true))
  }

  const IMPORT_FAILURE := Failure(Cause(InvalidInput, Some(ScopeImport), None, Some(ScopeImportInvalid)), false)
  const INPUTS_MISSING := Failure(Cause(InvalidInput, Some(InputLookup), None, Some(NoReadyMedia)), false)
  const RESULT_MISSING := Failure(Cause(Conflict, Some(ResultLoad), None, Some(ResultMissing)), false)

  /**
   The row after a result is imported, and the scope version it now refers to. The
   scope command either answers a new version or rejects the draft.
   */
  function CompletedCapture(row: Dispatch, task: Task, result: AnalysisResult, existing: Option<ScopeId>,
                            imported: Option<ScopeId>, now: Time): Result<Dispatch, RowError>
  {
    if !Answers(row, task) then Err(RowNotFound)
    else if result.run != task.run || result.capture != task.capture then Err(RowConflict)
    else if row.status == Completed then Ok(row)
    else if row.status != Running then Err(RowConflict)
    else
      var scope := Or(existing, imported);
      if scope.None? then Ok(MarkedFailed(row, IMPORT_FAILURE, now))
      else Ok(row.(status := Completed, scope := scope, completedAt := Some(now)))
  }

  // ------------------------------------------------------------ run commands

  function StartedRun(existing: Option<RunRow>, run: RunId, capture: CaptureId, trace: string, now: Time)
    : Result<RunRow, RowError>
  {
    if existing.None? then Ok(RunRow(run, capture, trace, RunRunning, 1, Some(now), None, None, None))
    else if existing.value.capture != capture then Err(RowConflict)
    else Ok(existing.value)
  }

  function CompletedRun(existing: Option<RunRow>, result: AnalysisResult, now: Time): Result<RunRow, RowError> {
    if existing.None? then Err(RowNotFound)
    else
      var row := existing.value;
      if row.status == RunCompleted then
        if row.result == Some(result) then Ok(row) else Err(RowConflict)
      else if row.status != RunRunning || row.capture != result.capture then Err(RowConflict)
      else Ok(row.(status := RunCompleted, result := Some(result), cause := None, completedAt := Some(now)))
  }

  function FailedRun(existing: Option<RunRow>, cause: Cause, now: Time): Result<RunRow, RowError> {
    if existing.None? then Err(RowNotFound)
    else
      var row := existing.value;
      if row.status == RunFailed then
        if row.cause.Some? && Covers(row.cause.value, cause) then
          Ok(row.(cause := Some(Merged(row.cause.value, cause))))
        else Err(RowConflict)
      else if row.status != RunRunning then Err(RowConflict)
      else Ok(row.(status := RunFailed, cause := Some(cause), completedAt := Some(now)))
  }

  /** A failed run below the caller's bound opens its next attempt. */
  function PreparedRetry(existing: Option<RunRow>, maxAttempts: nat, now: Time): (Option<RunRow>, Decision) {
    if existing.None? then (existing, Terminal)
    else
      var row := existing.value;
      if row.status != RunFailed then (existing, RetryLater)
      else if row.attempt >= maxAttempts then (existing, Terminal)
      else
        (Some(row.(status := RunRunning, attempt := row.attempt + 1, startedAt := Some(now), completedAt := None,
                   cause := None, result := None)),
         RetryLater)
  }

  datatype Answer = Analyzed(result: AnalysisResult) | ProviderFailed(failure: Failure)

  /** The provider answers for the run and capture it was asked about. */
  predicate AnswersFor(task: Task, answer: Answer) {
    answer.Analyzed? ==> answer.result.run == task.run && answer.result.capture == task.capture
  }

  /** The provider failure kinds that a redelivery recovers as retryable. */
  predicate RetryableKind(kind: ErrorCode) {
    kind in {Unavailable, DeadlineExceeded}
  }

  const MAX_ATTEMPTS := 5
  const MAX_OUTPUT_ATTEMPTS := 2

  /** The attempt bound of a failure: malformed output is retried less often. */
  function Bound(failure: Failure): nat {
    if failure.cause.stage in {Some(Parse), Some(SourceMap)} then MAX_OUTPUT_ATTEMPTS else MAX_ATTEMPTS
  }

  // -------------------------------------------------------------- invariants

  /** The check constraints of the capture_analysis_dispatch table. */
  predicate DispatchRowOk(row: Dispatch) {
    && ((row.attempts == 0) == row.lastAttemptAt.None?)
    && (row.status == Dispatching <==> row.token.Some?)
    && (row.status == Dispatching <==> row.lockedUntil.Some?)
    && (row.status in {Completed, Failed} <==> row.completedAt.Some?)
    && (row.status == Completed <==> row.scope.Some?)
    && (row.status == Failed <==> row.failure.Some?)
  }

  /** The check constraints of the ai_analysis_run table. */
  predicate RunRowOk(row: RunRow) {
    && (row.status == RunPending <==> row.startedAt.None?)
    && (row.status in {RunCompleted, RunFailed} <==> row.completedAt.Some?)
    && (row.status == RunFailed <==> row.cause.Some?)
    && (row.status == RunCompleted <==> row.result.Some?)
  }

  function Rank(status: CaptureStatus): nat {
    match status
    case Pending => 0
    case Dispatching => 0
    case Queued => 1
    case Running => 2
    case Completed => 3
    case Failed => 3
  }

  // ------------------------------------------------------ single-row results

  lemma PowerDoubles()
    ensures Power(1) == 2 && Power(2) == 4 && Power(3) == 8 && Power(4) == 16
    ensures Power(5) == 32 && Power(6) == 64 && Power(7) == 128 && Power(8) == 256
  {
    assert Power(1) == 2 * Power(0);
    assert Power(2) == 2 * Power(1);
    assert Power(3) == 2 * Power(2);
    assert Power(4) == 2 * Power(3);
    assert Power(5) == 2 * Power(4);
    assert Power(6) == 2 * Power(5);
    assert Power(7) == 2 * Power(6);
  }

  /**
   The delay doubles with each refused attempt up to the eighth and then stays at 256
   seconds: the 300-second cap is never what limits it.
   */
  lemma RetryDelayDoubles(attempts: nat)
    requires attempts >= 1
    ensures RetryDelay(attempts) == Power(Min(attempts, 8)) && 2 <= RetryDelay(attempts) <= 256 < MAX_RETRY_DELAY
    ensures attempts < 8 ==> RetryDelay(attempts + 1) == 2 * RetryDelay(attempts)
    ensures attempts >= 8 ==> RetryDelay(attempts + 1) == RetryDelay(attempts) == 256
  {
    PowerDoubles();
    var k := Min(attempts, 8);
    assert k in {1, 2, 3, 4, 5, 6, 7, 8};
  }

  /** The run row and the answers after a sequence of retry preparations, each with its caller's bound. */
  function Prepared(row: Option<RunRow>, bounds: seq<nat>, now: Time): (Option<RunRow>, seq<Decision>)
    decreases |bounds|
  {
    if bounds == [] then (row, [])
    else
      var (row', first) := PreparedRetry(row, bounds[0], now);
      var (last, rest) := Prepared(row', bounds[1..], now);
      (last, [first] + rest)
  }

  /** One of the first n bounds admits a further attempt. */
  predicate SomeAbove(bounds: seq<nat>, n: nat, attempt: nat)
    requires n <= |bounds|
  {
    exists j :: 0 <= j < n && attempt < bounds[j]
  }

  lemma SomeAboveTail(bounds: seq<nat>, n: nat, attempt: nat)
    requires 1 <= n <= |bounds| && bounds[0] <= attempt
    ensures SomeAbove(bounds, n, attempt) <==> SomeAbove(bounds[1..], n - 1, attempt)
  {
    if SomeAbove(bounds, n, attempt) {
      var j :| 0 <= j < n && attempt < bounds[j];
      assert bounds[1..][j - 1] == bounds[j];
    }
  }

  /**
   However many redeliveries prepare a retry of one failed attempt, the attempt counter
   grows by one if any of them is below its bound and not at all otherwise, and a caller
   is told to retry exactly when itself or an earlier one was below its bound.
   */
  lemma {:induction false} RetriesConverge(row: RunRow, bounds: seq<nat>, now: Time)
    requires row.status == RunFailed
    ensures var (last, answers) := Prepared(Some(row), bounds, now);
            && |answers| == |bounds|
            && last.Some?
            && last.value.attempt == row.attempt + (if SomeAbove(bounds, |bounds|, row.attempt) then 1 else 0)
            && (last.value.status == RunRunning <==> SomeAbove(bounds, |bounds|, row.attempt))
            && (forall i :: 0 <= i < |bounds| ==>
                  (answers[i] == RetryLater <==> SomeAbove(bounds, i + 1, row.attempt)))
    decreases |bounds|
  {
    if bounds != [] {
      var (row', first) := PreparedRetry(Some(row), bounds[0], now);
      var (last, answers) := Prepared(Some(row), bounds, now);
      if row.attempt < bounds[0] {
        OpenStaysOpen(row'.value, bounds[1..], now);
        assert forall n :: 1 <= n <= |bounds| ==> SomeAbove(bounds, n, row.attempt);
      } else {
        RetriesConverge(row, bounds[1..], now);
        forall n | 1 <= n <= |bounds|
          ensures SomeAbove(bounds, n, row.attempt) <==> SomeAbove(bounds[1..], n - 1, row.attempt)
        {
          SomeAboveTail(bounds, n, row.attempt);
        }
      }
    }
  }

  lemma {:induction false} OpenStaysOpen(row: RunRow, bounds: seq<nat>, now: Time)
    requires row.status != RunFailed
    ensures var (last, answers) := Prepared(Some(row), bounds, now);
            last == Some(row) && |answers| == |bounds| && forall i :: 0 <= i < |bounds| ==> answers[i] == RetryLater
    decreases |bounds|
  {
    if bounds != [] {
      OpenStaysOpen(row, bounds[1..], now);
    }
  }

  /** An accepted replay leaves exactly the reported cause, and accepting it again changes nothing. */
  lemma ReplayLeavesReported(stored: Cause, reported: Cause)
    requires Covers(stored, reported)
    ensures Merged(stored, reported) == reported && Covers(reported, reported)
  {
  }
}
