/**
 The analysis commands as they update their locked rows in place, each proved to
 commit exactly the rows its specification function gives, and the two handlers
 that string them together for one delivery.
 */
module AnalysisService {
  import opened Common
  import opened AnalysisContracts
  import opened AnalysisRows
  import opened AnalysisResults
  import opened AnalysisTables

  // ------------------------------------------------- submission and dispatch

  function Stored(row: DispatchRow?): Option<Dispatch>
    reads row
  {
    if row == null then None else Some(row.Snapshot())
  }

  method SubmitCapture(existing: DispatchRow?, consented: bool, jobOpen: bool, inventory: seq<bool>,
                       run: RunId, capture: CaptureId, moveJob: MoveJobId, trace: string, now: Time)
    returns (outcome: Result<DispatchRow, RowError>)
    ensures match Submitted(Stored(existing), consented, jobOpen, inventory, run, capture, moveJob, trace, now)
            case Err(e) => outcome == Err(e)
            case Ok(row) => outcome.Ok? && outcome.value.Snapshot() == row
    ensures outcome.Ok? ==> if existing != null then outcome.value == existing else fresh(outcome.value)
  {
    if !consented {
      return Err(RowConflict);
    }
    if existing != null {
      return Ok(existing);
    }
    if !jobOpen || inventory == [] || false in inventory {
      return Err(RowConflict);
    }
    var row := new DispatchRow(run, capture, moveJob, trace, now);
    outcome := Ok(row);
  }

  method LeaseRow(row: DispatchRow, token: Token, now: Time, leaseSeconds: nat) returns (claim: Claim)
    modifies row
    ensures row.Snapshot() == Claimed(old(row.Snapshot()), now, leaseSeconds, token)
    ensures claim == Claim(TaskOf(row.Snapshot()), token)
  {
    if row.status == Pending {
      row.attempts := row.attempts + 1;
      row.lastAttemptAt := Some(now);
    }
    row.status := Dispatching;
    row.token := Some(token);
    row.lockedUntil := Some(now + leaseSeconds);
    claim := Claim(Task(row.run, row.capture, 1, row.trace), token);
  }

  /** Leases every selected row, in the order of the query, each with its own token. */
  method ClaimDue(rows: seq<DispatchRow>, tokens: seq<Token>, now: Time, leaseSeconds: nat) returns (claims: seq<Claim>)
    requires |tokens| == |rows| && forall i, j :: 0 <= i < j < |rows| ==> rows[i] != rows[j]
    requires forall row :: row in rows ==> Due(row.Snapshot(), now)
    modifies rows
    ensures |claims| == |rows|
    ensures forall i :: 0 <= i < |rows| ==>
              && rows[i].Snapshot() == Claimed(old(rows[i].Snapshot()), now, leaseSeconds, tokens[i])
              && claims[i] == Claim(TaskOf(rows[i].Snapshot()), tokens[i])
              && HoldsLease(rows[i].Snapshot(), claims[i])
  {
    claims := [];
    for i := 0 to |rows|
      invariant |claims| == i
      invariant forall k :: i <= k < |rows| ==> rows[k].Snapshot() == old(rows[k].Snapshot())
      invariant forall k :: 0 <= k < i ==>
                  && rows[k].Snapshot() == Claimed(old(rows[k].Snapshot()), now, leaseSeconds, tokens[k])
                  && claims[k] == Claim(TaskOf(rows[k].Snapshot()), tokens[k])
    {
      hide Claimed, TaskOf, HoldsLease;
      var claim := LeaseRow(rows[i], tokens[i], now, leaseSeconds);
      claims := claims + [claim];
    }
  }

  /** A refused dispatch goes back to pending with its back-off delay. */
  method FinalizeDispatch(row: DispatchRow?, claim: Claim, outcome: DispatchOutcome, now: Time) returns (recorded: bool)
    modifies row
    ensures row == null ==> !recorded
    ensures row != null ==> (row.Snapshot(), recorded) == Finalized(old(row.Snapshot()), claim, outcome, now)
  {
    if row == null {
      return false;
    }
    if !(row.status == Dispatching && row.token == Some(claim.token)) {
      var alreadyAccepted :=
        && outcome.Accepted?
        && row.capture == claim.task.capture
        && row.trace == claim.task.trace
        && row.status in {Queued, Running, Completed, Failed}
        && row.token == None
        && row.taskId in {None, Some(outcome.taskId)};
      if !alreadyAccepted {
        return false;
      }
      row.taskId := Some(outcome.taskId);
      return true;
    }
    row.token := None;
    row.lockedUntil := None;
    match outcome {
      case Accepted(taskId) =>
        row.status := Queued;
        row.taskId := Some(taskId);
        row.dispatchError := None;
      case Refused(code) =>
        row.status := Pending;
        row.scheduledAt := now + RetryDelay(row.attempts);
        row.dispatchError := Some(code);
    }
    recorded := true;
  }

  // -------------------------------------------------------- capture commands

  method StartCapture(row: DispatchRow?, task: Task) returns (outcome: Result<bool, RowError>)
    modifies row
    ensures row == null ==> outcome == Err(RowNotFound)
    ensures row != null ==>
              match StartedCapture(old(row.Snapshot()), task)
              case Err(e) => outcome == Err(e) && row.Snapshot() == old(row.Snapshot())
              case Ok((row', active)) => outcome == Ok(active) && row.Snapshot() == row'
  {
    if row == null || !Answers(row.Snapshot(), task) {
      return Err(RowNotFound);
    }
    if row.status in {Completed, Failed} {
      return Ok(false);
    }
    row.status := Running;
    row.token := None;
    row.lockedUntil := None;
    outcome := Ok(true);
  }

  method MarkFailed(row: DispatchRow, failure: Failure, now: Time)
    modifies row
    ensures row.Snapshot() == MarkedFailed(old(row.Snapshot()), failure, now)
  {
    row.status := Failed;
    row.failure := Some(failure);
    row.scope := None;
    row.token := None;
    row.lockedUntil := None;
    row.completedAt := Some(now);
  }

  method CompleteCapture(row: DispatchRow?, task: Task, result: AnalysisResult, existing: Option<ScopeId>,
                         imported: Option<ScopeId>, now: Time)
    returns (outcome: Result<Dispatch, RowError>)
    modifies row
    ensures row == null ==> outcome == Err(RowNotFound)
    ensures row != null ==>
              match CompletedCapture(old(row.Snapshot()), task, result, existing, imported, now)
              case Err(e) => outcome == Err(e) && row.Snapshot() == old(row.Snapshot())
              case Ok(row') => outcome == Ok(row') && row.Snapshot() == row'
  {
    if row == null || !Answers(row.Snapshot(), task) {
      return Err(RowNotFound);
    }
    if result.run != task.run || result.capture != task.capture {
      return Err(RowConflict);
    }
    if row.status == Completed {
      return Ok(row.Snapshot());
    }
    if row.status != Running {
      return Err(RowConflict);
    }
    var scope := existing;
    if scope.None? {
      if imported.None? {
        MarkFailed(row, IMPORT_FAILURE, now);
        return Ok(row.Snapshot());
      }
      scope := imported;
    }
    row.status := Completed;
    row.scope := scope;
    row.completedAt := Some(now);
    outcome := Ok(row.Snapshot());
  }

  method FailCapture(row: DispatchRow?, task: Task, failure: Failure, now: Time)
    returns (outcome: Result<Dispatch, RowError>, emitted: bool)
    modifies row
    ensures row == null ==> outcome == Err(RowNotFound) && !emitted
    ensures row != null ==>
              match FailedCapture(old(row.Snapshot()), task, failure, now)
              case Err(e) => outcome == Err(e) && !emitted && row.Snapshot() == old(row.Snapshot())
              case Ok((row', event)) => outcome == Ok(row') && emitted == event && row.Snapshot() == row'
  {
    if row == null || !Answers(row.Snapshot(), task) {
      return Err(RowNotFound), false;
    }
    if row.status == Failed {
      if row.failure.None? || row.failure.value.retryable != failure.retryable
         || !Covers(row.failure.value.cause, failure.cause) {
        return Err(RowConflict), false;
      }
      row.failure := Some(Failure(Merged(row.failure.value.cause, failure.cause), failure.retryable));
      return Ok(row.Snapshot()), false;
    }
    if row.status == Completed {
      return Err(RowConflict), false;
    }
    MarkFailed(row, failure, now);
    return Ok(row.Snapshot()), true;
  }

  // ------------------------------------------------------------ run commands

  ghost function StoredRun(run: AnalysisRun?): Option<RunRow>
    reads run
  {
    if run == null then None else Some(run.Snapshot())
  }

  /** The tables agree with the run, or have no rows for a run that does not exist. */
  ghost predicate Agrees(run: AnalysisRun?, id: RunId, tables: ResultTables)
    reads run, tables
  {
    && tables.Valid()
    && (if run == null then RowsOf(tables.detections, id) == {} && RowsOf(tables.suggestions, id) == {}
        else run.id == id && tables.Holds(run))
  }

  method StartRun(existing: AnalysisRun?, task: Task, now: Time) returns (outcome: Result<AnalysisRun, RowError>)
    ensures match StartedRun(StoredRun(existing), task.run, task.capture, task.trace, now)
            case Err(e) => outcome == Err(e)
            case Ok(row) => outcome.Ok? && outcome.value.Snapshot() == row
    ensures outcome.Ok? ==>
              if existing != null then outcome.value == existing
              else fresh(outcome.value) && outcome.value.models.None?
  {
    if existing == null {
      var run := new AnalysisRun(task.run, task.capture, task.trace, now);
      return Ok(run);
    }
    if existing.capture != task.capture {
      return Err(RowConflict);
    }
    outcome := Ok(existing);
  }

  /** Stores a result once; the same result again is a no-op and any other is a conflict. */
  method CompleteRun(run: AnalysisRun?, tables: ResultTables, result: AnalysisResult, now: Time)
    returns (outcome: Result<(), RowError>)
    requires Agrees(run, result.run, tables)
    modifies run, tables
    ensures Agrees(run, result.run, tables)
    ensures match CompletedRun(old(StoredRun(run)), result, now)
            case Err(e) =>
              outcome == Err(e) && StoredRun(run) == old(StoredRun(run))
              && tables.detections == old(tables.detections) && tables.suggestions == old(tables.suggestions)
            case Ok(row) => outcome == Ok(()) && run.Snapshot() == row
    ensures forall other :: other != result.run ==>
              && RowsOf(tables.detections, other) == RowsOf(old(tables.detections), other)
              && RowsOf(tables.suggestions, other) == RowsOf(old(tables.suggestions), other)
  {
    if run == null {
      return Err(RowNotFound);
    }
    if run.status == RunCompleted {
      var stored := tables.Load(run);
      return if stored == Some(result) then Ok(()) else Err(RowConflict);
    }
    if run.status != RunRunning || run.capture != result.capture {
      return Err(RowConflict);
    }
    tables.Store(result);
    run.status := RunCompleted;
    run.models := Some(ModelsOf(result));
    run.result := Some(result);
    run.cause := None;
    run.completedAt := Some(now);
    outcome := Ok(());
  }

  method FailRun(run: AnalysisRun?, cause: Cause, now: Time) returns (outcome: Result<(), RowError>)
    modifies run
    ensures run != null ==> run.models == old(run.models) && (run.status == RunCompleted <==> old(run.status) == RunCompleted)
    ensures match FailedRun(old(StoredRun(run)), cause, now)
            case Err(e) => outcome == Err(e) && StoredRun(run) == old(StoredRun(run))
            case Ok(row) => outcome == Ok(()) && run.Snapshot() == row
  {
    if run == null {
      return Err(RowNotFound);
    }
    if run.status == RunFailed {
      if run.cause.None? || !Covers(run.cause.value, cause) {
        return Err(RowConflict);
      }
      run.cause := Some(Merged(run.cause.value, cause));
      return Ok(());
    }
    if run.status != RunRunning {
      return Err(RowConflict);
    }
    run.status := RunFailed;
    run.cause := Some(cause);
    run.completedAt := Some(now);
    outcome := Ok(());
  }

  method PrepareRetry(run: AnalysisRun?, maxAttempts: nat, now: Time) returns (decision: Decision)
    modifies run
    ensures (StoredRun(run), decision) == PreparedRetry(old(StoredRun(run)), maxAttempts, now)
    ensures run != null && old(run.status) != RunFailed ==> run.models == old(run.models)
  {
    if run == null {
      return Terminal;
    }
    if run.status == RunFailed {
      if run.attempt >= maxAttempts {
        return Terminal;
      }
      run.status := RunRunning;
      run.attempt := run.attempt + 1;
      run.startedAt := Some(now);
      run.completedAt := None;
      run.cause := None;
      run.models := None;
      run.result := None;
    }
    decision := RetryLater;
  }
}
