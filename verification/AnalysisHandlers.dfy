/**
 One delivery of an analysis task from beginning to end, when no other delivery
 interferes: the handler that drives the provider run, and the worker entry point
 that drives the dispatch row around it.
 */
module AnalysisHandlers {
  import opened Common
  import opened AnalysisContracts
  import opened AnalysisRows
  import opened AnalysisTables
  import opened AnalysisService

  datatype TaskOutcome = Finished | EndedFailed(failure: Failure)

  /** What one uninterrupted delivery makes of the run it finds. */
  function Driven(found: RunRow, answer: Answer): Result<TaskOutcome, RowError> {
    match found.status
    case RunCompleted => Ok(Finished)
    case RunFailed =>
      if found.cause.None? then Err(RowConflict)
      else Ok(EndedFailed(Failure(found.cause.value, RetryableKind(found.cause.value.kind))))
    case RunPending => Err(RowConflict)
    case RunRunning => if answer.Analyzed? then Ok(Finished) else Ok(EndedFailed(answer.failure))
  }

  /** Only a running run is changed, and only by its provider's answer. */
  predicate DrivenTo(found: RunRow, answer: Answer, run: RunRow) {
    && run.attempt == found.attempt
    && (found.status != RunRunning ==> run == found)
    && (found.status == RunRunning && answer.Analyzed? ==> run.status == RunCompleted && run.result == Some(answer.result))
    && (found.status == RunRunning && answer.ProviderFailed? ==>
          run.status == RunFailed && run.cause == Some(answer.failure.cause))
  }

  /** Opens or finds the run, replays a stored outcome, or calls the provider and records its answer. */
  method HandleTask(existing: AnalysisRun?, tables: ResultTables, task: Task, answer: Answer, now: Time)
    returns (outcome: Result<TaskOutcome, RowError>, run: AnalysisRun)
    requires Agrees(existing, task.run, tables) && AnswersFor(task, answer)
    requires existing != null ==> RunRowOk(existing.Snapshot()) && existing.capture == task.capture
    modifies existing, tables
    ensures Agrees(run, task.run, tables) && RunRowOk(run.Snapshot()) && run.capture == task.capture
    ensures if existing != null then run == existing else fresh(run)
    ensures StartedRun(old(StoredRun(existing)), task.run, task.capture, task.trace, now).Ok?
    ensures var found := StartedRun(old(StoredRun(existing)), task.run, task.capture, task.trace, now).value;
            outcome == Driven(found, answer) && DrivenTo(found, answer, run.Snapshot())
  {
    var started := StartRun(existing, task, now);
    run := started.value;
    if run.status == RunCompleted {
      return Ok(Finished), run;
    }
    if run.status == RunFailed {
      return Ok(EndedFailed(Failure(run.cause.value, RetryableKind(run.cause.value.kind)))), run;
    }
    if answer.ProviderFailed? {
      var failed := FailRun(run, answer.failure.cause, now);
      return if failed.Ok? then Ok(EndedFailed(answer.failure)) else Err(failed.error), run;
    }
    var completed := CompleteRun(run, tables, answer.result, now);
    outcome := if completed.Ok? then Ok(Finished) else Err(completed.error);
  }

  datatype Response = Acknowledged | RetryScheduled | ServerError

  /** The states in which a delivery finds an intent that is not terminal. */
  ghost predicate Consistent(row: DispatchRow, run: AnalysisRun?)
    reads row, run
  {
    && DispatchRowOk(row.Snapshot())
    && (run != null ==>
          && RunRowOk(run.Snapshot()) && run.capture == row.capture
          && run.status != RunPending && 1 <= run.attempt <= MAX_ATTEMPTS)
  }

  /** A retryable failure below its bound reopens the run; any other is reported to the intent. */
  method SettleFailure(row: DispatchRow, run: AnalysisRun, tables: ResultTables, task: Task, failure: Failure, now: Time)
    returns (response: Response)
    requires Agrees(run, task.run, tables) && Answers(row.Snapshot(), task) && row.status == Running
    requires Consistent(row, run) && run.status == RunFailed
    modifies row, run
    ensures Agrees(run, task.run, tables) && Consistent(row, run)
    ensures if failure.retryable && old(run.attempt) < Bound(failure) then
              && response == RetryScheduled && row.Snapshot() == old(row.Snapshot())
              && run.status == RunRunning && run.attempt == old(run.attempt) + 1
            else
              && response == Acknowledged && row.Snapshot() == MarkedFailed(old(row.Snapshot()), failure, now)
              && run.Snapshot() == old(run.Snapshot())
  {
    if failure.retryable {
      var decision := PrepareRetry(run, Bound(failure), now);
      if decision == RetryLater {
        return RetryScheduled;
      }
    }
    var _, _ := FailCapture(row, task, failure, now);
    response := Acknowledged;
  }

  method Load(run: AnalysisRun, id: RunId, tables: ResultTables) returns (result: Option<AnalysisResult>)
    requires Agrees(run, id, tables)
    ensures result == run.result && (run.status == RunCompleted ==> result.Some?)
    ensures result.Some? ==> result.value.run == id && result.value.capture == run.capture
  {
    result := tables.Load(run);
  }

  /**
   One uninterrupted delivery. A delivery for a missing, foreign or terminal intent is acknowledged without
   effect. Otherwise the delivery either ends the intent and is acknowledged, or schedules a retry with the
   intent still running and the run open in its next attempt, which is at most the fifth.
   */
  method HandleDelivery(row: DispatchRow?, existing: AnalysisRun?, tables: ResultTables, task: Task, inputsFound: bool,
                        answer: Answer, imported: Option<ScopeId>, now: Time)
    returns (response: Response, run: AnalysisRun?)
    requires Agrees(existing, task.run, tables) && AnswersFor(task, answer)
    requires row != null && Answers(row.Snapshot(), task) ==> Consistent(row, existing)
    modifies row, existing, tables
    ensures existing != null ==> run == existing
    ensures run != null ==> Agrees(run, task.run, tables)
    ensures row == null || old(!Answers(row.Snapshot(), task) || row.status in {Completed, Failed}) ==>
              && response == Acknowledged && run == existing && StoredRun(run) == old(StoredRun(existing))
              && (row != null ==> row.Snapshot() == old(row.Snapshot()))
    ensures row != null && old(Answers(row.Snapshot(), task) && row.status !in {Completed, Failed}) ==>
              && Consistent(row, run)
              && response in {Acknowledged, RetryScheduled}
              && (response == Acknowledged <==> row.status in {Completed, Failed})
              && (response == RetryScheduled ==>
                    && row.status == Running && run != null && run.status == RunRunning
                    && run.attempt == (if existing != null then old(existing.attempt) else 1) + 1 <= MAX_ATTEMPTS)
              && (row.status == Completed <==>
                    run != null && run.status == RunCompleted && imported.Some? && inputsFound)
              && (row.status == Completed ==> row.scope == imported)
              && (row.status == Failed && row.failure.value.retryable ==>
                    run != null && run.status == RunFailed && run.attempt >= Bound(row.failure.value))
  {
    hide Agrees;
    run := existing;
    var started := StartCapture(row, task);
    if started.Err? || !started.value {
      return Acknowledged, run;
    }
    if !inputsFound {
      var _, _ := FailCapture(row, task, INPUTS_MISSING, now);
      return Acknowledged, run;
    }
    var outcome;
    outcome, run := HandleTask(existing, tables, task, answer, now);
    if outcome.Err? {
      return ServerError, run;
    }
    if outcome.value.EndedFailed? {
      response := SettleFailure(row, run, tables, task, outcome.value.failure, now);
      return;
    }
    var result := Load(run, task.run, tables);
    // A run that ended successfully stays completed, so a missing result is never reported.
    var _ := CompleteCapture(row, task, result.value, None, imported, now);
    response := Acknowledged;
  }
}
