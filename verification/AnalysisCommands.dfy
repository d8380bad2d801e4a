/**
 When each transaction of the analysis protocol has an effect in a reachable state,
 and which one, in terms of the stored columns. Guards that the invariant makes
 redundant are gone.
 */
module AnalysisCommands {
  import opened Common
  import opened AnalysisContracts
  import opened AnalysisRows
  import opened AnalysisWorld
  import opened AnalysisInvariant
  import opened AnalysisSteps

  // -------------------------------------------------------------- submission

  /** An intent that nothing has touched yet, due at once. */
  predicate FreshIntent(a: Analysis, run: RunId, capture: CaptureId, moveJob: MoveJobId, trace: string, now: Time) {
    var row := a.dispatch;
    && row.run == run && row.capture == capture && row.moveJob == moveJob && row.trace == trace
    && row.status == Pending && row.scheduledAt == now && row.attempts == 0 && row.token.None? && row.taskId.None?
    && row.dispatchError.None? && row.failure.None? && row.scope.None? && row.lastAttemptAt.None? && row.completedAt.None?
    && a.run.None? && a.draft.None?
  }

  /** A submission has an effect exactly for a new, consented capture of an open job whose whole inventory is ready. */
  lemma SubmitTakesEffectIff(cfg: Config, w: World, run: RunId, capture: CaptureId, moveJob: MoveJobId, trace: string,
                             consented: bool, jobOpen: bool, inventory: seq<bool>)
    requires run !in w.analyses
    ensures var w' := Step(cfg, w, Submit(run, capture, moveJob, trace, consented, jobOpen, inventory));
            && (w' != w <==> !CaptureKnown(w, capture) && consented && jobOpen && |inventory| > 0
                             && forall i :: 0 <= i < |inventory| ==> inventory[i])
            && (w' != w ==>
                  && run in w'.analyses && FreshIntent(w'.analyses[run], run, capture, moveJob, trace, w.now)
                  && w' == w.(analyses := w.analyses[run := w'.analyses[run]],
                              outbox := w.outbox + [CaptureSubmitted(run, capture)]))
  {
    assert false in inventory <==> exists i :: 0 <= i < |inventory| && !inventory[i];
    assert Step(cfg, w, Submit(run, capture, moveJob, trace, consented, jobOpen, inventory)) != w <==>
             run in Step(cfg, w, Submit(run, capture, moveJob, trace, consented, jobOpen, inventory)).analyses;
  }

  // ---------------------------------------------------------------- dispatch

  /** A claim is open: the row waits and its time has come, or its lease is over. */
  predicate Claimable(row: Dispatch, now: Time) {
    || (row.status == Pending && row.scheduledAt <= now)
    || (row.status == Dispatching && row.lockedUntil.Some? && row.lockedUntil.value <= now)
  }

  predicate LeasedRow(row: Dispatch, row': Dispatch, now: Time, lease: nat, token: Token) {
    && row'.status == Dispatching && row'.token == Some(token) && row'.lockedUntil == Some(now + lease)
    && row'.attempts == row.attempts + (if row.status == Pending then 1 else 0)
    && row'.lastAttemptAt == (if row.status == Pending then Some(now) else row.lastAttemptAt)
    && row' == row.(status := Dispatching, token := row'.token, lockedUntil := row'.lockedUntil,
                    attempts := row'.attempts, lastAttemptAt := row'.lastAttemptAt)
  }

  lemma ClaimEffect(cfg: Config, w: World, run: RunId, token: Token)
    requires Inv(cfg, w)
    ensures var w' := Step(cfg, w, ClaimCapture(run, token));
            && (w' != w <==> run in w.analyses && Claimable(w.analyses[run].dispatch, w.now) && token !in w.usedTokens)
            && (w' != w ==>
                  && run in w'.analyses
                  && LeasedRow(w.analyses[run].dispatch, w'.analyses[run].dispatch, w.now, cfg.leaseSeconds, token)
                  && w'.analyses == w.analyses[run := w.analyses[run].(dispatch := w'.analyses[run].dispatch)]
                  && w'.now == w.now && token in w'.usedTokens)
  {
    hide Inv;
    if run in w.analyses { AnalysisIn(cfg, w, run); }
    hide AnalysisOk;
    assert run in w.analyses && Claimable(w.analyses[run].dispatch, w.now) && token !in w.usedTokens ==>
             token in Step(cfg, w, ClaimCapture(run, token)).usedTokens;
  }

  /** Two seconds after the first refused attempt, twice as long after each further one, 256 from the eighth on. */
  function WaitAfter(attempts: nat): nat {
    if attempts == 1 then 2
    else if attempts == 2 then 4
    else if attempts == 3 then 8
    else if attempts == 4 then 16
    else if attempts == 5 then 32
    else if attempts == 6 then 64
    else if attempts == 7 then 128
    else 256
  }

  /** What a queue answer does to a row. */
  predicate QueueAnswered(row: Dispatch, row': Dispatch, claim: Claim, outcome: DispatchOutcome, now: Time) {
    if row.token == Some(claim.token) then
      match outcome {
        case Accepted(taskId) =>
          row' == row.(status := Queued, token := None, lockedUntil := None, taskId := Some(taskId), dispatchError := None)
        case Refused(code) =>
          row' == row.(status := Pending, token := None, lockedUntil := None, dispatchError := Some(code),
                       scheduledAt := now + WaitAfter(row.attempts))
      }
    else if outcome.Accepted? && Rank(row.status) >= Rank(Queued) then row' == row.(taskId := Some(outcome.taskId))
    else row' == row
  }

  lemma Waits(attempts: nat)
    requires attempts >= 1
    ensures RetryDelay(attempts) == WaitAfter(attempts)
  {
    PowerDoubles();
  }

  lemma FinalizeEffect(cfg: Config, w: World, claim: Claim, outcome: DispatchOutcome)
    requires Inv(cfg, w) && Reported(claim, outcome) in w.messages
    ensures var run := claim.task.run;
            var w' := Step(cfg, w, FinalizeClaim(claim, outcome));
            && run in w.analyses && run in w'.analyses
            && QueueAnswered(w.analyses[run].dispatch, w'.analyses[run].dispatch, claim, outcome, w.now)
            && w' == w.(analyses := w.analyses[run := w.analyses[run].(dispatch := w'.analyses[run].dispatch)])
  {
    hide Inv;
    MessageIn(cfg, w, Reported(claim, outcome));
    AnalysisIn(cfg, w, claim.task.run);
    var row := w.analyses[claim.task.run].dispatch;
    if row.token.Some? {
      LeasedAttempts(cfg, w, claim.task.run);
      Waits(row.attempts);
    }
    hide RetryDelay, WaitAfter, EventsOf;
  }

  /** An answer is counted exactly if it ended its lease, or is the task ID of an intent that got past its dispatch. */
  lemma AnswerIsCountedIff(cfg: Config, w: World, claim: Claim, outcome: DispatchOutcome)
    requires Inv(cfg, w) && Reported(claim, outcome) in w.messages && claim.task.run in w.analyses
    ensures var row := w.analyses[claim.task.run].dispatch;
            Finalized(row, claim, outcome, w.now).1 <==>
              row.token == Some(claim.token) || (outcome.Accepted? && Rank(row.status) >= Rank(Queued))
  {
    hide Inv;
    MessageIn(cfg, w, Reported(claim, outcome));
    AnalysisIn(cfg, w, claim.task.run);
    hide EventsOf, RetryDelay;
  }

  /** A leased row has been attempted. */
  lemma LeasedAttempts(cfg: Config, w: World, run: RunId)
    requires Inv(cfg, w) && run in w.analyses && w.analyses[run].dispatch.token.Some?
    ensures w.analyses[run].dispatch.attempts >= 1 && w.analyses[run].dispatch.status == Dispatching
  {
    hide Inv;
    AnalysisIn(cfg, w, run);
  }

  /** A delivery is accepted exactly for an intent that is not terminal. */
  lemma StartEffect(cfg: Config, w: World, task: Task)
    requires Inv(cfg, w) && Delivered(task) in w.messages
    ensures var w' := Step(cfg, w, StartCapture(task));
            && task.run in w.analyses
            && w' == (if w.analyses[task.run].dispatch.status in {Completed, Failed} then w
                      else w.(analyses := w.analyses[task.run := w.analyses[task.run].(dispatch :=
                                w.analyses[task.run].dispatch.(status := Running, token := None, lockedUntil := None))],
                              messages := w.messages + {Taken(task)}))
  {
    hide Inv;
    MessageIn(cfg, w, Delivered(task));
    AnalysisIn(cfg, w, task.run);
    hide Joint, Backing, EventsOf;
    assert w.outbox + [] == w.outbox;
  }

  // --------------------------------------------------------- the provider run

  /** The first delivery opens the run in its first attempt; every other one finds it. */
  lemma OpenRunEffect(cfg: Config, w: World, task: Task)
    requires Inv(cfg, w) && InputsFound(task) in w.messages
    ensures var w' := Step(cfg, w, OpenRun(task));
            && task.run in w.analyses && task.run in w'.analyses && RunOpened(task) in w'.messages
            && w'.analyses[task.run] == w.analyses[task.run].(run :=
                 if w.analyses[task.run].run.Some? then w.analyses[task.run].run
                 else Some(RunRow(task.run, task.capture, task.trace, RunRunning, 1, Some(w.now), None, None, None)))
  {
    hide Inv;
    MessageIn(cfg, w, InputsFound(task));
    AnalysisIn(cfg, w, task.run);
    hide Backing, EventsOf;
  }

  /** What a delivery reads of the run: the stored outcome, with its retryability by the kind of error, or a call to make. */
  lemma ReadRunEffect(cfg: Config, w: World, task: Task)
    requires Inv(cfg, w) && RunOpened(task) in w.messages
    ensures task.run in w.analyses && w.analyses[task.run].run.Some?
    ensures var row := w.analyses[task.run].run.value;
            && (row.status == RunFailed ==> row.cause.Some?)
            && Step(cfg, w, ReadRun(task)) == w.(messages := w.messages + {
                 if row.status == RunCompleted then RunSucceeded(task)
                 else if row.status == RunFailed then
                   RunEndedFailed(task, Failure(row.cause.value, row.cause.value.kind in {Unavailable, DeadlineExceeded}))
                 else Calling(task)})
  {
    hide Inv;
    MessageIn(cfg, w, RunOpened(task));
    AnalysisIn(cfg, w, task.run);
    hide Backing, EventsOf;
  }

  predicate RunChanged(w: World, w': World, run: RunId, row: RunRow) {
    run in w.analyses && w'.analyses == w.analyses[run := w.analyses[run].(run := Some(row))]
  }

  /** A result is stored exactly for the running run; the same result again is acknowledged, any other has no effect. */
  lemma RecordResultEffect(cfg: Config, w: World, task: Task, result: AnalysisResult)
    requires Inv(cfg, w) && Answered(task, Analyzed(result)) in w.messages
    ensures var w' := Step(cfg, w, RecordResult(task, result));
            && task.run in w.analyses && w.analyses[task.run].run.Some?
            && var row := w.analyses[task.run].run.value;
               if row.status == RunRunning then
                 && RunChanged(w, w', task.run, row.(status := RunCompleted, result := Some(result), cause := None,
                                                     completedAt := Some(w.now)))
                 && w'.messages == w.messages + {RunSucceeded(task)}
               else if row.status == RunCompleted && row.result == Some(result) then
                 w' == w.(messages := w.messages + {RunSucceeded(task)})
               else w' == w
  {
    hide Inv;
    MessageIn(cfg, w, Answered(task, Analyzed(result)));
    AnalysisIn(cfg, w, task.run);
    hide Backing, EventsOf;
    SameWrite(w, task.run);
  }

  lemma SameWrite(w: World, run: RunId)
    requires run in w.analyses
    ensures w.analyses[run := w.analyses[run]] == w.analyses && w.outbox + [] == w.outbox
    ensures w.analyses[run].(run := w.analyses[run].run) == w.analyses[run]
  {
  }

  /** A stored diagnostic is kept, an absent one is filled in; a different one is a conflict. */
  predicate Agrees<T(==)>(stored: Option<T>, reported: Option<T>) {
    stored.None? || stored == reported
  }

  predicate CauseAgrees(stored: Cause, reported: Cause) {
    && stored.kind == reported.kind && Agrees(stored.stage, reported.stage)
    && Agrees(stored.providerStatus, reported.providerStatus) && Agrees(stored.detail, reported.detail)
  }

  /** A failure ends the running run; reported again it may only fill in what was absent. */
  lemma RecordFailureEffect(cfg: Config, w: World, task: Task, failure: Failure)
    requires Inv(cfg, w) && Answered(task, ProviderFailed(failure)) in w.messages
    ensures var w' := Step(cfg, w, RecordFailure(task, failure));
            && task.run in w.analyses && w.analyses[task.run].run.Some?
            && var row := w.analyses[task.run].run.value;
               if row.status == RunRunning then
                 && RunChanged(w, w', task.run, row.(status := RunFailed, cause := Some(failure.cause), completedAt := Some(w.now)))
                 && w'.messages == w.messages + {RunEndedFailed(task, failure)}
               else if row.status == RunFailed && row.cause.Some? && CauseAgrees(row.cause.value, failure.cause) then
                 && RunChanged(w, w', task.run, row.(cause := Some(failure.cause)))
                 && w'.messages == w.messages + {RunEndedFailed(task, failure)}
               else w' == w
  {
    hide Inv;
    MessageIn(cfg, w, Answered(task, ProviderFailed(failure)));
    AnalysisIn(cfg, w, task.run);
    var row := w.analyses[task.run].run.value;
    if row.cause.Some? && Covers(row.cause.value, failure.cause) { ReplayLeavesReported(row.cause.value, failure.cause); }
    hide Backing, EventsOf, Merged;
  }

  /** Two attempts for output that could not be read, five for any other failure. */
  function AttemptsAllowed(failure: Failure): nat {
    if failure.cause.stage == Some(Parse) || failure.cause.stage == Some(SourceMap) then 2 else 5
  }

  /** A retry opens exactly one more attempt of a failed run that has one left, and gives up exactly when it has none. */
  lemma PrepareRetryEffect(cfg: Config, w: World, task: Task, failure: Failure)
    requires Inv(cfg, w) && RunEndedFailed(task, failure) in w.messages && failure.retryable
    ensures var w' := Step(cfg, w, PrepareRetry(task, failure));
            && task.run in w.analyses && w.analyses[task.run].run.Some?
            && var row := w.analyses[task.run].run.value;
               if row.status == RunFailed && row.attempt < AttemptsAllowed(failure) then
                 && RunChanged(w, w', task.run,
                               RunRow(row.id, row.capture, row.trace, RunRunning, row.attempt + 1, Some(w.now), None, None, None))
                 && w'.messages == w.messages
               else if row.status == RunFailed then w' == w.(messages := w.messages + {GivingUp(task, failure)})
               else w' == w
  {
    hide Inv;
    MessageIn(cfg, w, RunEndedFailed(task, failure));
    AnalysisIn(cfg, w, task.run);
    hide Backing, EventsOf;
    SameWrite(w, task.run);
    assert w.messages + {} == w.messages;
  }

  // ------------------------------------------------------------- the outcome

  predicate IntentChanged(w: World, w': World, a: Analysis, event: Event) {
    w'.analyses == w.analyses[a.dispatch.run := a] && w'.outbox == w.outbox + [event]
  }

  /** Importing a draft completes a running intent, a rejected draft fails it; any other intent is left alone. */
  lemma FinishEffect(cfg: Config, w: World, task: Task, imported: Option<ScopeId>)
    requires Inv(cfg, w) && RunSucceeded(task) in w.messages && (imported.Some? ==> imported.value !in w.usedScopes)
    ensures var w' := Step(cfg, w, FinishCapture(task, imported));
            && task.run in w.analyses && w.analyses[task.run].run.Some? && w.analyses[task.run].run.value.result.Some?
            && var a := w.analyses[task.run];
               if a.dispatch.status != Running then w' == w
               else if imported.Some? then
                 IntentChanged(w, w', a.(dispatch := a.dispatch.(status := Completed, scope := imported, completedAt := Some(w.now)),
                                         draft := Some(Draft(imported.value, a.run.value.result.value))),
                               AnalysisCompleted(task.run, task.capture, imported.value))
               else
                 IntentChanged(w, w', a.(dispatch := FailedRow(a.dispatch, Failure(Cause(InvalidInput, Some(ScopeImport), None,
                                                                 Some(ScopeImportInvalid)), false), w.now)),
                               AnalysisFailed(task.run, task.capture, InvalidInput, false))
  {
    hide Inv;
    MessageIn(cfg, w, RunSucceeded(task));
    AnalysisIn(cfg, w, task.run);
    hide Backing, EventsOf;
  }

  /** The row of an intent that was given up. */
  function FailedRow(row: Dispatch, failure: Failure, now: Time): Dispatch {
    Dispatch(row.run, row.capture, row.moveJob, row.trace, Failed, row.scheduledAt, row.attempts, None, None, row.taskId,
             row.dispatchError, Some(failure), None, row.lastAttemptAt, Some(now))
  }

  lemma FailedRows(row: Dispatch, task: Task, failure: Failure, now: Time)
    requires Answers(row, task)
    ensures FailedCapture(row, task, failure, now) ==
            if row.status !in {Completed, Failed} then Ok((FailedRow(row, failure, now), true))
            else if row.status == Failed && row.failure.Some? && CauseAgrees(row.failure.value.cause, failure.cause)
                    && row.failure.value.retryable == failure.retryable then
              Ok((row.(failure := Some(failure)), false))
            else Err(RowConflict)
  {
    if row.failure.Some? && Covers(row.failure.value.cause, failure.cause) {
      ReplayLeavesReported(row.failure.value.cause, failure.cause);
    }
    hide Merged;
  }

  /** Giving up fails an intent that is not terminal; reported again it may only fill in what was absent. */
  lemma FailEffect(cfg: Config, w: World, task: Task, failure: Failure)
    requires Inv(cfg, w) && MayGiveUp(w, task, failure)
    ensures var w' := Step(cfg, w, FailCapture(task, failure));
            && task.run in w.analyses && task.run in w'.analyses
            && var a := w.analyses[task.run];
               if a.dispatch.status !in {Completed, Failed} then
                 IntentChanged(w, w', a.(dispatch := FailedRow(a.dispatch, failure, w.now)),
                               AnalysisFailed(task.run, task.capture, failure.cause.kind, failure.retryable))
               else if a.dispatch.status == Failed && a.dispatch.failure.Some?
                       && CauseAgrees(a.dispatch.failure.value.cause, failure.cause)
                       && a.dispatch.failure.value.retryable == failure.retryable then
                 w' == w.(analyses := w.analyses[task.run := a.(dispatch := a.dispatch.(failure := Some(failure)))])
               else w' == w
  {
    hide Inv;
    if GivingUp(task, failure) in w.messages { MessageIn(cfg, w, GivingUp(task, failure)); }
    else { MessageIn(cfg, w, RunEndedFailed(task, failure)); }
    AnalysisIn(cfg, w, task.run);
    var a := w.analyses[task.run];
    FailedRows(a.dispatch, task, failure, w.now);
    hide Backing, EventsOf, FailedCapture, CauseAgrees, Exhausted, Joint;
    SameWrite(w, task.run);
    assert w.messages + {} == w.messages;
  }

  // -------------------------------------------------------------- rejections

  /** A foreign delivery is told that there is no such intent; an outcome that contradicts the stored one is a conflict. */
  lemma OutcomeRejections(row: Dispatch, task: Task, failure: Failure, result: AnalysisResult, existing: Option<ScopeId>,
                          imported: Option<ScopeId>, now: Time)
    ensures var foreign := row.run != task.run || row.capture != task.capture || row.trace != task.trace || task.attempt != 1;
            && (StartedCapture(row, task) == Err(RowNotFound) <==> foreign) && StartedCapture(row, task) != Err(RowConflict)
            && (FailedCapture(row, task, failure, now) == Err(RowNotFound) <==> foreign)
            && (CompletedCapture(row, task, result, existing, imported, now) == Err(RowNotFound) <==> foreign)
  {
  }

  /** A worker is told that its outcome stands exactly for the running run, or if the ended run can hold that same outcome. */
  lemma RunAnsweredIff(stored: Option<RunRow>, result: AnalysisResult, cause: Cause, now: Time)
    requires stored.Some? && stored.value.status == RunFailed ==> stored.value.cause.Some?
    ensures CompletedRun(stored, result, now).Ok? <==>
              && stored.Some?
              && (|| (stored.value.status == RunRunning && stored.value.capture == result.capture)
                  || (stored.value.status == RunCompleted && stored.value.result == Some(result)))
    ensures FailedRun(stored, cause, now).Ok? <==>
              && stored.Some?
              && (|| stored.value.status == RunRunning
                  || (stored.value.status == RunFailed && CauseAgrees(stored.value.cause.value, cause)))
    ensures CompletedRun(stored, result, now) == Err(RowNotFound) <==> stored.None?
    ensures FailedRun(stored, cause, now) == Err(RowNotFound) <==> stored.None?
  {
  }
}
