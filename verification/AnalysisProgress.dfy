/**
 Where the analysis protocol can still go: when a capture can be completed, and
 exactly which failures leave the provider run stopped.
 */
module AnalysisProgress {
  import opened Common
  import opened AnalysisContracts
  import opened AnalysisRows
  import opened AnalysisWorld
  import opened AnalysisInvariant
  import opened AnalysisSteps
  import opened AnalysisActions
  import opened AnalysisTheorems

  // ------------------------------------------------------------ composition

  lemma {:induction false} RunAppend(cfg: Config, w: World, first: seq<Action>, second: seq<Action>)
    ensures Run(cfg, w, first + second) == Run(cfg, Run(cfg, w, first), second)
    decreases |first|
  {
    if first == [] {
      assert first + second == second;
    } else {
      assert (first + second)[1..] == first[1..] + second;
      RunAppend(cfg, Step(cfg, w, first[0]), first[1..], second);
    }
  }

  lemma RunOne(cfg: Config, w: World, action: Action)
    ensures Run(cfg, w, [action]) == Step(cfg, w, action)
  {
    assert Run(cfg, Step(cfg, w, action), [action][1..]) == Step(cfg, w, action);
  }

  lemma RunTwo(cfg: Config, w: World, first: Action, second: Action)
    ensures Run(cfg, w, [first, second]) == Step(cfg, Step(cfg, w, first), second)
  {
    RunOne(cfg, w, first);
    RunOne(cfg, Step(cfg, w, first), second);
    RunAppend(cfg, w, [first], [second]);
    assert [first] + [second] == [first, second];
  }

  lemma RunThree(cfg: Config, w: World, first: Action, second: Action, third: Action)
    ensures Run(cfg, w, [first, second, third]) == Step(cfg, Step(cfg, Step(cfg, w, first), second), third)
  {
    RunTwo(cfg, w, first, second);
    RunOne(cfg, Step(cfg, Step(cfg, w, first), second), third);
    RunAppend(cfg, w, [first, second], [third]);
    assert [first, second] + [third] == [first, second, third];
  }

  // ---------------------------------------------------------- up to a worker

  function The(w: World, run: RunId): Analysis
    requires run in w.analyses
  {
    w.analyses[run]
  }

  /** Only the dispatch row differs, and it is neither terminal nor another intent. */
  predicate StillOpen(w: World, w': World, run: RunId) {
    && run in w.analyses && run in w'.analyses
    && The(w', run).run == The(w, run).run
    && !Terminated(The(w', run).dispatch)
    && TaskOf(The(w', run).dispatch) == TaskOf(The(w, run).dispatch)
  }

  lemma ClaimStep(cfg: Config, w: World, run: RunId, token: Token)
    requires run in w.analyses && The(w, run).dispatch.run == run
    requires Due(The(w, run).dispatch, w.now) && token !in w.usedTokens
    ensures var w' := Step(cfg, w, ClaimCapture(run, token));
            StillOpen(w, w', run) && Leased(Claim(TaskOf(The(w, run).dispatch), token)) in w'.messages
  {
  }

  lemma EnqueueStep(cfg: Config, w: World, run: RunId, claim: Claim)
    requires Inv(cfg, w) && run in w.analyses && !Terminated(The(w, run).dispatch)
    requires Leased(claim) in w.messages && claim.task == TaskOf(The(w, run).dispatch)
    ensures var w' := Step(cfg, w, EnqueueClaim(claim, NoFault));
            StillOpen(w, w', run) && Delivered(claim.task) in w'.messages
  {
    hide Inv;
    MessageIn(cfg, w, Leased(claim));
    QueueIn(cfg, w);
    EnqueueEffect(cfg, w, claim.task);
    hide QueueOk;
  }

  /** A pending or leased intent reaches the queue: wait until it is due, claim, enqueue. */
  lemma ReachDelivery(cfg: Config, w: World, run: RunId) returns (more: seq<Action>)
    requires Inv(cfg, w) && run in w.analyses && !Terminated(The(w, run).dispatch)
    ensures StillOpen(w, Run(cfg, w, more), run)
    ensures Delivered(TaskOf(The(w, run).dispatch)) in Run(cfg, w, more).messages
  {
    hide Inv;
    AnalysisIn(cfg, w, run);
    var row := The(w, run).dispatch;
    if row.status in {Queued, Running} {
      return [];
    }
    var due := if row.status == Pending then row.scheduledAt else row.lockedUntil.value;
    hide Joint, Backing, Recorded;
    var wait: nat := if due <= w.now then 0 else due - w.now;
    var w1 := Step(cfg, w, Tick(wait));
    StepKeeps(cfg, w, Tick(wait));
    var token := FreshNumber(w1.usedTokens);
    ClaimStep(cfg, w1, run, token);
    StepKeeps(cfg, w1, ClaimCapture(run, token));
    hide Step;
    EnqueueStep(cfg, Step(cfg, w1, ClaimCapture(run, token)), run, Claim(TaskOf(row), token));
    RunThree(cfg, w, Tick(wait), ClaimCapture(run, token), EnqueueClaim(Claim(TaskOf(row), token), NoFault));
    more := [Tick(wait), ClaimCapture(run, token), EnqueueClaim(Claim(TaskOf(row), token), NoFault)];
  }

  /** A worker has opened the run, and is about to read it. */
  predicate Opened(w: World, run: RunId) {
    && run in w.analyses
    && The(w, run).dispatch.run == run
    && The(w, run).dispatch.status == Running
    && The(w, run).run.Some?
    && RunOpened(TaskOf(The(w, run).dispatch)) in w.messages
  }

  lemma OpenSteps(cfg: Config, w: World, run: RunId)
    requires Inv(cfg, w) && run in w.analyses && !Terminated(The(w, run).dispatch)
    requires Delivered(TaskOf(The(w, run).dispatch)) in w.messages
    ensures var task := TaskOf(The(w, run).dispatch);
            var w' := Step(cfg, Step(cfg, Step(cfg, w, StartCapture(task)), LookUpInputs(task, true)), OpenRun(task));
            && Opened(w', run) && TaskOf(The(w', run).dispatch) == task
            && (if The(w, run).run.Some? then The(w', run).run == The(w, run).run
                else The(w', run).run.value.status == RunRunning && The(w', run).run.value.attempt == 1)
  {
    hide Inv;
    AnalysisIn(cfg, w, run);
    hide Backing, Recorded;
  }

  /** Any intent that is not terminal can be brought back to a worker with an open run. */
  lemma ReachOpened(cfg: Config, w: World, run: RunId) returns (more: seq<Action>)
    requires Inv(cfg, w) && run in w.analyses && !Terminated(The(w, run).dispatch)
    ensures var w' := Run(cfg, w, more);
            && Inv(cfg, w') && Opened(w', run)
            && TaskOf(The(w', run).dispatch) == TaskOf(The(w, run).dispatch)
            && (if The(w, run).run.Some? then The(w', run).run == The(w, run).run
                else The(w', run).run.value.status == RunRunning && The(w', run).run.value.attempt == 1)
  {
    hide Inv, Step, Joint, Backing, Recorded;
    var deliver := ReachDelivery(cfg, w, run);
    RunKeeps(cfg, w, deliver);
    var w1 := Run(cfg, w, deliver);
    var task := TaskOf(The(w, run).dispatch);
    OpenSteps(cfg, w1, run);
    RunThree(cfg, w1, StartCapture(task), LookUpInputs(task, true), OpenRun(task));
    var open := [StartCapture(task), LookUpInputs(task, true), OpenRun(task)];
    RunAppend(cfg, w, deliver, open);
    more := deliver + open;
    RunKeeps(cfg, w, more);
  }

  // --------------------------------------------------------------- to the end

  lemma AnswerSteps(cfg: Config, w: World, run: RunId, result: AnalysisResult)
    requires Inv(cfg, w) && Opened(w, run) && The(w, run).run.value.status == RunRunning
    requires result.run == run && result.capture == The(w, run).dispatch.capture
    ensures var task := TaskOf(The(w, run).dispatch);
            var w' := Step(cfg, Step(cfg, Step(cfg, w, ReadRun(task)), CallProvider(task, Analyzed(result))),
                           RecordResult(task, result));
            && Opened(w', run) && TaskOf(The(w', run).dispatch) == task
            && The(w', run).run.value.status == RunCompleted && The(w', run).run.value.result == Some(result)
  {
    hide Inv;
    AnalysisIn(cfg, w, run);
    hide Backing, Recorded;
  }

  lemma ImportSteps(cfg: Config, w: World, run: RunId, scope: ScopeId)
    requires Inv(cfg, w) && Opened(w, run) && The(w, run).run.value.status == RunCompleted && scope !in w.usedScopes
    ensures var task := TaskOf(The(w, run).dispatch);
            var w' := Step(cfg, Step(cfg, w, ReadRun(task)), FinishCapture(task, Some(scope)));
            run in w'.analyses && The(w', run).dispatch.status == Completed && The(w', run).run == The(w, run).run
  {
    hide Inv;
    AnalysisIn(cfg, w, run);
    hide Backing, Recorded;
  }

  lemma ReopenSteps(cfg: Config, w: World, run: RunId)
    requires Inv(cfg, w) && Opened(w, run) && Recoverable(The(w, run).run.value)
    ensures var task := TaskOf(The(w, run).dispatch);
            var failure := Failure(The(w, run).run.value.cause.value, true);
            var w' := Step(cfg, Step(cfg, w, ReadRun(task)), PrepareRetry(task, failure));
            Opened(w', run) && TaskOf(The(w', run).dispatch) == task && The(w', run).run.value.status == RunRunning
  {
    hide Inv;
    AnalysisIn(cfg, w, run);
    hide Backing, Recorded;
  }

  /** A failed run whose stored failure a fresh delivery would retry. */
  predicate Recoverable(row: RunRow) {
    && row.status == RunFailed
    && row.cause.Some?
    && RetryableKind(row.cause.value.kind)
    && row.attempt < Bound(Failure(row.cause.value, true))
  }

  lemma FinishRunning(cfg: Config, w: World, run: RunId, result: AnalysisResult) returns (more: seq<Action>)
    requires Inv(cfg, w) && Opened(w, run) && The(w, run).run.value.status == RunRunning
    requires result.run == run && result.capture == The(w, run).dispatch.capture
    ensures var w' := Run(cfg, w, more);
            run in w'.analyses && The(w', run).dispatch.status == Completed && The(w', run).run.Some?
            && The(w', run).run.value.result == Some(result)
  {
    hide Inv, Step;
    var task := TaskOf(The(w, run).dispatch);
    AnswerSteps(cfg, w, run, result);
    RunThree(cfg, w, ReadRun(task), CallProvider(task, Analyzed(result)), RecordResult(task, result));
    var answer := [ReadRun(task), CallProvider(task, Analyzed(result)), RecordResult(task, result)];
    RunKeeps(cfg, w, answer);
    var finish := FinishCompleted(cfg, Run(cfg, w, answer), run);
    RunAppend(cfg, w, answer, finish);
    more := answer + finish;
  }

  lemma FinishCompleted(cfg: Config, w: World, run: RunId) returns (more: seq<Action>)
    requires Inv(cfg, w) && Opened(w, run) && The(w, run).run.value.status == RunCompleted
    ensures var w' := Run(cfg, w, more);
            run in w'.analyses && The(w', run).dispatch.status == Completed && The(w', run).run == The(w, run).run
  {
    hide Inv, Step;
    var task := TaskOf(The(w, run).dispatch);
    var scope := FreshNumber(w.usedScopes);
    ImportSteps(cfg, w, run, scope);
    RunTwo(cfg, w, ReadRun(task), FinishCapture(task, Some(scope)));
    more := [ReadRun(task), FinishCapture(task, Some(scope))];
  }

  /**
   Nothing gets stuck: from every reachable state an intent that is not terminal can still be
   completed, unless its run has failed in a way no fresh delivery would retry. If the run has no
   result yet, it can be completed with any result for its capture.
   */
  lemma CompletionReachable(cfg: Config, actions: seq<Action>, run: RunId, result: AnalysisResult) returns (more: seq<Action>)
    requires var w := After(cfg, actions);
             && run in w.analyses && !Terminated(The(w, run).dispatch)
             && result.run == run && result.capture == The(w, run).dispatch.capture
             && (The(w, run).run.Some? && The(w, run).run.value.status == RunFailed ==> Recoverable(The(w, run).run.value))
    ensures var w := After(cfg, actions);
            var w' := Run(cfg, w, more);
            && run in w'.analyses && The(w', run).dispatch.status == Completed && The(w', run).run.Some?
            && (if The(w, run).run.Some? && The(w, run).run.value.status == RunCompleted
                then The(w', run).run == The(w, run).run
                else The(w', run).run.value.result == Some(result))
  {
    hide Inv, Step, After;
    Reachable(cfg, actions);
    var w := After(cfg, actions);
    AnalysisIn(cfg, w, run);
    hide Backing, Recorded;
    var open := ReachOpened(cfg, w, run);
    var w1 := Run(cfg, w, open);
    var finish;
    if The(w1, run).run.value.status == RunCompleted {
      finish := FinishCompleted(cfg, w1, run);
    } else if The(w1, run).run.value.status == RunRunning {
      finish := FinishRunning(cfg, w1, run, result);
    } else {
      var task := TaskOf(The(w1, run).dispatch);
      var failure := Failure(The(w1, run).run.value.cause.value, true);
      ReopenSteps(cfg, w1, run);
      var reopen := [ReadRun(task), PrepareRetry(task, failure)];
      RunTwo(cfg, w1, ReadRun(task), PrepareRetry(task, failure));
      RunKeeps(cfg, w1, reopen);
      var rest := FinishRunning(cfg, Run(cfg, w1, reopen), run, result);
      RunAppend(cfg, w1, reopen, rest);
      finish := reopen + rest;
    }
    RunAppend(cfg, w, open, finish);
    more := open + finish;
  }

  // -------------------------------------------- failed intents, running runs

  /** In every reachable state an intent that failed with this failure has a run that is not running. */
  ghost predicate StopsTheRun(cfg: Config, failure: Failure) {
    forall actions: seq<Action>, run: RunId ::
      run in After(cfg, actions).analyses && The(After(cfg, actions), run).dispatch.failure == Some(failure) ==>
        !RunIsRunning(The(After(cfg, actions), run))
  }

  predicate RunIsRunning(a: Analysis) {
    a.run.Some? && a.run.value.status == RunRunning
  }

  /** A provider outage: retryable, and under the general bound. */
  const OUTAGE := Failure(Cause(Unavailable, Some(ProviderCall), None, None), true)

  /** Two deliveries have called the provider in the first attempt; both calls have failed. */
  predicate BothAnswered(w: World, run: RunId, failure: Failure) {
    && run in w.analyses
    && Opened(w, run)
    && The(w, run).run.value.status == RunRunning
    && The(w, run).run.value.attempt == 1
    && Answered(TaskOf(The(w, run).dispatch), ProviderFailed(OUTAGE)) in w.messages
    && Answered(TaskOf(The(w, run).dispatch), ProviderFailed(failure)) in w.messages
  }

  lemma CallTwice(cfg: Config, w: World, run: RunId, failure: Failure)
    requires Opened(w, run) && The(w, run).run.value.status == RunRunning && The(w, run).run.value.attempt == 1
    ensures var task := TaskOf(The(w, run).dispatch);
            var w' := Step(cfg, Step(cfg, Step(cfg, w, ReadRun(task)), CallProvider(task, ProviderFailed(OUTAGE))),
                           CallProvider(task, ProviderFailed(failure)));
            BothAnswered(w', run, failure) && TaskOf(The(w', run).dispatch) == task
  {
  }

  /** The outage ends the first attempt and opens the second; its outcome is still in flight in another delivery. */
  lemma OutageReopens(cfg: Config, w: World, run: RunId, failure: Failure)
    requires BothAnswered(w, run, failure)
    ensures var task := TaskOf(The(w, run).dispatch);
            var w' := Step(cfg, Step(cfg, w, RecordFailure(task, OUTAGE)), PrepareRetry(task, OUTAGE));
            && Opened(w', run) && TaskOf(The(w', run).dispatch) == task && The(w', run).dispatch == The(w, run).dispatch
            && The(w', run).run.value.status == RunRunning && The(w', run).run.value.attempt == 2
            && Answered(task, ProviderFailed(failure)) in w'.messages
            && RunEndedFailed(task, OUTAGE) in w'.messages
  {
  }

  /**
   The second attempt fails and is given up on by its own delivery. Before the intent is failed, a third
   delivery that was told of the outage, but is only now preparing its retry, reopens the run.
   */
  lemma DelayedReopens(cfg: Config, w: World, run: RunId, failure: Failure)
    requires Opened(w, run) && DispatchRowOk(The(w, run).dispatch)
    requires The(w, run).run.value.status == RunRunning && The(w, run).run.value.attempt == 2
    requires Answered(TaskOf(The(w, run).dispatch), ProviderFailed(failure)) in w.messages
    requires RunEndedFailed(TaskOf(The(w, run).dispatch), OUTAGE) in w.messages
    requires failure.retryable ==> Bound(failure) == MAX_OUTPUT_ATTEMPTS
    ensures var task := TaskOf(The(w, run).dispatch);
            var w1 := Step(cfg, Step(cfg, w, RecordFailure(task, failure)), PrepareRetry(task, failure));
            var w2 := Step(cfg, Step(cfg, w1, PrepareRetry(task, OUTAGE)), FailCapture(task, failure));
            run in w2.analyses && The(w2, run).dispatch.failure == Some(failure) && RunIsRunning(The(w2, run))
  {
    var task := TaskOf(The(w, run).dispatch);
    var w1 := Step(cfg, Step(cfg, w, RecordFailure(task, failure)), PrepareRetry(task, failure));
    assert The(w1, run).run.value.status == RunFailed && The(w1, run).run.value.attempt == 2;
    assert MayGiveUp(w1, task, failure);
  }

  lemma ReachBothAnswered(cfg: Config, failure: Failure) returns (actions: seq<Action>)
    ensures BothAnswered(After(cfg, actions), 0, failure)
  {
    var submit := [Submit(0, 0, 0, "", true, true, [true])];
    var w0 := After(cfg, submit);
    RunOne(cfg, INITIAL, submit[0]);
    Reachable(cfg, submit);
    hide Inv, Step;
    var open := ReachOpened(cfg, w0, 0);
    var w1 := Run(cfg, w0, open);
    var task := TaskOf(The(w1, 0).dispatch);
    CallTwice(cfg, w1, 0, failure);
    var calls := [ReadRun(task), CallProvider(task, ProviderFailed(OUTAGE)), CallProvider(task, ProviderFailed(failure))];
    RunThree(cfg, w1, calls[0], calls[1], calls[2]);
    RunAppend(cfg, w0, open, calls);
    RunAppend(cfg, INITIAL, submit, open + calls);
    actions := submit + (open + calls);
  }

  /**
   A run of three deliveries that ends with the intent failed and the provider run running: two call the
   provider in the first attempt, and a third is told of the first outage and prepares its retry late.
   */
  lemma FailedWhileRunning(cfg: Config, failure: Failure) returns (actions: seq<Action>, run: RunId)
    requires !(failure.retryable && Bound(failure) == MAX_ATTEMPTS)
    ensures run in After(cfg, actions).analyses
    ensures The(After(cfg, actions), run).dispatch.failure == Some(failure) && RunIsRunning(The(After(cfg, actions), run))
  {
    run := 0;
    var called := ReachBothAnswered(cfg, failure);
    hide Inv, Step, BothAnswered, Opened, DispatchRowOk;
    var w := After(cfg, called);
    Reachable(cfg, called);
    var task := TaskOf(The(w, 0).dispatch);
    OutageReopens(cfg, w, 0, failure);
    var outage := [RecordFailure(task, OUTAGE), PrepareRetry(task, OUTAGE)];
    RunTwo(cfg, w, outage[0], outage[1]);
    RunKeeps(cfg, w, outage);
    var w1 := Run(cfg, w, outage);
    RowIn(cfg, w1, 0);
    DelayedReopens(cfg, w1, 0, failure);
    var second := [RecordFailure(task, failure), PrepareRetry(task, failure)];
    var last := [PrepareRetry(task, OUTAGE), FailCapture(task, failure)];
    RunTwo(cfg, w1, second[0], second[1]);
    RunTwo(cfg, Run(cfg, w1, second), last[0], last[1]);
    RunAppend(cfg, w1, second, last);
    RunAppend(cfg, w, outage, second + last);
    RunAppend(cfg, INITIAL, called, outage + (second + last));
    actions := called + (outage + (second + last));
  }

  lemma RowIn(cfg: Config, w: World, run: RunId)
    requires Inv(cfg, w) && run in w.analyses
    ensures DispatchRowOk(The(w, run).dispatch)
  {
    AnalysisIn(cfg, w, run);
  }

  /**
   "A failed intent has no running provider run" holds exactly for the failures that are reported
   as retryable under the general attempt bound. For every other failure (one that is not
   retryable, or one of the output stages with their lower bound) a delayed delivery that carries an
   older outcome can reopen the run after another delivery has given up on it.
   */
  lemma FailedMeansStoppedIff(cfg: Config, failure: Failure)
    ensures StopsTheRun(cfg, failure) <==> failure.retryable && Bound(failure) == MAX_ATTEMPTS
  {
    hide After, Bound;
    if failure.retryable && Bound(failure) == MAX_ATTEMPTS {
      forall actions: seq<Action>, run: RunId
        | run in After(cfg, actions).analyses && The(After(cfg, actions), run).dispatch.failure == Some(failure)
        ensures !RunIsRunning(The(After(cfg, actions), run))
      {
        ExhaustedForGood(cfg, actions, [], run);
      }
    } else {
      var actions, run := FailedWhileRunning(cfg, failure);
    }
  }
}
