/** One lemma per action: it keeps the invariant and only advances the state. */
module AnalysisActions {
  import opened Common
  import opened Ports
  import opened AnalysisContracts
  import opened AnalysisRows
  import opened AnalysisWorld
  import opened AnalysisInvariant
  import opened AnalysisSteps

  // ------------------------------------------------------- commands on rows

  predicate Keeps(a: Analysis, a': Analysis) {
    Joint(a') && AnalysisAdvances(a, a')
  }

  lemma ClaimRows(a: Analysis, now: Time, leaseSeconds: nat, token: Token)
    requires Joint(a) && Due(a.dispatch, now)
    ensures Keeps(a, a.(dispatch := Claimed(a.dispatch, now, leaseSeconds, token)))
  {
  }

  lemma FinalizeRows(a: Analysis, claim: Claim, outcome: DispatchOutcome, now: Time)
    requires Joint(a)
    ensures Keeps(a, a.(dispatch := Finalized(a.dispatch, claim, outcome, now).0))
  {
    hide RetryDelay;
  }

  lemma StartRows(a: Analysis, task: Task)
    requires Joint(a)
    ensures var r := StartedCapture(a.dispatch, task);
            r.Ok? && r.value.1 ==> Keeps(a, a.(dispatch := r.value.0)) && r.value.0.status == Running && TaskOf(r.value.0) == task
  {
  }

  lemma OpenRunRows(a: Analysis, task: Task, now: Time)
    requires Joint(a) && task == TaskOf(a.dispatch) && Rank(a.dispatch.status) >= Rank(Running)
    ensures var r := StartedRun(a.run, task.run, task.capture, task.trace, now);
            r.Ok? && Keeps(a, a.(run := Some(r.value)))
  {
  }

  lemma RecordResultRows(a: Analysis, result: AnalysisResult, now: Time)
    requires Joint(a) && result.run == a.dispatch.run && result.capture == a.dispatch.capture
    ensures var r := CompletedRun(a.run, result, now);
            r.Ok? ==> Keeps(a, a.(run := Some(r.value))) && r.value.status == RunCompleted
  {
  }

  lemma RecordFailureRows(a: Analysis, cause: Cause, now: Time)
    requires Joint(a)
    ensures var r := FailedRun(a.run, cause, now);
            r.Ok? ==> Keeps(a, a.(run := Some(r.value)))
  {
  }

  lemma PrepareRetryRows(a: Analysis, failure: Failure, now: Time)
    requires Joint(a) && a.run.Some?
    ensures var (row, decision) := PreparedRetry(a.run, Bound(failure), now);
            Keeps(a, a.(run := row)) && (decision == Terminal ==> Exhausted(row, failure))
  {
  }

  lemma FailRows(a: Analysis, task: Task, failure: Failure, now: Time)
    requires Joint(a) && Rank(a.dispatch.status) >= Rank(Running) && Exhausted(a.run, failure)
    ensures var r := FailedCapture(a.dispatch, task, failure, now);
            r.Ok? ==>
              && Keeps(a, a.(dispatch := r.value.0))
              && r.value.0.run == a.dispatch.run
              && CaptureEvents(r.value.0) == CaptureEvents(a.dispatch) + (if r.value.1 then CaptureEvents(r.value.0) else [])
              && OneEvent(CaptureEvents(r.value.0), a.dispatch.run)
  {
    if a.dispatch.failure.Some? && Covers(a.dispatch.failure.value.cause, failure.cause) {
      ReplayLeavesReported(a.dispatch.failure.value.cause, failure.cause);
    }
  }

  // ---------------------------------------------------------------- actions

  lemma ClaimKeeps(cfg: Config, w: World, run: RunId, token: Token)
    requires Inv(cfg, w)
    ensures Inv(cfg, DoClaim(cfg, w, run, token)) && Advances(w, DoClaim(cfg, w, run, token))
  {
    hide Inv, Joint, Advances, AnalysisAdvances;
    AdvancesReflexive(w);
    if DoClaim(cfg, w, run, token) != w {
      AnalysisIn(cfg, w, run);
      var a := w.analyses[run];
      ClaimRows(a, w.now, cfg.leaseSeconds, token);
      var row := Claimed(a.dispatch, w.now, cfg.leaseSeconds, token);
      hide EventsOf;
      assert a.dispatch.taskId.None? by { UnclaimedRow(a, w.now); }
      UpdateKeeps(cfg, w, a.(dispatch := row), {Leased(Claim(TaskOf(row), token))}, {token});
    }
  }

  lemma UnclaimedRow(a: Analysis, now: Time)
    requires Joint(a) && Due(a.dispatch, now)
    ensures a.dispatch.taskId.None?
  {
  }

  lemma FinalizeKeeps(cfg: Config, w: World, claim: Claim, outcome: DispatchOutcome)
    requires Inv(cfg, w)
    ensures Inv(cfg, DoFinalize(w, claim, outcome)) && Advances(w, DoFinalize(w, claim, outcome))
  {
    hide Inv, Joint, Advances, AnalysisAdvances, EventsOf, RetryDelay;
    AdvancesReflexive(w);
    if DoFinalize(w, claim, outcome) != w {
      MessageIn(cfg, w, Reported(claim, outcome));
      AnalysisIn(cfg, w, claim.task.run);
      var a := w.analyses[claim.task.run];
      FinalizeRows(a, claim, outcome, w.now);
      UpdateKeeps(cfg, w, a.(dispatch := Finalized(a.dispatch, claim, outcome, w.now).0), {}, {});
    }
  }

  lemma StartKeeps(cfg: Config, w: World, task: Task)
    requires Inv(cfg, w)
    ensures Inv(cfg, DoStart(w, task)) && Advances(w, DoStart(w, task))
  {
    hide Inv, Joint, Advances, AnalysisAdvances, EventsOf;
    AdvancesReflexive(w);
    if DoStart(w, task) != w {
      AnalysisIn(cfg, w, task.run);
      var a := w.analyses[task.run];
      StartRows(a, task);
      UpdateKeeps(cfg, w, a.(dispatch := StartedCapture(a.dispatch, task).value.0), {Taken(task)}, {});
    }
  }

  lemma OpenRunKeeps(cfg: Config, w: World, task: Task)
    requires Inv(cfg, w)
    ensures Inv(cfg, DoOpenRun(w, task)) && Advances(w, DoOpenRun(w, task))
  {
    hide Inv, Joint, Advances, AnalysisAdvances, EventsOf;
    AdvancesReflexive(w);
    if DoOpenRun(w, task) != w {
      MessageIn(cfg, w, InputsFound(task));
      AnalysisIn(cfg, w, task.run);
      var a := w.analyses[task.run];
      OpenRunRows(a, task, w.now);
      var row := StartedRun(a.run, task.run, task.capture, task.trace, w.now).value;
      UpdateKeeps(cfg, w, a.(run := Some(row)), {RunOpened(task)}, {});
    }
  }

  lemma RecordResultKeeps(cfg: Config, w: World, task: Task, result: AnalysisResult)
    requires Inv(cfg, w)
    ensures Inv(cfg, DoRecordResult(w, task, result)) && Advances(w, DoRecordResult(w, task, result))
  {
    hide Inv, Joint, Advances, AnalysisAdvances, EventsOf;
    AdvancesReflexive(w);
    if DoRecordResult(w, task, result) != w {
      MessageIn(cfg, w, Answered(task, Analyzed(result)));
      AnalysisIn(cfg, w, task.run);
      var a := w.analyses[task.run];
      RecordResultRows(a, result, w.now);
      UpdateKeeps(cfg, w, a.(run := Some(CompletedRun(a.run, result, w.now).value)), {RunSucceeded(task)}, {});
    }
  }

  lemma RecordFailureKeeps(cfg: Config, w: World, task: Task, failure: Failure)
    requires Inv(cfg, w)
    ensures Inv(cfg, DoRecordFailure(w, task, failure)) && Advances(w, DoRecordFailure(w, task, failure))
  {
    hide Inv, Joint, Advances, AnalysisAdvances, EventsOf;
    AdvancesReflexive(w);
    if DoRecordFailure(w, task, failure) != w {
      MessageIn(cfg, w, Answered(task, ProviderFailed(failure)));
      AnalysisIn(cfg, w, task.run);
      var a := w.analyses[task.run];
      RecordFailureRows(a, failure.cause, w.now);
      var row := FailedRun(a.run, failure.cause, w.now).value;
      UpdateKeeps(cfg, w, a.(run := Some(row)), {RunEndedFailed(task, failure)}, {});
    }
  }

  lemma PrepareRetryKeeps(cfg: Config, w: World, task: Task, failure: Failure)
    requires Inv(cfg, w)
    ensures Inv(cfg, DoPrepareRetry(w, task, failure)) && Advances(w, DoPrepareRetry(w, task, failure))
  {
    hide Inv, Joint, Advances, AnalysisAdvances, EventsOf, Exhausted, PreparedRetry;
    AdvancesReflexive(w);
    if DoPrepareRetry(w, task, failure) != w {
      MessageIn(cfg, w, RunEndedFailed(task, failure));
      AnalysisIn(cfg, w, task.run);
      var a := w.analyses[task.run];
      PrepareRetryRows(a, failure, w.now);
      var (row, decision) := PreparedRetry(a.run, Bound(failure), w.now);
      UpdateKeeps(cfg, w, a.(run := row), if decision == Terminal then {GivingUp(task, failure)} else {}, {});
    }
  }

  lemma FailKeeps(cfg: Config, w: World, task: Task, failure: Failure)
    requires Inv(cfg, w)
    requires task.run in w.analyses ==>
               Rank(w.analyses[task.run].dispatch.status) >= Rank(Running) && Exhausted(w.analyses[task.run].run, failure)
    ensures Inv(cfg, DoFail(w, task, failure)) && Advances(w, DoFail(w, task, failure))
  {
    hide Inv, Joint, Advances, AnalysisAdvances, Exhausted, FailedCapture, CaptureEvents;
    AdvancesReflexive(w);
    if DoFail(w, task, failure) != w {
      AnalysisIn(cfg, w, task.run);
      var a := w.analyses[task.run];
      FailRows(a, task, failure, w.now);
      var (row, emitted) := FailedCapture(a.dispatch, task, failure, w.now).value;
      var events := if emitted then CaptureEvents(row) else [];
      FailBacking(w, a, task, failure, events);
      CommitKeeps(cfg, w, a.(dispatch := row), {}, {}, {}, events);
    }
  }

  lemma FailBacking(w: World, a: Analysis, task: Task, failure: Failure, events: seq<Event>)
    requires Backing(w, a) && FailedCapture(a.dispatch, task, failure, w.now).Ok?
    ensures var row := FailedCapture(a.dispatch, task, failure, w.now).value.0;
            Backing(Commit(w, a.(dispatch := row), {}, {}, {}, events), a.(dispatch := row))
  {
  }

  lemma FinishKeeps(cfg: Config, w: World, task: Task, imported: Option<ScopeId>)
    requires Inv(cfg, w)
    ensures Inv(cfg, DoFinish(w, task, imported)) && Advances(w, DoFinish(w, task, imported))
  {
    hide Inv, Advances, AnalysisAdvances, EventsOf, Joint;
    AdvancesReflexive(w);
    if DoFinish(w, task, imported) != w {
      MessageIn(cfg, w, RunSucceeded(task));
      AnalysisIn(cfg, w, task.run);
      var a := w.analyses[task.run];
      FinishRows(a, task, imported, w.now);
      var row := CompletedCapture(a.dispatch, task, a.run.value.result.value, None, imported, w.now).value;
      var draft := if row.scope.None? then None else Some(Draft(row.scope.value, a.run.value.result.value));
      var scopes := if row.scope.Some? then {row.scope.value} else {};
      CommitKeeps(cfg, w, a.(dispatch := row, draft := draft), {}, {}, scopes, CaptureEvents(row));
    }
  }

  /** A draft is imported only where there was none: the lookup of an earlier import never hits. */
  lemma FinishRows(a: Analysis, task: Task, imported: Option<ScopeId>, now: Time)
    requires Joint(a) && a.run.Some? && a.run.value.status == RunCompleted
    ensures a.run.value.result.Some?
    ensures a.dispatch.status == Running ==> a.draft.None? && CaptureEvents(a.dispatch) == []
    ensures var existing := if a.draft.Some? then Some(a.draft.value.id) else None;
            var result := a.run.value.result.value;
            var r := CompletedCapture(a.dispatch, task, result, existing, imported, now);
            r.Ok? && r.value != a.dispatch ==>
              && a.dispatch.status == Running && a.draft.None?
              && OneEvent(CaptureEvents(r.value), a.dispatch.run)
              && Keeps(a, a.(dispatch := r.value,
                             draft := if r.value.scope.None? then None else Some(Draft(r.value.scope.value, result))))
  {
  }

  /** The rows and the event of an accepted submission. */
  function Intent(action: Action, now: Time): Analysis
    requires action.Submit?
  {
    Analysis(NewDispatch(action.run, action.capture, action.moveJob, action.trace, now), None, None)
  }

  lemma IntentOk(cfg: Config, w: World, action: Action)
    requires Inv(cfg, w) && action.Submit? && action.run !in w.analyses
    ensures var a := Intent(action, w.now);
            var w' := Commit(w, a, {}, {}, {}, [CaptureSubmitted(action.run, action.capture)]);
            AnalysisOk(w', action.run, a)
  {
    NoEventsOf(w.outbox, action.run);
    hide Inv;
    EventsOfCommit(w, [CaptureSubmitted(action.run, action.capture)], action.run, action.run);
  }

  lemma IntentSeparate(w: World, action: Action)
    requires Separate(w) && action.Submit? && action.run !in w.analyses && !CaptureKnown(w, action.capture)
    ensures Separate(Commit(w, Intent(action, w.now), {}, {}, {}, [CaptureSubmitted(action.run, action.capture)]))
  {
  }

  lemma SubmitKeeps(cfg: Config, w: World, action: Action)
    requires Inv(cfg, w) && action.Submit?
    ensures Inv(cfg, Step(cfg, w, action)) && Advances(w, Step(cfg, w, action))
  {
    hide AnalysisAdvances, Joint, Backing, Recorded, QueueOk, Separate, MessageOk, Advances, CaptureKnown;
    AdvancesReflexive(w);
    var w' := Step(cfg, w, action);
    if w' != w {
      var a := Intent(action, w.now);
      var events := [CaptureSubmitted(action.run, action.capture)];
      assert w' == Commit(w, a, {}, {}, {}, events);
      CommitAdvances(w, a, {}, {}, {}, events);
      IntentOk(cfg, w, action);
      IntentSeparate(w, action);
      forall run | run in w'.analyses ensures AnalysisOk(w', run, w'.analyses[run]) {
        if run != action.run { AnalysisStays(w, a, {}, {}, {}, events, run); }
      }
      forall msg | msg in w'.messages ensures MessageOk(w', msg) { MessageStays(w, w', msg); }
      QueueStays(cfg, w, w');
    }
  }

  // ------------------------------------------------- actions without row writes

  ghost predicate NoRow(w: World, w': World) {
    && w'.analyses == w.analyses && w'.outbox == w.outbox
    && w'.usedTokens == w.usedTokens && w'.usedScopes == w.usedScopes
    && w.messages <= w'.messages
    && (forall run :: run in w.queue.enqueued ==>
          run in w'.queue.enqueued && w'.queue.enqueued[run] == w.queue.enqueued[run])
  }

  lemma NoRowKeeps(cfg: Config, w: World, w': World)
    requires Inv(cfg, w) && NoRow(w, w') && QueueOk(cfg, w')
    requires forall m :: m in w'.messages && m !in w.messages ==> MessageOk(w', m)
    ensures Inv(cfg, w') && Advances(w, w')
  {
    hide Joint, AnalysisAdvances, EventsOf, MessageOk;
    forall run | run in w.analyses ensures AnalysisAdvances(w.analyses[run], w.analyses[run]) { SameAnalysis(w.analyses[run]); }
    forall msg | msg in w'.messages ensures MessageOk(w', msg) {
      if msg in w.messages { MessageStays(w, w', msg); }
    }
  }

  /** An accepted request is stored under its run, and the answer is the stored one. */
  lemma EnqueueEffect(cfg: Config, w: World, task: Task)
    requires QueueOk(cfg, w) && TaskOk(w, task)
    ensures var r := Enqueue(w.queue, task.run, RequestOf(cfg, task));
            && r.Ok?
            && QueueOk(cfg, w.(queue := r.value.0))
            && task.run in r.value.0.enqueued && r.value.0.enqueued[task.run] == r.value.1
            && (forall run :: run in w.queue.enqueued ==>
                  run in r.value.0.enqueued && r.value.0.enqueued[run] == w.queue.enqueued[run])
  {
  }

  lemma EnqueueKeeps(cfg: Config, w: World, claim: Claim, fault: EnqueueFault)
    requires Inv(cfg, w)
    ensures Inv(cfg, DoEnqueue(cfg, w, claim, fault)) && Advances(w, DoEnqueue(cfg, w, claim, fault))
  {
    hide Inv, Advances;
    AdvancesReflexive(w);
    if Leased(claim) in w.messages {
      MessageIn(cfg, w, Leased(claim));
      QueueIn(cfg, w);
      EnqueueEffect(cfg, w, claim.task);
      hide QueueOk, Enqueue;
      NoRowKeeps(cfg, w, DoEnqueue(cfg, w, claim, fault));
    }
  }

  lemma QueueIn(cfg: Config, w: World)
    requires Inv(cfg, w)
    ensures QueueOk(cfg, w)
  {
  }

  lemma MessageKeeps(cfg: Config, w: World, action: Action)
    requires Inv(cfg, w) && (action.LookUpInputs? || action.ReadRun? || action.CallProvider?)
    ensures Inv(cfg, Step(cfg, w, action)) && Advances(w, Step(cfg, w, action))
  {
    hide Inv, Joint, Backing, Recorded, Advances, EventsOf;
    AdvancesReflexive(w);
    var w' := Step(cfg, w, action);
    if w' != w {
      QueueIn(cfg, w);
      match action {
        case LookUpInputs(task, _) => MessageIn(cfg, w, Taken(task));
        case ReadRun(task) => MessageIn(cfg, w, RunOpened(task));
        case CallProvider(task, _) => MessageIn(cfg, w, Calling(task));
      }
      NoRowKeeps(cfg, w, w');
    }
  }

  lemma StepKeeps(cfg: Config, w: World, action: Action)
    requires Inv(cfg, w)
    ensures Inv(cfg, Step(cfg, w, action)) && Advances(w, Step(cfg, w, action))
  {
    hide Inv, Advances, DoClaim, DoEnqueue, DoFinalize, DoStart, DoOpenRun, DoRecordResult, DoRecordFailure, DoFinish,
         DoPrepareRetry, DoFail, Exhausted, Rank;
    match action {
      case Tick(elapsed) => TickKeeps(cfg, w, elapsed);
      case Submit(_, _, _, _, _, _, _) => SubmitKeeps(cfg, w, action);
      case ClaimCapture(run, token) => ClaimKeeps(cfg, w, run, token);
      case EnqueueClaim(claim, fault) => EnqueueKeeps(cfg, w, claim, fault);
      case FinalizeClaim(claim, outcome) => FinalizeKeeps(cfg, w, claim, outcome);
      case StartCapture(task) => StartKeeps(cfg, w, task);
      case LookUpInputs(_, _) => MessageKeeps(cfg, w, action);
      case OpenRun(task) => OpenRunKeeps(cfg, w, task);
      case ReadRun(_) => MessageKeeps(cfg, w, action);
      case CallProvider(_, _) => MessageKeeps(cfg, w, action);
      case RecordResult(task, result) => RecordResultKeeps(cfg, w, task, result);
      case RecordFailure(task, failure) => RecordFailureKeeps(cfg, w, task, failure);
      case FinishCapture(task, imported) => FinishKeeps(cfg, w, task, imported);
      case PrepareRetry(task, failure) => PrepareRetryKeeps(cfg, w, task, failure);
      case FailCapture(task, failure) =>
        AdvancesReflexive(w);
        if MayGiveUp(w, task, failure) {
          GivingUpOk(cfg, w, task, failure);
          FailKeeps(cfg, w, task, failure);
        }
    }
  }

  lemma TickKeeps(cfg: Config, w: World, elapsed: nat)
    requires Inv(cfg, w)
    ensures Inv(cfg, w.(now := w.now + elapsed)) && Advances(w, w.(now := w.now + elapsed))
  {
    NoRowKeeps(cfg, w, w.(now := w.now + elapsed));
  }

  lemma GivingUpOk(cfg: Config, w: World, task: Task, failure: Failure)
    requires Inv(cfg, w) && MayGiveUp(w, task, failure)
    ensures TakenOk(w, task) && Exhausted(w.analyses[task.run].run, failure)
  {
    if GivingUp(task, failure) in w.messages {
      MessageIn(cfg, w, GivingUp(task, failure));
    } else {
      MessageIn(cfg, w, RunEndedFailed(task, failure));
    }
  }

  lemma {:induction false} RunKeeps(cfg: Config, w: World, actions: seq<Action>)
    requires Inv(cfg, w)
    ensures Inv(cfg, Run(cfg, w, actions)) && Advances(w, Run(cfg, w, actions))
    decreases |actions|
  {
    hide Inv, Advances, Step;
    if actions == [] {
      AdvancesReflexive(w);
    } else {
      var w1 := Step(cfg, w, actions[0]);
      StepKeeps(cfg, w, actions[0]);
      RunKeeps(cfg, w1, actions[1..]);
      AdvancesTransitive(w, w1, Run(cfg, w1, actions[1..]));
    }
  }
}
