/**
 What holds of the analysis protocol over every run: any interleaving of dispatch
 passes and task deliveries, each delayed, repeated or abandoned at any point.
 */
module AnalysisTheorems {
  import opened Common
  import opened Ports
  import opened AnalysisContracts
  import opened AnalysisRows
  import opened AnalysisWorld
  import opened AnalysisInvariant
  import opened AnalysisSteps
  import opened AnalysisActions

  lemma Reachable(cfg: Config, actions: seq<Action>)
    ensures Inv(cfg, After(cfg, actions))
  {
    assert Inv(cfg, INITIAL);
    RunKeeps(cfg, INITIAL, actions);
  }

  /** Both states of a run are sound, and the later one is an advance of the earlier. */
  lemma ReachableLater(cfg: Config, actions: seq<Action>, more: seq<Action>, run: RunId)
    requires run in After(cfg, actions).analyses
    ensures var w := After(cfg, actions);
            var w' := Run(cfg, w, more);
            && Inv(cfg, w) && Inv(cfg, w') && Advances(w, w')
            && run in w'.analyses
            && AnalysisOk(w, run, w.analyses[run]) && AnalysisOk(w', run, w'.analyses[run])
            && AnalysisAdvances(w.analyses[run], w'.analyses[run])
  {
    hide Inv, AnalysisOk, AnalysisAdvances;
    Reachable(cfg, actions);
    var w := After(cfg, actions);
    RunKeeps(cfg, w, more);
    assert run in Run(cfg, w, more).analyses && AnalysisAdvances(w.analyses[run], Run(cfg, w, more).analyses[run]);
    AnalysisIn(cfg, w, run);
    AnalysisIn(cfg, Run(cfg, w, more), run);
  }

  // ---------------------------------------------------------------- the run

  /** Rows always satisfy their table's checks, and a run never has more than five attempts. */
  lemma AttemptsAreBounded(cfg: Config, actions: seq<Action>, run: RunId)
    requires run in After(cfg, actions).analyses
    ensures var a := After(cfg, actions).analyses[run];
            && DispatchRowOk(a.dispatch)
            && (a.run.Some? ==> RunRowOk(a.run.value) && 1 <= a.run.value.attempt <= 5 && a.run.value.status != RunPending)
  {
    ReachableLater(cfg, actions, [], run);
  }

  /** A completed run never changes again: first recorded result wins, whatever later deliveries report. */
  lemma CompletedRunIsFrozen(cfg: Config, actions: seq<Action>, more: seq<Action>, run: RunId)
    requires var w := After(cfg, actions);
             run in w.analyses && w.analyses[run].run.Some? && w.analyses[run].run.value.status == RunCompleted
    ensures run in Run(cfg, After(cfg, actions), more).analyses
    ensures Run(cfg, After(cfg, actions), more).analyses[run].run == After(cfg, actions).analyses[run].run
  {
    hide Inv, Advances;
    ReachableLater(cfg, actions, more, run);
  }

  // ------------------------------------------------------------ the dispatch

  /** Once accepted by the queue or a worker, an intent is never dispatched again. */
  lemma NeverClaimableAgain(cfg: Config, actions: seq<Action>, more: seq<Action>, run: RunId, token: Token)
    requires var w := After(cfg, actions);
             run in w.analyses && w.analyses[run].dispatch.status !in {Pending, Dispatching}
    ensures var w' := Run(cfg, After(cfg, actions), more);
            && run in w'.analyses
            && w'.analyses[run].dispatch.status !in {Pending, Dispatching}
            && Step(cfg, w', ClaimCapture(run, token)) == w'
  {
    hide Inv, Advances;
    ReachableLater(cfg, actions, more, run);
  }

  /**
   Every capture gets at most one external task: a stored task ID is the queue's one answer
   for the capture's key, is absent before acceptance, and is never replaced.
   */
  lemma OneTaskPerCapture(cfg: Config, actions: seq<Action>, more: seq<Action>, run: RunId)
    requires run in After(cfg, actions).analyses
    ensures var w := After(cfg, actions);
            var row := w.analyses[run].dispatch;
            var w' := Run(cfg, w, more);
            && (row.status in {Pending, Dispatching} ==> row.taskId.None?)
            && (row.taskId.Some? ==>
                  && run in w.queue.enqueued && row.taskId.value == w.queue.enqueued[run]
                  && run in w'.analyses && w'.analyses[run].dispatch.taskId == row.taskId)
  {
    hide Inv, Advances;
    ReachableLater(cfg, actions, more, run);
  }

  /** The key of a capture determines its request, so the queue never refuses one as a conflict. */
  lemma QueueNeverConflicts(cfg: Config, actions: seq<Action>, claim: Claim)
    requires Leased(claim) in After(cfg, actions).messages
    ensures Enqueue(After(cfg, actions).queue, claim.task.run, RequestOf(cfg, claim.task)).Ok?
  {
    var w := After(cfg, actions);
    hide Inv;
    Reachable(cfg, actions);
    MessageIn(cfg, w, Leased(claim));
    QueueIn(cfg, w);
  }

  /** Two intents never share a capture, and two runs never share an imported scope version. */
  lemma OneIntentPerCapture(cfg: Config, actions: seq<Action>, r: RunId, s: RunId)
    requires var w := After(cfg, actions); r in w.analyses && s in w.analyses && r != s
    ensures var w := After(cfg, actions);
            && w.analyses[r].dispatch.capture != w.analyses[s].dispatch.capture
            && (w.analyses[r].dispatch.scope.Some? ==> w.analyses[r].dispatch.scope != w.analyses[s].dispatch.scope)
  {
    Reachable(cfg, actions);
    AnalysisIn(cfg, After(cfg, actions), r);
    AnalysisIn(cfg, After(cfg, actions), s);
  }

  /**
   The outbox holds, for every intent, its one submission followed by exactly one outcome once
   the intent is terminal, with the stored scope version or failure, and nothing else.
   */
  lemma ExactlyOneOutcome(cfg: Config, actions: seq<Action>, run: RunId)
    requires run in After(cfg, actions).analyses
    ensures var w := After(cfg, actions);
            var row := w.analyses[run].dispatch;
            var events := EventsOf(w.outbox, run);
            && (row.status == Completed ==>
                  && row.scope.Some?
                  && events == [CaptureSubmitted(run, row.capture), AnalysisCompleted(run, row.capture, row.scope.value)])
            && (row.status == Failed ==>
                  && row.failure.Some?
                  && events == [CaptureSubmitted(run, row.capture),
                                AnalysisFailed(run, row.capture, row.failure.value.cause.kind, row.failure.value.retryable)])
            && (!Terminated(row) ==> events == [CaptureSubmitted(run, row.capture)])
  {
    hide Inv, EventsOf;
    Reachable(cfg, actions);
    AnalysisIn(cfg, After(cfg, actions), run);
  }

  lemma NoEventWithoutIntent(cfg: Config, actions: seq<Action>, run: RunId)
    requires run !in After(cfg, actions).analyses
    ensures EventsOf(After(cfg, actions).outbox, run) == []
  {
    Reachable(cfg, actions);
    NoEventsOf(After(cfg, actions).outbox, run);
  }

  /** A terminal intent keeps its status, its scope version and the failure it reported. */
  lemma TerminalStands(cfg: Config, actions: seq<Action>, more: seq<Action>, run: RunId)
    requires run in After(cfg, actions).analyses && Terminated(After(cfg, actions).analyses[run].dispatch)
    ensures var row := After(cfg, actions).analyses[run].dispatch;
            var w' := Run(cfg, After(cfg, actions), more);
            && run in w'.analyses
            && var row' := w'.analyses[run].dispatch;
               && row'.status == row.status && row'.scope == row.scope && row'.completedAt == row.completedAt
               && (row.failure.Some? ==>
                     && row'.failure.Some?
                     && row'.failure.value.cause.kind == row.failure.value.cause.kind
                     && row'.failure.value.retryable == row.failure.value.retryable)
  {
    hide Inv, Advances;
    ReachableLater(cfg, actions, more, run);
  }

  // -------------------------------------------------------------- both layers

  /** A completed intent refers to the one draft imported from exactly the completed run's result. */
  lemma CompletedMeansImported(cfg: Config, actions: seq<Action>, run: RunId)
    requires run in After(cfg, actions).analyses
    ensures var a := After(cfg, actions).analyses[run];
            && (a.dispatch.status == Completed <==> a.draft.Some?)
            && (a.draft.Some? ==>
                  && a.dispatch.scope == Some(a.draft.value.id)
                  && a.run.Some? && a.run.value.status == RunCompleted
                  && a.run.value.result == Some(a.draft.value.source)
                  && a.draft.value.source.run == run
                  && a.draft.value.source.capture == a.dispatch.capture)
  {
    ReachableLater(cfg, actions, [], run);
  }

  /**
   Whenever finishing an intent has an effect there is no earlier import, so the lookup for one never
   hits; what the intent then refers to is the new version, under an identifier used for the first time.
   */
  lemma ImportIsAlwaysNew(cfg: Config, actions: seq<Action>, task: Task, imported: Option<ScopeId>)
    requires var w := After(cfg, actions); Step(cfg, w, FinishCapture(task, imported)) != w
    ensures var w := After(cfg, actions);
            var w' := Step(cfg, w, FinishCapture(task, imported));
            && task.run in w.analyses && task.run in w'.analyses
            && w.analyses[task.run].draft.None? && w.analyses[task.run].dispatch.status == Running
            && (w'.analyses[task.run].draft.Some? ==>
                  imported == Some(w'.analyses[task.run].draft.value.id) && imported.value !in w.usedScopes)
            && (w'.analyses[task.run].draft.Some? <==> imported.Some?)
  {
    hide Inv, After;
    Reachable(cfg, actions);
    FinishImports(cfg, After(cfg, actions), task, imported);
  }

  lemma FinishImports(cfg: Config, w: World, task: Task, imported: Option<ScopeId>)
    requires Inv(cfg, w) && DoFinish(w, task, imported) != w
    ensures var w' := DoFinish(w, task, imported);
            && task.run in w.analyses && task.run in w'.analyses
            && w.analyses[task.run].draft.None? && w.analyses[task.run].dispatch.status == Running
            && (w'.analyses[task.run].draft.Some? ==>
                  imported == Some(w'.analyses[task.run].draft.value.id) && imported.value !in w.usedScopes)
            && (w'.analyses[task.run].draft.Some? <==> imported.Some?)
  {
    hide Inv, Backing;
    MessageIn(cfg, w, RunSucceeded(task));
    AnalysisIn(cfg, w, task.run);
    FinishRows(w.analyses[task.run], task, imported, w.now);
  }

  /**
   A failure reported as retryable was only reported after the run had used up the attempts of
   its bound; under the general bound the run has then stopped for good.
   */
  lemma ExhaustedForGood(cfg: Config, actions: seq<Action>, more: seq<Action>, run: RunId)
    requires var w := After(cfg, actions);
             run in w.analyses && w.analyses[run].dispatch.failure.Some?
             && w.analyses[run].dispatch.failure.value.retryable
    ensures var failure := After(cfg, actions).analyses[run].dispatch.failure.value;
            var w' := Run(cfg, After(cfg, actions), more);
            && run in w'.analyses && w'.analyses[run].run.Some?
            && w'.analyses[run].run.value.attempt >= Bound(failure)
            && (Bound(failure) == MAX_ATTEMPTS ==>
                  w'.analyses[run].run.value.status == RunFailed && w'.analyses[run].run.value.attempt == MAX_ATTEMPTS)
  {
    hide Inv, Advances;
    ReachableLater(cfg, actions, more, run);
  }
}
