/**
 Every action of the analysis protocol keeps the invariant and only advances the
 state; hence so does every run.
 */
module AnalysisSteps {
  import opened Common
  import opened AnalysisContracts
  import opened AnalysisRows
  import opened AnalysisWorld
  import opened AnalysisInvariant

  // ---------------------------------------------------------------- frames

  lemma AdvancesReflexive(w: World)
    ensures Advances(w, w)
  {
  }

  lemma AdvancesTransitive(w: World, w1: World, w2: World)
    requires Advances(w, w1) && Advances(w1, w2)
    ensures Advances(w, w2)
  {
    forall run | run in w.analyses ensures run in w2.analyses && AnalysisAdvances(w.analyses[run], w2.analyses[run]) {
      assert AnalysisAdvances(w.analyses[run], w1.analyses[run]) && AnalysisAdvances(w1.analyses[run], w2.analyses[run]);
    }
  }

  lemma AnalysisIn(cfg: Config, w: World, run: RunId)
    requires Inv(cfg, w) && run in w.analyses
    ensures AnalysisOk(w, run, w.analyses[run])
  {
  }

  lemma MessageIn(cfg: Config, w: World, message: Message)
    requires Inv(cfg, w) && message in w.messages
    ensures MessageOk(w, message)
  {
  }

  lemma TaskStays(w: World, w': World, task: Task)
    requires Advances(w, w') && TaskOk(w, task)
    ensures TaskOk(w', task) && AnalysisAdvances(w.analyses[task.run], w'.analyses[task.run])
  {
  }

  lemma ExhaustedStays(a: Analysis, a': Analysis, failure: Failure)
    requires Joint(a) && Joint(a') && AnalysisAdvances(a, a') && Exhausted(a.run, failure)
    ensures Exhausted(a'.run, failure)
  {
  }

  /** A message once sound stays sound. */
  lemma MessageStays(w: World, w': World, message: Message)
    requires Advances(w, w') && MessageOk(w, message)
    requires forall run :: run in w.analyses ==> run in w'.analyses && Joint(w.analyses[run]) && Joint(w'.analyses[run])
    ensures MessageOk(w', message)
  {
    hide Advances, Joint, Exhausted;
    match message {
      case Leased(claim) => TaskStays(w, w', claim.task); TokensStay(w, w');
      case Reported(claim, outcome) => TaskStays(w, w', claim.task); AcceptedStays(w, w', claim, outcome);
      case Delivered(task) => TaskStays(w, w', task);
      case Taken(task) => TaskStays(w, w', task);
      case InputsFound(task) => TaskStays(w, w', task);
      case RunOpened(task) => TaskStays(w, w', task);
      case Calling(task) => TaskStays(w, w', task);
      case Answered(task, _) => TaskStays(w, w', task);
      case RunSucceeded(task) => TaskStays(w, w', task);
      case RunEndedFailed(task, _) => TaskStays(w, w', task);
      case GivingUp(task, failure) =>
        TaskStays(w, w', task);
        ExhaustedStays(w.analyses[task.run], w'.analyses[task.run], failure);
    }
  }

  lemma TokensStay(w: World, w': World)
    requires Advances(w, w')
    ensures w.usedTokens <= w'.usedTokens && w.messages <= w'.messages
  {
  }

  lemma AcceptedStays(w: World, w': World, claim: Claim, outcome: DispatchOutcome)
    requires Advances(w, w')
    ensures Delivered(claim.task) in w.messages ==> Delivered(claim.task) in w'.messages
    ensures claim.task.run in w.queue.enqueued ==>
              claim.task.run in w'.queue.enqueued && w'.queue.enqueued[claim.task.run] == w.queue.enqueued[claim.task.run]
  {
  }

  // ------------------------------------------------------------------ outbox

  lemma EventsOfAppend(outbox: seq<Event>, event: Event, run: RunId)
    ensures EventsOf(outbox + [event], run) == EventsOf(outbox, run) + if event.run == run then [event] else []
  {
    assert (outbox + [event])[..|outbox|] == outbox;
  }

  lemma {:induction false} NoEventsOf(outbox: seq<Event>, run: RunId)
    requires forall e :: e in outbox ==> e.run != run
    ensures EventsOf(outbox, run) == []
    decreases |outbox|
  {
    if outbox != [] {
      NoEventsOf(outbox[..|outbox| - 1], run);
    }
  }

  /** At most one event, of the run itself, is appended by a transaction. */
  predicate OneEvent(events: seq<Event>, run: RunId) {
    events == [] || (|events| == 1 && events[0].run == run)
  }

  lemma EventsOfCommit(w: World, events: seq<Event>, run: RunId, other: RunId)
    requires OneEvent(events, run)
    ensures EventsOf(w.outbox + events, other) == EventsOf(w.outbox, other) + if other == run then events else []
  {
    if events == [] {
      assert w.outbox + events == w.outbox;
    } else {
      assert events == [events[0]];
      EventsOfAppend(w.outbox, events[0], other);
    }
  }

  // ----------------------------------------------------------------- commits

  lemma CommitAdvances(w: World, a: Analysis, sent: set<Message>, tokens: set<Token>, scopes: set<ScopeId>, events: seq<Event>)
    requires a.dispatch.run in w.analyses ==> AnalysisAdvances(w.analyses[a.dispatch.run], a)
    ensures Advances(w, Commit(w, a, sent, tokens, scopes, events))
  {
    hide AnalysisAdvances;
    forall run | run in w.analyses ensures AnalysisAdvances(w.analyses[run], Commit(w, a, sent, tokens, scopes, events).analyses[run]) {
      if run != a.dispatch.run { SameAnalysis(w.analyses[run]); }
    }
  }

  lemma SameAnalysis(a: Analysis)
    ensures AnalysisAdvances(a, a)
  {
  }

  lemma QueueStays(cfg: Config, w: World, w': World)
    requires QueueOk(cfg, w) && Advances(w, w') && w'.queue == w.queue
    ensures QueueOk(cfg, w')
  {
    hide AnalysisAdvances;
    forall run | run in w'.queue.requests
      ensures run in w'.analyses && TaskOf(w'.analyses[run].dispatch) == TaskOf(w.analyses[run].dispatch)
    {
      SameTask(w.analyses[run], w'.analyses[run]);
    }
  }

  lemma SameTask(a: Analysis, a': Analysis)
    requires AnalysisAdvances(a, a')
    ensures TaskOf(a'.dispatch) == TaskOf(a.dispatch)
  {
  }

  /** An analysis a transaction does not touch stays sound. */
  lemma AnalysisStays(w: World, a: Analysis, sent: set<Message>, tokens: set<Token>, scopes: set<ScopeId>, events: seq<Event>,
                      other: RunId)
    requires other in w.analyses && other != a.dispatch.run && OneEvent(events, a.dispatch.run)
    requires AnalysisOk(w, other, w.analyses[other])
    ensures AnalysisOk(Commit(w, a, sent, tokens, scopes, events), other, w.analyses[other])
  {
    EventsOfCommit(w, events, a.dispatch.run, other);
  }

  lemma MessagesStay(w: World, w': World, sent: set<Message>)
    requires Advances(w, w') && w'.messages == w.messages + sent
    requires forall run :: run in w.analyses ==> AnalysisOk(w, run, w.analyses[run])
    requires forall run :: run in w'.analyses ==> AnalysisOk(w', run, w'.analyses[run])
    requires forall msg :: msg in w.messages ==> MessageOk(w, msg)
    requires forall msg :: msg in sent ==> MessageOk(w', msg)
    ensures forall msg :: msg in w'.messages ==> MessageOk(w', msg)
  {
    hide Joint, Backing, Recorded, MessageOk, AnalysisAdvances;
    forall run | run in w.analyses ensures run in w'.analyses && Joint(w.analyses[run]) && Joint(w'.analyses[run]) {
      assert AnalysisOk(w, run, w.analyses[run]) && AnalysisOk(w', run, w'.analyses[run]);
    }
    hide Advances, AnalysisOk;
    forall msg | msg in w'.messages ensures MessageOk(w', msg) {
      if msg in w.messages { MessageStays(w, w', msg); }
    }
  }

  lemma CommitKeeps(cfg: Config, w: World, a: Analysis, sent: set<Message>, tokens: set<Token>, scopes: set<ScopeId>,
                    events: seq<Event>)
    requires Inv(cfg, w) && OneEvent(events, a.dispatch.run)
    requires a.dispatch.run in w.analyses && AnalysisAdvances(w.analyses[a.dispatch.run], a) && Joint(a)
    requires Backing(Commit(w, a, sent, tokens, scopes, events), a)
    requires CaptureEvents(a.dispatch) == CaptureEvents(w.analyses[a.dispatch.run].dispatch) + events
    requires forall msg :: msg in sent ==> MessageOk(Commit(w, a, sent, tokens, scopes, events), msg)
    requires a.draft.Some? ==> w.analyses[a.dispatch.run].draft == a.draft || a.draft.value.id !in w.usedScopes
    ensures Inv(cfg, Commit(w, a, sent, tokens, scopes, events))
    ensures Advances(w, Commit(w, a, sent, tokens, scopes, events))
  {
    hide Joint, MessageOk, QueueOk, AnalysisAdvances, Advances, Backing, Recorded, Separate, CaptureEvents;
    var w' := Commit(w, a, sent, tokens, scopes, events);
    CommitAdvances(w, a, sent, tokens, scopes, events);
    QueueStays(cfg, w, w');
    SameTask(w.analyses[a.dispatch.run], a);
    DraftsUsed(w);
    hide AnalysisOk;
    AnalysesStay(w, a, sent, tokens, scopes, events);
    MessagesStay(w, w', sent);
    CommitSeparate(w, a, sent, tokens, scopes, events);
  }

  lemma DraftsUsed(w: World)
    requires forall run :: run in w.analyses ==> AnalysisOk(w, run, w.analyses[run])
    ensures forall run :: run in w.analyses && w.analyses[run].draft.Some? ==> w.analyses[run].draft.value.id in w.usedScopes
  {
    hide Joint, Recorded;
  }

  lemma AnalysesStay(w: World, a: Analysis, sent: set<Message>, tokens: set<Token>, scopes: set<ScopeId>, events: seq<Event>)
    requires OneEvent(events, a.dispatch.run) && Joint(a)
    requires forall run :: run in w.analyses ==> AnalysisOk(w, run, w.analyses[run])
    requires a.dispatch.run in w.analyses && TaskOf(a.dispatch) == TaskOf(w.analyses[a.dispatch.run].dispatch)
    requires Backing(Commit(w, a, sent, tokens, scopes, events), a)
    requires CaptureEvents(a.dispatch) == CaptureEvents(w.analyses[a.dispatch.run].dispatch) + events
    ensures var w' := Commit(w, a, sent, tokens, scopes, events);
            forall run :: run in w'.analyses ==> AnalysisOk(w', run, w'.analyses[run])
  {
    hide Joint, CaptureEvents, EventsOf;
    var w' := Commit(w, a, sent, tokens, scopes, events);
    EventsOfCommit(w, events, a.dispatch.run, a.dispatch.run);
    assert AnalysisOk(w', a.dispatch.run, a) by {
      assert AnalysisOk(w, a.dispatch.run, w.analyses[a.dispatch.run]);
      hide Backing;
    }
    hide AnalysisOk;
    forall run | run in w'.analyses ensures AnalysisOk(w', run, w'.analyses[run]) {
      if run != a.dispatch.run { AnalysisStays(w, a, sent, tokens, scopes, events, run); }
    }
  }

  lemma CommitSeparate(w: World, a: Analysis, sent: set<Message>, tokens: set<Token>, scopes: set<ScopeId>, events: seq<Event>)
    requires Separate(w) && a.dispatch.run in w.analyses
    requires TaskOf(a.dispatch) == TaskOf(w.analyses[a.dispatch.run].dispatch)
    requires forall run :: run in w.analyses && w.analyses[run].draft.Some? ==> w.analyses[run].draft.value.id in w.usedScopes
    requires a.draft.Some? ==> w.analyses[a.dispatch.run].draft == a.draft || a.draft.value.id !in w.usedScopes
    ensures Separate(Commit(w, a, sent, tokens, scopes, events))
  {
  }

  /** A transaction that appends no event. */
  lemma UpdateKeeps(cfg: Config, w: World, a: Analysis, sent: set<Message>, tokens: set<Token>)
    requires Inv(cfg, w)
    requires a.dispatch.run in w.analyses && AnalysisAdvances(w.analyses[a.dispatch.run], a) && Joint(a)
    requires Backing(Commit(w, a, sent, tokens, {}, []), a)
    requires CaptureEvents(a.dispatch) == CaptureEvents(w.analyses[a.dispatch.run].dispatch)
    requires forall msg :: msg in sent ==> MessageOk(Commit(w, a, sent, tokens, {}, []), msg)
    requires w.analyses[a.dispatch.run].draft == a.draft
    ensures Inv(cfg, Commit(w, a, sent, tokens, {}, [])) && Advances(w, Commit(w, a, sent, tokens, {}, []))
  {
    hide Inv, Joint, Backing, MessageOk, AnalysisAdvances, Advances;
    CommitKeeps(cfg, w, a, sent, tokens, {}, []);
  }
}
