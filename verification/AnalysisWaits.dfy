/**
 How long a dispatch lease and a back-off last: over every run a lease excludes every
 other dispatcher until it ends and no longer, and a refused intent is left alone for
 exactly its back-off.
 */
module AnalysisWaits {
  import opened Common
  import opened Ports
  import opened AnalysisContracts
  import opened AnalysisRows
  import opened AnalysisWorld
  import opened AnalysisInvariant
  import opened AnalysisSteps
  import opened AnalysisActions
  import opened AnalysisTheorems
  import opened AnalysisCommands

  /** An intent gets leased, or counts another attempt, by a claim only, and pending again by a queue answer only. */
  predicate Settles(row: Dispatch, row': Dispatch, action: Action) {
    && ((row'.status == Dispatching && row' != row) || row'.attempts != row.attempts ==>
          action.ClaimCapture? && action.run == row.run)
    && (row'.status == Pending && row' != row ==> action.FinalizeClaim? && row.status == Dispatching)
  }

  ghost predicate RowSettles(w: World, w': World, run: RunId, action: Action) {
    run in w.analyses ==> run in w'.analyses && Settles(w.analyses[run].dispatch, w'.analyses[run].dispatch, action)
  }

  /** Only the analysis that a transaction writes has to be looked at. */
  lemma FrameSettles(w: World, w': World, a: Analysis, run: RunId, action: Action)
    requires a.dispatch.run in w.analyses && w'.analyses == w.analyses[a.dispatch.run := a]
    requires Settles(w.analyses[a.dispatch.run].dispatch, a.dispatch, action)
    ensures RowSettles(w, w', run, action)
  {
    hide Settles;
    SameSettles(w, w, run, action);
  }

  lemma SameSettles(w: World, w': World, run: RunId, action: Action)
    requires w'.analyses == w.analyses
    ensures RowSettles(w, w', run, action)
  {
  }

  lemma AnswerSettles(cfg: Config, w: World, claim: Claim, outcome: DispatchOutcome, run: RunId)
    requires Inv(cfg, w)
    ensures RowSettles(w, Step(cfg, w, FinalizeClaim(claim, outcome)), run, FinalizeClaim(claim, outcome))
  {
    hide Inv, RowSettles, WaitAfter;
    if Reported(claim, outcome) in w.messages {
      FinalizeEffect(cfg, w, claim, outcome);
      AnalysisIn(cfg, w, claim.task.run);
      hide Step, EventsOf;
      var w' := Step(cfg, w, FinalizeClaim(claim, outcome));
      FrameSettles(w, w', w'.analyses[claim.task.run], run, FinalizeClaim(claim, outcome));
    } else {
      SameSettles(w, w, run, FinalizeClaim(claim, outcome));
    }
  }

  lemma DeliverySettles(cfg: Config, w: World, action: Action, run: RunId)
    requires Inv(cfg, w) && (action.StartCapture? || action.FinishCapture? || action.FailCapture?)
    ensures RowSettles(w, Step(cfg, w, action), run, action)
  {
    hide Inv, EventsOf, Covers, Merged, Joint, Backing;
    if action.task.run in w.analyses { AnalysisIn(cfg, w, action.task.run); }
    hide AnalysisOk;
  }

  lemma StepSettles(cfg: Config, w: World, action: Action, run: RunId)
    requires Inv(cfg, w)
    ensures RowSettles(w, Step(cfg, w, action), run, action)
  {
    match action {
      case FinalizeClaim(claim, outcome) => hide Step; AnswerSettles(cfg, w, claim, outcome, run);
      case StartCapture(_) => hide Step; DeliverySettles(cfg, w, action, run);
      case FinishCapture(_, _) => hide Step; DeliverySettles(cfg, w, action, run);
      case FailCapture(_, _) => hide Step; DeliverySettles(cfg, w, action, run);
      case _ => OtherSettles(cfg, w, action, run);
    }
  }

  lemma ClaimSettles(cfg: Config, w: World, claimed: RunId, token: Token, run: RunId)
    requires Inv(cfg, w)
    ensures RowSettles(w, DoClaim(cfg, w, claimed, token), run, ClaimCapture(claimed, token))
  {
    if claimed in w.analyses { AnalysisIn(cfg, w, claimed); }
    hide Inv, Joint, Backing, Recorded, Due;
  }

  lemma SameDispatch(w: World, w': World, run: RunId, action: Action)
    requires run in w.analyses ==> run in w'.analyses && w'.analyses[run].dispatch == w.analyses[run].dispatch
    ensures RowSettles(w, w', run, action)
  {
  }

  /** A delivery that works on the provider run leaves the intent alone. */
  lemma RunActionKeepsIntent(cfg: Config, w: World, action: Action, run: RunId)
    requires Inv(cfg, w) && run in w.analyses
    requires action.OpenRun? || action.RecordResult? || action.RecordFailure? || action.PrepareRetry?
    ensures var w' := Step(cfg, w, action); run in w'.analyses && w'.analyses[run].dispatch == w.analyses[run].dispatch
  {
    if action.task.run in w.analyses { AnalysisIn(cfg, w, action.task.run); }
    hide Inv, Joint, Backing, Recorded, StartedRun, CompletedRun, FailedRun, PreparedRetry;
  }

  lemma OtherSettles(cfg: Config, w: World, action: Action, run: RunId)
    requires Inv(cfg, w) && !action.FinalizeClaim? && !action.StartCapture? && !action.FinishCapture? && !action.FailCapture?
    ensures RowSettles(w, Step(cfg, w, action), run, action)
  {
    hide Inv, RowSettles;
    match action {
      case ClaimCapture(claimed, token) => hide DoClaim; ClaimSettles(cfg, w, claimed, token, run);
      case Submit(_, _, _, _, _, _, _) => hide Submitted; SameDispatch(w, Step(cfg, w, action), run, action);
      case Tick(_) => SameDispatch(w, Step(cfg, w, action), run, action);
      case EnqueueClaim(_, _) => hide Enqueue; SameDispatch(w, Step(cfg, w, action), run, action);
      case LookUpInputs(_, _) => SameDispatch(w, Step(cfg, w, action), run, action);
      case ReadRun(_) => SameDispatch(w, Step(cfg, w, action), run, action);
      case CallProvider(_, _) => SameDispatch(w, Step(cfg, w, action), run, action);
      case _ =>
        hide Step;
        if run in w.analyses { RunActionKeepsIntent(cfg, w, action, run); }
        SameDispatch(w, Step(cfg, w, action), run, action);
    }
  }

  lemma RowOf(cfg: Config, w: World, run: RunId)
    requires Inv(cfg, w) && run in w.analyses
    ensures w.analyses[run].dispatch.run == run
    ensures w.analyses[run].dispatch.token.Some? <==> w.analyses[run].dispatch.status == Dispatching
    ensures w.analyses[run].dispatch.status == Dispatching ==> w.analyses[run].dispatch.attempts >= 1
  {
    hide Inv;
    AnalysisIn(cfg, w, run);
  }

  lemma NowGrows(cfg: Config, w: World, action: Action)
    ensures Step(cfg, w, action).now >= w.now && w.usedTokens <= Step(cfg, w, action).usedTokens
  {
  }

  // ------------------------------------------------------------------- lease

  ghost predicate Leased(w: World, run: RunId, token: Token, lease: nat, until: Time) {
    && run in w.analyses && w.now + lease >= until && token in w.usedTokens
    && var row := w.analyses[run].dispatch;
       && (row.status == Dispatching ==> row.lockedUntil.Some? && row.lockedUntil.value >= until)
       && (row.token == Some(token) ==> row.status == Dispatching && row.lockedUntil == Some(until))
  }

  lemma StepLeased(cfg: Config, w: World, action: Action, run: RunId, token: Token, until: Time)
    requires Inv(cfg, w) && Leased(w, run, token, cfg.leaseSeconds, until)
    ensures Leased(Step(cfg, w, action), run, token, cfg.leaseSeconds, until)
  {
    hide Inv, Step, Advances;
    StepSettles(cfg, w, action, run);
    StepKeeps(cfg, w, action);
    NowGrows(cfg, w, action);
    RowOf(cfg, w, run);
    RowOf(cfg, Step(cfg, w, action), run);
    if action.ClaimCapture? { ClaimEffect(cfg, w, action.run, action.token); }
  }

  lemma {:induction false} RunLeased(cfg: Config, w: World, more: seq<Action>, run: RunId, token: Token, until: Time)
    requires Inv(cfg, w) && Leased(w, run, token, cfg.leaseSeconds, until)
    ensures Inv(cfg, Run(cfg, w, more)) && Leased(Run(cfg, w, more), run, token, cfg.leaseSeconds, until)
    decreases |more|
  {
    hide Inv, Step, Leased;
    if more != [] {
      StepLeased(cfg, w, more[0], run, token, until);
      StepKeeps(cfg, w, more[0]);
      RunLeased(cfg, Step(cfg, w, more[0]), more[1..], run, token, until);
    }
  }

  lemma LeaseBegins(cfg: Config, w: World, run: RunId, token: Token)
    requires Inv(cfg, w) && Step(cfg, w, ClaimCapture(run, token)) != w
    ensures var w' := Step(cfg, w, ClaimCapture(run, token));
            Inv(cfg, w') && Leased(w', run, token, cfg.leaseSeconds, w.now + cfg.leaseSeconds)
  {
    hide Inv, Step, Advances;
    ClaimEffect(cfg, w, run, token);
    StepKeeps(cfg, w, ClaimCapture(run, token));
  }

  /** Once a claim took effect, no other claim does while the intent is leased and the lease time is not over. */
  lemma LeaseExcludes(cfg: Config, actions: seq<Action>, more: seq<Action>, run: RunId, token: Token, other: Token)
    requires var w := After(cfg, actions); Step(cfg, w, ClaimCapture(run, token)) != w
    requires var w := After(cfg, actions);
             var w' := Run(cfg, Step(cfg, w, ClaimCapture(run, token)), more);
             run in w'.analyses && w'.analyses[run].dispatch.status == Dispatching && w'.now < w.now + cfg.leaseSeconds
    ensures var w' := Run(cfg, Step(cfg, After(cfg, actions), ClaimCapture(run, token)), more);
            Step(cfg, w', ClaimCapture(run, other)) == w'
  {
    hide Inv, Step, After;
    Reachable(cfg, actions);
    var w := After(cfg, actions);
    LeaseBegins(cfg, w, run, token);
    RunLeased(cfg, Step(cfg, w, ClaimCapture(run, token)), more, run, token, w.now + cfg.leaseSeconds);
    ClaimEffect(cfg, Run(cfg, Step(cfg, w, ClaimCapture(run, token)), more), run, other);
  }

  /** While the intent still has that token, another claim takes effect exactly from the end of the lease time on. */
  lemma LeaseEndsIff(cfg: Config, actions: seq<Action>, more: seq<Action>, run: RunId, token: Token, other: Token)
    requires var w := After(cfg, actions); Step(cfg, w, ClaimCapture(run, token)) != w
    requires var w' := Run(cfg, Step(cfg, After(cfg, actions), ClaimCapture(run, token)), more);
             run in w'.analyses && w'.analyses[run].dispatch.token == Some(token) && other !in w'.usedTokens
    ensures var w := After(cfg, actions);
            var w' := Run(cfg, Step(cfg, w, ClaimCapture(run, token)), more);
            Step(cfg, w', ClaimCapture(run, other)) != w' <==> w'.now >= w.now + cfg.leaseSeconds
  {
    hide Inv, Step, After;
    Reachable(cfg, actions);
    var w := After(cfg, actions);
    LeaseBegins(cfg, w, run, token);
    RunLeased(cfg, Step(cfg, w, ClaimCapture(run, token)), more, run, token, w.now + cfg.leaseSeconds);
    ClaimEffect(cfg, Run(cfg, Step(cfg, w, ClaimCapture(run, token)), more), run, other);
  }

  // ---------------------------------------------------------------- back-off

  /** The intent waits until then, unless a worker has it already; only then it counts another attempt. */
  ghost predicate Waiting(w: World, run: RunId, attempts: nat, until: Time) {
    && run in w.analyses
    && var row := w.analyses[run].dispatch;
       && row.attempts >= attempts
       && (row.attempts == attempts ==> Rank(row.status) >= Rank(Queued) || (row.status == Pending && row.scheduledAt == until))
       && (w.now < until ==> row.attempts == attempts)
  }

  lemma StepWaiting(cfg: Config, w: World, action: Action, run: RunId, attempts: nat, until: Time)
    requires Inv(cfg, w) && Waiting(w, run, attempts, until)
    ensures Waiting(Step(cfg, w, action), run, attempts, until)
  {
    hide Inv, Step, Advances;
    StepSettles(cfg, w, action, run);
    StepKeeps(cfg, w, action);
    NowGrows(cfg, w, action);
    RankGrows(w, Step(cfg, w, action), run);
    RowOf(cfg, w, run);
    if action.ClaimCapture? { ClaimEffect(cfg, w, action.run, action.token); }
  }

  lemma RankGrows(w: World, w': World, run: RunId)
    requires Advances(w, w') && run in w.analyses
    ensures run in w'.analyses && Rank(w.analyses[run].dispatch.status) <= Rank(w'.analyses[run].dispatch.status)
  {
  }

  lemma {:induction false} RunWaiting(cfg: Config, w: World, more: seq<Action>, run: RunId, attempts: nat, until: Time)
    requires Inv(cfg, w) && Waiting(w, run, attempts, until)
    ensures Inv(cfg, Run(cfg, w, more)) && Waiting(Run(cfg, w, more), run, attempts, until)
    decreases |more|
  {
    hide Inv, Step, Waiting;
    if more != [] {
      StepWaiting(cfg, w, more[0], run, attempts, until);
      StepKeeps(cfg, w, more[0]);
      RunWaiting(cfg, Step(cfg, w, more[0]), more[1..], run, attempts, until);
    }
  }

  /** A refusal under the current lease. */
  predicate RefusesLease(w: World, claim: Claim, code: ErrorCode) {
    && Reported(claim, Refused(code)) in w.messages
    && claim.task.run in w.analyses && w.analyses[claim.task.run].dispatch.token == Some(claim.token)
  }

  lemma WaitBegins(cfg: Config, w: World, claim: Claim, code: ErrorCode)
    requires Inv(cfg, w) && RefusesLease(w, claim, code)
    ensures var w' := Step(cfg, w, FinalizeClaim(claim, Refused(code)));
            var n := w.analyses[claim.task.run].dispatch.attempts;
            && Inv(cfg, w') && Waiting(w', claim.task.run, n, w.now + WaitAfter(n))
            && w'.analyses[claim.task.run].dispatch.status == Pending
  {
    hide Inv, Step, Advances;
    FinalizeEffect(cfg, w, claim, Refused(code));
    StepKeeps(cfg, w, FinalizeClaim(claim, Refused(code)));
  }

  /**
   A refused intent is not dispatched during its back-off, whatever happens: 2 seconds after the first refusal, 4 after
   the second, and so on up to 256 from the eighth on.
   */
  lemma BackoffExcludes(cfg: Config, actions: seq<Action>, more: seq<Action>, claim: Claim, code: ErrorCode, token: Token)
    requires RefusesLease(After(cfg, actions), claim, code)
    requires var w := After(cfg, actions);
             Run(cfg, Step(cfg, w, FinalizeClaim(claim, Refused(code))), more).now
             < w.now + WaitAfter(w.analyses[claim.task.run].dispatch.attempts)
    ensures var w' := Run(cfg, Step(cfg, After(cfg, actions), FinalizeClaim(claim, Refused(code))), more);
            Step(cfg, w', ClaimCapture(claim.task.run, token)) == w'
  {
    hide Inv, Step, After, WaitAfter;
    Reachable(cfg, actions);
    var w := After(cfg, actions);
    var n := w.analyses[claim.task.run].dispatch.attempts;
    WaitBegins(cfg, w, claim, code);
    var w1 := Step(cfg, w, FinalizeClaim(claim, Refused(code)));
    RunWaiting(cfg, w1, more, claim.task.run, n, w.now + WaitAfter(n));
    ClaimEffect(cfg, Run(cfg, w1, more), claim.task.run, token);
  }

  /** And it waits no longer: while it is pending in that attempt, a claim with an unused token takes effect exactly from then on. */
  lemma BackoffEndsIff(cfg: Config, actions: seq<Action>, more: seq<Action>, claim: Claim, code: ErrorCode, token: Token)
    requires RefusesLease(After(cfg, actions), claim, code)
    requires var w := After(cfg, actions);
             var w' := Run(cfg, Step(cfg, w, FinalizeClaim(claim, Refused(code))), more);
             && claim.task.run in w'.analyses && token !in w'.usedTokens
             && w'.analyses[claim.task.run].dispatch.status == Pending
             && w'.analyses[claim.task.run].dispatch.attempts == w.analyses[claim.task.run].dispatch.attempts
    ensures var w := After(cfg, actions);
            var w' := Run(cfg, Step(cfg, w, FinalizeClaim(claim, Refused(code))), more);
            Step(cfg, w', ClaimCapture(claim.task.run, token)) != w' <==>
              w'.now >= w.now + WaitAfter(w.analyses[claim.task.run].dispatch.attempts)
  {
    hide Inv, Step, After, WaitAfter;
    Reachable(cfg, actions);
    var w := After(cfg, actions);
    var n := w.analyses[claim.task.run].dispatch.attempts;
    WaitBegins(cfg, w, claim, code);
    var w1 := Step(cfg, w, FinalizeClaim(claim, Refused(code)));
    RunWaiting(cfg, w1, more, claim.task.run, n, w.now + WaitAfter(n));
    ClaimEffect(cfg, Run(cfg, w1, more), claim.task.run, token);
  }
}
