/** What holds of a job's completion over every sequence of commands. */
module CompletionTheorems {
  import opened Common
  import opened JobRecords
  import opened CompletionWorld

  // --------------------------------------------------------------- invariant

  /** The check constraints of the completion_request table, and what a request points at. */
  predicate RequestOk(job: JobFile, request: Request) {
    && request.expiresAt > request.requestedAt
    && (request.status == Revoked <==> request.revocation.Some?)
    && (Decided(request) <==> request.decision.Some?)
    && request.submission < |job.submissions|
  }

  /** Both sides confirm the same thing, and the job is complete exactly when both have. */
  predicate Bilateral(job: JobFile) {
    && (job.status == Completed <==> Customer in job.confirmations && Manager in job.confirmations)
    && (job.status == Completed <==> job.completedAt.Some?)
    && Worker !in job.confirmations
    && (Customer in job.confirmations && Manager in job.confirmations ==>
          && job.confirmations[Customer].scope == job.confirmations[Manager].scope
          && job.confirmations[Customer].evidence == job.confirmations[Manager].evidence)
  }

  predicate IntentsMatch(retention: nat, job: JobFile) {
    if job.status == Completed && job.completedAt.Some? && Customer in job.confirmations then
      job.intents == map a | a in job.confirmations[Customer].evidence :: job.completedAt.value + retention
    else
      job.intents == map[]
  }

  ghost predicate RequestsOk(job: JobFile) {
    && (forall i :: 0 <= i < |job.requests| ==> RequestOk(job, job.requests[i]))
    && (forall i :: 0 <= i < |job.requests| && job.requests[i].status == Confirmed ==> job.status == Completed)
    && (forall i, j :: 0 <= i < j < |job.requests| ==>
          !(job.requests[i].status == Confirmed && job.requests[j].status == Confirmed))
    && (forall i :: i in job.reports <==> 0 <= i < |job.requests| && job.requests[i].status == IssueReported)
    && (forall i, j :: 0 <= i < j < |job.requests| ==>
          job.requests[i].reference != job.requests[j].reference && job.requests[i].id != job.requests[j].id)
    && (forall i, j :: 0 <= i < j < |job.submissions| ==>
          job.submissions[i].reference != job.submissions[j].reference && job.submissions[i].id != job.submissions[j].id)
  }

  ghost predicate Inv(retention: nat, job: JobFile) {
    && Bilateral(job)
    && IntentsMatch(retention, job)
    && RequestsOk(job)
    && (job.confirmations != map[] ==> IssuesResolved(job))
  }

  /** History is append-only, decisions are immutable, and no issue moves once a side has confirmed. */
  ghost predicate Advances(job: JobFile, job': JobFile) {
    && job.submissions <= job'.submissions
    && |job.requests| <= |job'.requests|
    && (forall i :: 0 <= i < |job.requests| ==>
          && (Decided(job.requests[i]) || job.requests[i].status == Revoked ==> job'.requests[i] == job.requests[i])
          && job'.requests[i].submission == job.requests[i].submission)
    && (forall r :: r in job.confirmations ==> r in job'.confirmations && job'.confirmations[r] == job.confirmations[r])
    && (job.status != Open ==> job'.status == job.status && job'.completedAt == job.completedAt && job'.intents == job.intents)
    && (job.confirmations != map[] ==> job'.issues == job.issues)
  }

  // ------------------------------------------------------- commands keep it

  /** Nothing but scopes, changes and the environment differs, and no issue moved after a confirmation. */
  predicate SameCompletion(job: JobFile, job': JobFile) {
    && job'.submissions == job.submissions && job'.requests == job.requests && job'.reports == job.reports
    && job'.confirmations == job.confirmations && job'.completedAt == job.completedAt && job'.intents == job.intents
    && (job'.status == job.status || (job.status == Open && job'.status == Canceled))
    && (job.confirmations != map[] ==> job'.issues == job.issues)
  }

  lemma SameCompletionKeeps(retention: nat, job: JobFile, job': JobFile)
    requires Inv(retention, job) && SameCompletion(job, job')
    ensures Inv(retention, job') && Advances(job, job')
  {
  }

  /** A field change needs an issue that is not resolved, and there is none after a confirmation. */
  lemma ChangesAreSame(retention: nat, w: World, action: Action)
    requires Inv(retention, w.job)
    requires !action.Submit? && !action.Ask? && !action.Revoke? && !action.Decide? && !action.Confirm?
    ensures SameCompletion(w.job, Apply(retention, w, action))
  {
    hide RequestsOk, IntentsMatch, Bilateral;
    if w.job.confirmations != map[] {
      assert forall i :: 0 <= i < |w.job.issues| ==> Resolved(w.job.issues[i]);
    }
  }

  lemma SubmitKeeps(retention: nat, w: World, action: Action)
    requires Inv(retention, w.job) && action.Submit?
    ensures Inv(retention, Apply(retention, w, action)) && Advances(w.job, Apply(retention, w, action))
  {
    hide AwaitsAnswer, TimesFit, UsableEvidence, IsCurrentScope;
  }

  lemma AskKeeps(retention: nat, w: World, action: Action)
    requires Inv(retention, w.job) && action.Ask?
    ensures Inv(retention, Apply(retention, w, action)) && Advances(w.job, Apply(retention, w, action))
  {
    hide Blocks, IsCurrentScope;
  }

  /** One live request gets its answer; the rest of the job may be completed with it. */
  predicate Answered(job: JobFile, job': JobFile, i: nat, request: Request) {
    && i < |job.requests|
    && job.requests[i].status == Requested
    && request.reference == job.requests[i].reference && request.id == job.requests[i].id
    && request.submission == job.requests[i].submission
    && RequestOk(job, request)
    && job'.submissions == job.submissions
    && job'.requests == job.requests[i := request]
    && job'.reports == (if request.status == IssueReported then job.reports + {i} else job.reports)
    && (request.status == Confirmed ==> job.status == Open && job'.status == Completed)
    && (request.status != Confirmed ==> job'.status == job.status)
  }

  lemma AnsweredRequestsOk(job: JobFile, job': JobFile, i: nat, request: Request)
    requires RequestsOk(job) && Answered(job, job', i, request)
    ensures RequestsOk(job')
  {
  }

  lemma RevokeKeeps(retention: nat, w: World, action: Action)
    requires Inv(retention, w.job) && action.Revoke?
    ensures Inv(retention, Apply(retention, w, action)) && Advances(w.job, Apply(retention, w, action))
  {
    hide RequestsOk;
    var job' := Apply(retention, w, action);
    if job' != w.job {
      assert RequestOk(w.job, w.job.requests[action.request]) by { RequestIn(w.job, action.request); }
      AnsweredRequestsOk(w.job, job', action.request, job'.requests[action.request]);
    }
  }

  lemma RequestIn(job: JobFile, i: nat)
    requires RequestsOk(job) && i < |job.requests|
    ensures RequestOk(job, job.requests[i])
  {
  }

  /** What a completing transaction leaves: both confirmations, equal, with the stored ones kept. */
  predicate Completes(retention: nat, job: JobFile, job': JobFile, scope: ScopeIndex, evidence: set<AssetId>) {
    && job.status == Open && job'.status == Completed && job'.completedAt.Some?
    && job'.issues == job.issues && IssuesResolved(job)
    && job'.confirmations.Keys == {Customer, Manager}
    && (forall r :: r in job.confirmations ==> r in job'.confirmations && job'.confirmations[r] == job.confirmations[r])
    && (forall r :: r in job'.confirmations ==>
          job'.confirmations[r].scope == scope && job'.confirmations[r].evidence == evidence)
    && job'.intents == job.intents + map a | a in evidence && a !in job.intents :: job'.completedAt.value + retention
  }

  lemma CompletesBilateral(retention: nat, job: JobFile, job': JobFile, scope: ScopeIndex, evidence: set<AssetId>)
    requires Bilateral(job) && IntentsMatch(retention, job) && Completes(retention, job, job', scope, evidence)
    ensures Bilateral(job') && IntentsMatch(retention, job') && job.intents == map[]
  {
  }

  lemma EnsuredConfirmation(confirmations: map<Role, Confirmation>, role: Role, wanted: Confirmation)
    ensures var r := EnsureConfirmation(confirmations, role, wanted);
            r.Ok? ==>
              && r.value.Keys == confirmations.Keys + {role}
              && r.value[role].scope == wanted.scope && r.value[role].evidence == wanted.evidence
              && (forall other :: other in confirmations ==> r.value[other] == confirmations[other])
  {
  }

  lemma BothSides(confirmations: map<Role, Confirmation>)
    requires Worker !in confirmations && Customer in confirmations && Manager in confirmations
    ensures confirmations.Keys == {Customer, Manager}
  {
    forall r | r in confirmations.Keys ensures r in {Customer, Manager} {
      assert r.Customer? || r.Manager? || r.Worker?;
    }
  }

  lemma AcceptEffect(retention: nat, job: JobFile, i: nat, submission: Submission, decision: Decision, now: Time)
    requires Bilateral(job) && !Closed(job) && i < |job.requests|
    ensures var r := AcceptRequest(job, i, submission, decision, retention, now);
            r.Ok? ==>
              && r.value.submissions == job.submissions && r.value.reports == job.reports
              && r.value.requests == job.requests[i := job.requests[i].(status := Confirmed, decision := Some(decision))]
              && Completes(retention, job, r.value, submission.scope, submission.evidence)
  {
    hide IssuesResolved, EvidenceReady, EnsureConfirmation;
    var manager := Confirmation(job.requests[i].actor, submission.scope, submission.evidence, now);
    var customer := Confirmation(decision.actor, submission.scope, submission.evidence, now);
    EnsuredConfirmation(job.confirmations, Manager, manager);
    var one := EnsureConfirmation(job.confirmations, Manager, manager);
    if one.Ok? {
      EnsuredConfirmation(one.value, Customer, customer);
      var both := EnsureConfirmation(one.value, Customer, customer);
      if both.Ok? { BothSides(both.value); }
    }
  }

  lemma DecisionEffect(retention: nat, job: JobFile, participant: ParticipantId, i: nat, confirm: bool, hash: string, now: Time)
    requires Bilateral(job) && RequestsOk(job)
    ensures var r := DecideRequest(job, participant, i, confirm, hash, retention, now);
            r.Ok? && r.value != job ==>
              && i < |job.requests| && |r.value.requests| == |job.requests|
              && Answered(job, r.value, i, r.value.requests[i])
              && LatestSubmission(job.submissions) == Some(job.requests[i].submission)
              && Live(job.requests[i], now) && LatestRequest(job.requests) == Some(i)
              && Decided(r.value.requests[i])
              && (if confirm then
                    var s := job.submissions[job.requests[i].submission];
                    Completes(retention, job, r.value, s.scope, s.evidence)
                  else
                    && r.value.confirmations == job.confirmations && r.value.completedAt == job.completedAt
                    && r.value.intents == job.intents && r.value.issues == job.issues && r.value.status == job.status)
  {
    var r := DecideRequest(job, participant, i, confirm, hash, retention, now);
    if r.Ok? && r.value != job {
      RequestIn(job, i);
      if confirm {
        AcceptEffect(retention, job, i, job.submissions[job.requests[i].submission], Decision(participant, hash, now), now);
      }
      hide RequestsOk, LatestRequest, LatestSubmission, IsCurrentScope, AcceptRequest, Completes, Bilateral;
    }
  }

  lemma DecideKeeps(retention: nat, w: World, action: Action)
    requires Inv(retention, w.job) && action.Decide?
    ensures Inv(retention, Apply(retention, w, action)) && Advances(w.job, Apply(retention, w, action))
  {
    hide RequestsOk, DecideRequest, IsCurrentScope, LatestRequest, LatestSubmission, IssuesResolved;
    var job' := Apply(retention, w, action);
    var i := action.request;
    DecisionEffect(retention, w.job, action.participant, i, action.confirm, action.hash, w.now);
    if job' != w.job {
      AnsweredRequestsOk(w.job, job', i, job'.requests[i]);
      if action.confirm {
        var s := w.job.submissions[w.job.requests[i].submission];
        CompletesBilateral(retention, w.job, job', s.scope, s.evidence);
        SameIssues(w.job, job');
      } else {
        SameIssues(w.job, job');
      }
    }
  }

  lemma SameIssues(job: JobFile, job': JobFile)
    requires job'.issues == job.issues
    ensures IssuesResolved(job') == IssuesResolved(job)
  {
  }

  lemma ConfirmEffect(retention: nat, job: JobFile, participant: ParticipantId, role: Role, scope: ScopeIndex,
                      evidence: set<AssetId>, now: Time)
    requires Bilateral(job)
    ensures var r := ConfirmCompletion(job, participant, role, scope, evidence, retention, now);
            r.Ok? ==>
              && IssuesResolved(job) && role != Worker && role !in job.confirmations && job.status == Open
              && (if role == Customer then Manager else Customer) in job.confirmations ==>
                   Completes(retention, job, r.value, scope, evidence)
    ensures var r := ConfirmCompletion(job, participant, role, scope, evidence, retention, now);
            r.Ok? ==>
              && IssuesResolved(job) && role != Worker && role !in job.confirmations
              && r.value.submissions == job.submissions && r.value.requests == job.requests
              && r.value.reports == job.reports && r.value.issues == job.issues
              && ((if role == Customer then Manager else Customer) !in job.confirmations ==>
                    r.value == job.(confirmations := job.confirmations[role := Confirmation(participant, scope, evidence, now)]))
  {
    hide IsCurrentScope, UnderChange, IssuesResolved;
    var r := ConfirmCompletion(job, participant, role, scope, evidence, retention, now);
    if r.Ok? && Customer in r.value.confirmations && Manager in r.value.confirmations {
      BothSides(r.value.confirmations);
    }
  }

  lemma ConfirmKeeps(retention: nat, w: World, action: Action)
    requires Inv(retention, w.job) && action.Confirm?
    ensures Inv(retention, Apply(retention, w, action)) && Advances(w.job, Apply(retention, w, action))
  {
    var job' := Apply(retention, w, action);
    ConfirmEffect(retention, w.job, action.participant, action.role, action.scope, action.evidence, w.now);
    hide ConfirmCompletion;
    if job' != w.job {
      assert job'.status == Completed || job'.status == w.job.status;
      RequestsStay(w.job, job');
      hide RequestsOk;
      SameIssues(w.job, job');
      if (if action.role == Customer then Manager else Customer) in w.job.confirmations {
        CompletesBilateral(retention, w.job, job', action.scope, action.evidence);
      }
    }
  }

  lemma RequestsStay(job: JobFile, job': JobFile)
    requires RequestsOk(job) && job'.submissions == job.submissions && job'.requests == job.requests
    requires job'.reports == job.reports && (job.status == Completed ==> job'.status == Completed)
    ensures RequestsOk(job')
  {
  }

  lemma StepKeeps(retention: nat, w: World, action: Action)
    requires Inv(retention, w.job)
    ensures Inv(retention, Step(retention, w, action).job) && Advances(w.job, Step(retention, w, action).job)
  {
    hide Inv, Advances, Apply;
    match action {
      case Submit(_, _, _) => SubmitKeeps(retention, w, action);
      case Ask(_, _, _, _, _) => AskKeeps(retention, w, action);
      case Revoke(_, _, _) => RevokeKeeps(retention, w, action);
      case Decide(_, _, _, _) => DecideKeeps(retention, w, action);
      case Confirm(_, _, _, _) => ConfirmKeeps(retention, w, action);
      case _ =>
        ChangesAreSame(retention, w, action);
        SameCompletionKeeps(retention, w.job, Apply(retention, w, action));
    }
  }

  lemma AdvancesTransitive(job: JobFile, job1: JobFile, job2: JobFile)
    requires Advances(job, job1) && Advances(job1, job2)
    ensures Advances(job, job2)
  {
  }

  lemma {:induction false} RunKeeps(retention: nat, w: World, actions: seq<Action>)
    requires Inv(retention, w.job)
    ensures Inv(retention, Run(retention, w, actions).job) && Advances(w.job, Run(retention, w, actions).job)
    decreases |actions|
  {
    hide Inv, Apply;
    if actions != [] {
      StepKeeps(retention, w, actions[0]);
      RunKeeps(retention, Step(retention, w, actions[0]), actions[1..]);
      AdvancesTransitive(w.job, Step(retention, w, actions[0]).job, Run(retention, w, actions).job);
    }
  }

  lemma Reachable(retention: nat, actions: seq<Action>)
    ensures Inv(retention, After(retention, actions).job)
  {
    RunKeeps(retention, INITIAL, actions);
  }

  // ------------------------------------------------------------ every run

  /** A job is complete exactly when both sides have confirmed, and they confirmed the same scope and evidence. */
  lemma CompleteIffBothConfirmed(retention: nat, actions: seq<Action>)
    ensures var job := After(retention, actions).job;
            && (job.status == Completed <==> Customer in job.confirmations && Manager in job.confirmations)
            && (job.status == Completed <==> job.completedAt.Some?)
            && (job.status == Completed ==>
                  && job.confirmations.Keys == {Customer, Manager}
                  && job.confirmations[Customer].scope == job.confirmations[Manager].scope
                  && job.confirmations[Customer].evidence == job.confirmations[Manager].evidence)
  {
    Reachable(retention, actions);
    var job := After(retention, actions).job;
    if job.status == Completed {
      BothSides(job.confirmations);
    }
  }

  /** Completion records one deletion intent for each evidence asset, due one retention period later, and no other. */
  lemma CompletionIntents(retention: nat, actions: seq<Action>)
    ensures var job := After(retention, actions).job;
            if job.status == Completed then
              && job.completedAt.Some? && Customer in job.confirmations
              && job.intents == map a | a in job.confirmations[Customer].evidence :: job.completedAt.value + retention
            else job.intents == map[]
  {
    Reachable(retention, actions);
  }

  /** From the first confirmation on, every field issue is resolved, none is added, and none changes. */
  lemma ConfirmationSettlesIssues(retention: nat, actions: seq<Action>, more: seq<Action>)
    requires After(retention, actions).job.confirmations != map[]
    ensures var job := After(retention, actions).job;
            var job' := Run(retention, After(retention, actions), more).job;
            IssuesResolved(job) && job'.issues == job.issues
  {
    Reachable(retention, actions);
    RunKeeps(retention, After(retention, actions), more);
  }

  /** A completed job stays as it was completed: no submission is lost or changed, no decision altered. */
  lemma CompletedIsFinal(retention: nat, actions: seq<Action>, more: seq<Action>)
    requires After(retention, actions).job.status == Completed
    ensures var job := After(retention, actions).job;
            var job' := Run(retention, After(retention, actions), more).job;
            && job'.status == Completed && job'.completedAt == job.completedAt && job'.intents == job.intents
            && (forall r :: r in job.confirmations ==> r in job'.confirmations && job'.confirmations[r] == job.confirmations[r])
  {
    Reachable(retention, actions);
    RunKeeps(retention, After(retention, actions), more);
  }

  /** Answers are immutable: a decided or revoked request never changes again, and at most one is ever confirmed. */
  lemma AnswersStand(retention: nat, actions: seq<Action>, more: seq<Action>, i: nat, j: nat)
    requires var job := After(retention, actions).job; i < |job.requests| && j < |job.requests| && i != j
    ensures var job := After(retention, actions).job;
            var job' := Run(retention, After(retention, actions), more).job;
            && (Decided(job.requests[i]) || job.requests[i].status == Revoked ==>
                  i < |job'.requests| && job'.requests[i] == job.requests[i])
            && (job.requests[i].status == Confirmed ==> job.status == Completed && job.requests[j].status != Confirmed)
            && (i in job.reports <==> job.requests[i].status == IssueReported)
  {
    Reachable(retention, actions);
    RunKeeps(retention, After(retention, actions), more);
  }
}
