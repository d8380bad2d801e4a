/**
 When each completion and field-change command has an effect, and which one, in terms
 of the stored columns and of plain numbers: what a participant has to know to be
 accepted, and what an acceptance means.
 */
module CompletionCommands {
  import opened Common
  import opened JobRecords
  import opened CompletionWorld
  import opened CompletionTheorems
  import opened CompletionLifecycle

  predicate Is(job: JobFile, p: ParticipantId, role: Role) {
    p in job.participants && job.participants[p] == role
  }

  /** The job is neither completed nor canceled. */
  predicate InProgress(job: JobFile) {
    job.status != Completed && job.status != Canceled
  }

  /** Every field issue has a proposal that was approved or rejected. */
  predicate Settled(job: JobFile) {
    forall k :: 0 <= k < |job.issues| ==>
      && job.issues[k].proposal.Some?
      && (job.issues[k].proposal.value.status == Approved || job.issues[k].proposal.value.status == Rejected)
  }

  /** The scope is the last one of the chain, and locked. */
  predicate CurrentAndLocked(job: JobFile, scope: ScopeIndex) {
    |job.scopes| > 0 && scope == |job.scopes| - 1 && job.scopes[|job.scopes| - 1].locked
  }

  lemma SettledIff(job: JobFile)
    ensures IssuesResolved(job) <==> Settled(job)
  {
    if IssuesResolved(job) {
      assert forall k :: 0 <= k < |job.issues| ==> job.issues[k] in job.issues;
    }
  }

  // -------------------------------------------------------------- submission

  /** Nothing was submitted yet, or the newest submission was asked about and sent back, withdrawn, or left to expire. */
  predicate Unanswered(job: JobFile, now: Time) {
    var s, r := LatestSubmission(job.submissions), LatestRequest(job.requests);
    s.Some? && !(r.Some? && job.requests[r.value].submission == s.value
                 && (|| job.requests[r.value].status in {JobRecords.Revoked, IssueReported}
                     || (job.requests[r.value].status == Requested && job.requests[r.value].expiresAt <= now)))
  }

  /** The stated times lie between the check-in and five minutes from now; shifts may begin one day before the check-in. */
  predicate TimesAgree(command: SubmitCommand, checkIn: Time, now: Time) {
    && checkIn <= command.endedAt <= now + 300
    && checkIn <= command.onsiteAt <= now + 300
    && forall worker :: worker in command.shifts ==>
         command.shifts[worker].startedAt >= checkIn - 86400 && command.shifts[worker].endedAt <= command.endedAt
  }

  /** Every photo is the sender's own, pinned, and uploaded or ready. */
  predicate OwnEvidence(job: JobFile, p: ParticipantId, evidence: set<AssetId>) {
    forall a :: a in evidence ==>
      a in job.assets && job.assets[a].actor == p && job.assets[a].pinned
      && (job.assets[a].state == Uploaded || job.assets[a].state == Ready)
  }

  /** The sender is the checked-in lead of the plan for the current scope, and names its checks and its workers. */
  predicate FollowsPlan(job: JobFile, p: ParticipantId, command: SubmitCommand) {
    && job.setup.Some? && job.setup.value.plan.Some?
    && var plan := job.setup.value.plan.value;
       && plan.id == command.plan && plan.lead == Some(p) && p in plan.checkIns
       && plan.scope == command.scope && CurrentAndLocked(job, command.scope)
       && command.checkKeys == job.setup.value.checkKeys && command.shifts.Keys == plan.workers
  }

  predicate NewReference(rows: seq<Submission>, reference: nat) {
    forall k :: 0 <= k < |rows| ==> rows[k].reference != reference
  }

  predicate MaySubmit(w: World, p: ParticipantId, command: SubmitCommand) {
    && Is(w.job, p, Worker) && InProgress(w.job) && Settled(w.job) && !Unanswered(w.job, w.now)
    && FollowsPlan(w.job, p, command)
    && TimesAgree(command, w.job.setup.value.plan.value.checkIns[p], w.now)
    && OwnEvidence(w.job, p, command.evidence)
  }

  lemma TimesAgreeIff(command: SubmitCommand, checkIn: Time, now: Time)
    ensures TimesFit(command, checkIn, now) <==> TimesAgree(command, checkIn, now)
  {
  }

  lemma UnansweredIff(retention: nat, job: JobFile, now: Time)
    ensures AwaitsAnswer(job, now) <==> Unanswered(job, now)
  {
  }

  lemma SubmitEffect(retention: nat, w: World, p: ParticipantId, command: SubmitCommand, id: nat)
    requires FreshSubmission(w.job, id) && NewReference(w.job.submissions, command.reference)
    ensures Step(retention, w, Submit(p, command, id)) ==
            if MaySubmit(w, p, command) then
              World(w.now, w.job.(submissions := w.job.submissions +
                [Submission(id, command.reference, command.hash, p, command.scope, command.evidence, w.now)]))
            else w
  {
    SettledIff(w.job);
    UnansweredIff(retention, w.job, w.now);
    if FollowsPlan(w.job, p, command) || (w.job.setup.Some? && w.job.setup.value.plan.Some? && p in w.job.setup.value.plan.value.checkIns) {
      TimesAgreeIff(command, w.job.setup.value.plan.value.checkIns[p], w.now);
    }
    hide TimesFit, TimesAgree, AwaitsAnswer, Unanswered, IssuesResolved, Settled;
  }

  /**
   A submission under a new reference adds a row exactly when its sender may submit, and then exactly that row.
   */
  lemma SubmissionAcceptedIff(retention: nat, actions: seq<Action>, p: ParticipantId, command: SubmitCommand, id: nat)
    requires var job := After(retention, actions).job;
             FreshSubmission(job, id) && NewReference(job.submissions, command.reference)
    ensures var w := After(retention, actions);
            var w' := Step(retention, w, Submit(p, command, id));
            && (Submits(w, w') <==> MaySubmit(w, p, command))
            && (Submits(w, w') ==>
                  w'.job.submissions == w.job.submissions +
                    [Submission(id, command.reference, command.hash, p, command.scope, command.evidence, w.now)])
  {
    hide Step, After, MaySubmit, FreshSubmission, NewReference;
    SubmitEffect(retention, After(retention, actions), p, command, id);
  }

  /** The same command again is answered, and changes nothing; a stored reference never gets a second row. */
  lemma StoredReferenceStays(retention: nat, w: World, p: ParticipantId, command: SubmitCommand, id: nat)
    requires !NewReference(w.job.submissions, command.reference)
    ensures Step(retention, w, Submit(p, command, id)) == w
  {
    hide TimesFit, UsableEvidence, AwaitsAnswer, IssuesResolved;
  }

  // ----------------------------------------------------------------- requests

  /** The newest request leaves room for another one about this submission. */
  predicate NothingPending(job: JobFile, submission: nat, now: Time) {
    var r := LatestRequest(job.requests);
    r.Some? ==>
      var request := job.requests[r.value];
      && request.status != Confirmed
      && !(request.status == IssueReported && request.submission == submission)
      && !(request.status == Requested && now < request.expiresAt)
  }

  predicate MayAsk(w: World, p: ParticipantId, submission: nat) {
    && Is(w.job, p, Manager) && InProgress(w.job) && Settled(w.job)
    && LatestSubmission(w.job.submissions) == Some(submission)
    && CurrentAndLocked(w.job, w.job.submissions[submission].scope)
    && NothingPending(w.job, submission, w.now)
    && exists c :: c in w.job.participants && w.job.participants[c] == Customer
  }

  /** A request under a new reference is created exactly by a manager who may ask; it stands for seven days. */
  lemma AskAcceptedIff(retention: nat, w: World, p: ParticipantId, reference: nat, hash: string, submission: nat, id: nat)
    requires FreshRequest(w.job, id) && forall k :: 0 <= k < |w.job.requests| ==> w.job.requests[k].reference != reference
    ensures Step(retention, w, Ask(p, reference, hash, submission, id)) ==
            if MayAsk(w, p, submission) then
              World(w.now, w.job.(requests := w.job.requests +
                [Request(id, reference, hash, submission, p, Requested, w.now, w.now + 604800, None, None)]))
            else w
  {
    SettledIff(w.job);
    hide IssuesResolved, Settled, LatestSubmission, LatestRequest;
  }

  /** A request can be withdrawn exactly by a manager while it is open and has not expired. */
  lemma RevokeAcceptedIff(retention: nat, w: World, p: ParticipantId, i: nat, reason: string)
    ensures Step(retention, w, CompletionWorld.Revoke(p, i, reason)) ==
            if Is(w.job, p, Manager) && i < |w.job.requests| && w.job.requests[i].status == Requested
               && w.now < w.job.requests[i].expiresAt then
              World(w.now, w.job.(requests := w.job.requests[i :=
                w.job.requests[i].(status := JobRecords.Revoked, revocation := Some(Revocation(w.now, reason)))]))
            else w
  {
  }

  // ---------------------------------------------------------------- decisions

  /** The customer decides the newest request, in time, about the newest submission of the current scope. */
  predicate MayDecide(w: World, p: ParticipantId, i: nat) {
    && Is(w.job, p, Customer) && InProgress(w.job) && i < |w.job.requests|
    && w.job.requests[i].status == Requested && w.now < w.job.requests[i].expiresAt
    && LatestRequest(w.job.requests) == Some(i)
    && LatestSubmission(w.job.submissions) == Some(w.job.requests[i].submission)
    && CurrentAndLocked(w.job, w.job.submissions[w.job.requests[i].submission].scope)
  }

  /** Reporting a problem marks the request, and nothing else. */
  lemma ReportAcceptedIff(retention: nat, w: World, p: ParticipantId, i: nat, hash: string)
    ensures Step(retention, w, Decide(p, i, false, hash)) ==
            if MayDecide(w, p, i) then
              World(w.now, w.job.(
                requests := w.job.requests[i :=
                  w.job.requests[i].(status := IssueReported, decision := Some(Decision(p, hash, w.now)))],
                reports := w.job.reports + {i}))
            else w
  {
    hide LatestSubmission, LatestRequest;
  }

  /** A side that confirmed before confirmed the same: the same participant, scope and photos. */
  predicate Compatible(job: JobFile, role: Role, p: ParticipantId, scope: ScopeIndex, evidence: set<AssetId>) {
    role in job.confirmations ==>
      && job.confirmations[role].participant == p && job.confirmations[role].scope == scope
      && job.confirmations[role].evidence == evidence
  }

  /** Acceptance further needs settled issues, ready photos, and that nobody confirmed anything else before. */
  predicate MayAccept(w: World, p: ParticipantId, i: nat) {
    && MayDecide(w, p, i) && Settled(w.job)
    && var s := w.job.submissions[w.job.requests[i].submission];
       && (forall a :: a in s.evidence ==> a in w.job.assets && w.job.assets[a].state == Ready && w.job.assets[a].pinned)
       && Is(w.job, w.job.requests[i].actor, Manager)
       && Compatible(w.job, Manager, w.job.requests[i].actor, s.scope, s.evidence)
       && Compatible(w.job, Customer, p, s.scope, s.evidence)
  }

  /** The job is completed now, with both confirmations and the deletion of every photo one retention period later. */
  predicate CompletedBy(w: World, w': World, i: nat, p: ParticipantId, hash: string, retention: nat)
    requires i < |w.job.requests| && w.job.requests[i].submission < |w.job.submissions|
  {
    var r := w.job.requests[i];
    var s := w.job.submissions[r.submission];
    && w'.now == w.now && w'.job.status == Completed && w'.job.completedAt == Some(w.now)
    && w'.job.requests == w.job.requests[i := r.(status := Confirmed, decision := Some(Decision(p, hash, w.now)))]
    && Manager in w'.job.confirmations && Customer in w'.job.confirmations
    && (Manager !in w.job.confirmations ==> w'.job.confirmations[Manager] == Confirmation(r.actor, s.scope, s.evidence, w.now))
    && (Customer !in w.job.confirmations ==> w'.job.confirmations[Customer] == Confirmation(p, s.scope, s.evidence, w.now))
    && (forall role :: role in w.job.confirmations ==>
          role in w'.job.confirmations && w'.job.confirmations[role] == w.job.confirmations[role])
    && (forall a :: a in s.evidence ==>
          a in w'.job.intents && (a !in w.job.intents ==> w'.job.intents[a] == w.now + retention))
    && w'.job == w.job.(status := w'.job.status, completedAt := w'.job.completedAt, requests := w'.job.requests,
                        confirmations := w'.job.confirmations, intents := w'.job.intents)
  }

  lemma AcceptanceEffect(retention: nat, w: World, p: ParticipantId, i: nat, hash: string)
    requires Inv(retention, w.job)
    ensures var w' := Step(retention, w, Decide(p, i, true, hash));
            if MayAccept(w, p, i) then CompletedBy(w, w', i, p, hash, retention) else w' == w
  {
    SettledIff(w.job);
    hide LatestSubmission, LatestRequest, IssuesResolved, Settled, Bilateral, IntentsMatch;
    if i < |w.job.requests| { assert RequestOk(w.job, w.job.requests[i]); }
    hide RequestsOk;
  }

  /** An acceptance completes the job exactly when the customer may accept; otherwise it changes nothing. */
  lemma AcceptanceCompletesIff(retention: nat, actions: seq<Action>, p: ParticipantId, i: nat, hash: string)
    ensures var w := After(retention, actions);
            var w' := Step(retention, w, Decide(p, i, true, hash));
            if MayAccept(w, p, i) then CompletedBy(w, w', i, p, hash, retention) else w' == w
  {
    hide Inv, After, Step, MayAccept, CompletedBy;
    Reachable(retention, actions);
    AcceptanceEffect(retention, After(retention, actions), p, i, hash);
  }

  // ------------------------------------------------- two-sided confirmation

  predicate NoChangePending(job: JobFile) {
    && !job.looseChange
    && forall k :: 0 <= k < |job.issues| && job.issues[k].proposal.Some? ==>
         job.issues[k].proposal.value.status != UnderReview && job.issues[k].proposal.value.status != Clarifying
  }

  lemma NoChangeIff(job: JobFile)
    ensures UnderChange(job) <==> !NoChangePending(job)
  {
    if k :| 0 <= k < |job.issues| && job.issues[k].proposal.Some?
            && job.issues[k].proposal.value.status in {UnderReview, Clarifying} {
      assert job.issues[k] in job.issues;
    }
  }

  predicate MayConfirm(w: World, p: ParticipantId, role: Role, scope: ScopeIndex, evidence: set<AssetId>) {
    && InProgress(w.job) && role != Worker && Is(w.job, p, role) && Settled(w.job) && NoChangePending(w.job)
    && CurrentAndLocked(w.job, scope) && role !in w.job.confirmations
    && (forall r :: r in w.job.confirmations ==> w.job.confirmations[r].scope == scope && w.job.confirmations[r].evidence == evidence)
    && (forall a :: a in evidence ==> a in w.job.assets && Is(w.job, w.job.assets[a].actor, Worker)
                                      && w.job.assets[a].state != Unusable && w.job.assets[a].pinned)
  }

  /** One side's confirmation is added; if it is the second one, the job is completed with its photos' deletions. */
  lemma ConfirmAcceptedIff(retention: nat, w: World, p: ParticipantId, role: Role, scope: ScopeIndex, evidence: set<AssetId>)
    requires Inv(retention, w.job)
    ensures var w' := Step(retention, w, Confirm(p, role, scope, evidence));
            if MayConfirm(w, p, role, scope, evidence) then
              var confirmed := w.job.(confirmations := w.job.confirmations[role := Confirmation(p, scope, evidence, w.now)]);
              if (role == Manager && Customer in w.job.confirmations) || (role == Customer && Manager in w.job.confirmations) then
                w' == World(w.now, confirmed.(status := Completed, completedAt := Some(w.now),
                       intents := w.job.intents + map a | a in evidence && a !in w.job.intents :: w.now + retention))
              else w' == World(w.now, confirmed)
            else w' == w
  {
    SettledIff(w.job);
    NoChangeIff(w.job);
    hide IssuesResolved, Settled, UnderChange, NoChangePending, RequestsOk, IntentsMatch;
  }

  // ------------------------------------------------------------ field changes

  /** No side has confirmed yet, and the job is in progress. */
  predicate ChangesOpen(job: JobFile) {
    InProgress(job) && Customer !in job.confirmations && Manager !in job.confirmations && Worker !in job.confirmations
  }

  lemma ChangesOpenIff(job: JobFile)
    ensures OpenForChanges(job) <==> ChangesOpen(job)
  {
    if r :| r in job.confirmations {
      assert r == Customer || r == Manager || r == Worker by { assert r.Customer? || r.Manager? || r.Worker?; }
    } else {
      assert job.confirmations == map[];
    }
  }

  /** An issue is reported exactly by the company or its worker, against the current locked scope, before any confirmation. */
  lemma ReportIssueAcceptedIff(retention: nat, w: World, p: ParticipantId, base: ScopeIndex)
    ensures Step(retention, w, Report(p, base)) ==
            if ChangesOpen(w.job) && (Is(w.job, p, Manager) || Is(w.job, p, Worker)) && CurrentAndLocked(w.job, base)
            then World(w.now, w.job.(issues := w.job.issues + [Issue(base, None)])) else w
  {
    ChangesOpenIff(w.job);
    hide OpenForChanges, ChangesOpen;
  }

  predicate MayPropose(w: World, p: ParticipantId, i: nat, baseAmount: int) {
    && i < |w.job.issues| && w.job.issues[i].proposal.None? && ChangesOpen(w.job) && Is(w.job, p, Manager)
    && CurrentAndLocked(w.job, w.job.issues[i].base)
    && w.job.scopes[w.job.issues[i].base].price == Some(baseAmount)
  }

  /** A quote is accepted exactly from the company, once for an issue, starting from the price of the scope it changes. */
  lemma ProposalAcceptedIff(retention: nat, w: World, p: ParticipantId, i: nat, baseAmount: int, adjustments: seq<int>)
    ensures var w' := Step(retention, w, ProposeChange(p, i, baseAmount, adjustments));
            if MayPropose(w, p, i, baseAmount) then
              && |w'.job.issues| == |w.job.issues|
              && w'.job.issues[i].proposal.Some?
              && var stored := w'.job.issues[i].proposal.value;
                 && stored == Proposal(w.job.issues[i].base, baseAmount, adjustments, stored.total, UnderReview)
                 && w' == World(w.now, w.job.(issues := w.job.issues[i := w.job.issues[i].(proposal := Some(stored))]))
            else w' == w
  {
    ChangesOpenIff(w.job);
    hide OpenForChanges, ChangesOpen, Sum;
  }

  predicate ProposalIs(job: JobFile, i: nat, status: ChangeStatus) {
    i < |job.issues| && job.issues[i].proposal.Some? && job.issues[i].proposal.value.status == status
  }

  function Restated(job: JobFile, i: nat, status: ChangeStatus): JobFile
    requires i < |job.issues| && job.issues[i].proposal.Some?
  {
    job.(issues := job.issues[i := Issue(job.issues[i].base, Some(job.issues[i].proposal.value.(status := status)))])
  }

  /** A proposal goes back and forth between review and clarification. */
  lemma ClarificationAcceptedIff(retention: nat, w: World, i: nat)
    ensures Step(retention, w, AskToClarify(i)) ==
            if ProposalIs(w.job, i, UnderReview) then World(w.now, Restated(w.job, i, Clarifying)) else w
    ensures Step(retention, w, ExplainChange(i)) ==
            if ProposalIs(w.job, i, Clarifying) then World(w.now, Restated(w.job, i, UnderReview)) else w
  {
  }

  /** The customer rejects a proposal under review, or approves it while its base scope is current; then its total is the price. */
  lemma JudgementAcceptedIff(retention: nat, w: World, p: ParticipantId, i: nat, approve: bool)
    ensures Step(retention, w, JudgeChange(p, i, approve)) ==
            if Is(w.job, p, Customer) && ProposalIs(w.job, i, UnderReview) && !approve then
              World(w.now, Restated(w.job, i, Rejected))
            else if Is(w.job, p, Customer) && ProposalIs(w.job, i, UnderReview)
                    && CurrentAndLocked(w.job, w.job.issues[i].proposal.value.base) then
              World(w.now, Restated(w.job, i, Approved).(
                             scopes := w.job.scopes + [Scope(true, Some(w.job.issues[i].proposal.value.total))]))
            else w
  {
  }

  // ------------------------------------------------------ repeated commands

  /** The same participant sending the same command again is answered; anything else under that reference is a conflict. */
  lemma RepeatedSubmissionIff(retention: nat, job: JobFile, p: ParticipantId, command: SubmitCommand, id: nat, now: Time, k: nat)
    requires Inv(retention, job) && Is(job, p, Worker) && job.setup.Some?
    requires k < |job.submissions| && job.submissions[k].reference == command.reference
    ensures SubmitCompletion(job, p, command, id, now) ==
            if job.submissions[k].hash == command.hash && job.submissions[k].actor == p then Ok(job) else Err(Conflicted)
  {
    var found := SubmissionWith(job.submissions, command.reference);
    assert found == Some(k) by { hide Bilateral, IntentsMatch; }
    hide Inv, TimesFit, UsableEvidence, AwaitsAnswer, IssuesResolved;
  }

  lemma RepeatedRequestIff(retention: nat, job: JobFile, p: ParticipantId, reference: nat, hash: string, submission: nat,
                           id: nat, now: Time, k: nat)
    requires Inv(retention, job) && Is(job, p, Manager) && InProgress(job)
    requires k < |job.requests| && job.requests[k].reference == reference
    ensures CreateRequest(job, p, reference, hash, submission, id, now) ==
            if job.requests[k].hash == hash && job.requests[k].actor == p then Ok(job) else Err(Conflicted)
  {
    var found := RequestWith(job.requests, reference);
    assert found == Some(k) by { hide Bilateral, IntentsMatch; }
    hide Inv, IssuesResolved, LatestSubmission, LatestRequest;
  }

  /** A second answer to a request counts only if it repeats the first one word for word. */
  lemma RepeatedAnswerIff(retention: nat, job: JobFile, p: ParticipantId, i: nat, confirm: bool, hash: string, reason: string,
                          now: Time)
    requires Inv(retention, job) && i < |job.requests|
    ensures Is(job, p, Customer) && job.requests[i].decision.Some? ==>
              DecideRequest(job, p, i, confirm, hash, retention, now) ==
                if job.requests[i].decision.value.hash == hash then Ok(job) else Err(Conflicted)
    ensures Is(job, p, Manager) && job.requests[i].revocation.Some? ==>
              RevokeRequest(job, p, i, reason, now) ==
                if job.requests[i].revocation.value.reason == reason then Ok(job) else Err(Conflicted)
  {
    assert RequestOk(job, job.requests[i]) by { hide Bilateral, IntentsMatch; }
    hide Inv, IssuesResolved, LatestSubmission, LatestRequest, EvidenceReady;
  }

  // ------------------------------------------------------------- surroundings

  /** The last scope is still being edited. */
  predicate Editing(job: JobFile) {
    |job.scopes| > 0 && !job.scopes[|job.scopes| - 1].locked
  }

  predicate NoPriceYet(job: JobFile) {
    forall k :: 0 <= k < |job.scopes| ==> job.scopes[k].price == None
  }

  lemma NoPriceYetIff(job: JobFile)
    ensures NoPriceYet(job) <==> !Quoted(job)
  {
    if !Quoted(job) {
      assert forall k :: 0 <= k < |job.scopes| ==> job.scopes[k] in job.scopes;
    }
  }

  /** A scope is edited until it is locked; a job gets at most one first price; no job with a price is canceled. */
  lemma ScopesMoveIff(retention: nat, w: World, price: Option<int>)
    ensures Step(retention, w, DraftScope) ==
            if InProgress(w.job) && (|w.job.scopes| == 0 || Editing(w.job)) then
              World(w.now, w.job.(scopes := w.job.scopes + [Scope(false, None)]))
            else w
    ensures Step(retention, w, LockScope(price)) ==
            if Editing(w.job) && (price == None || NoPriceYet(w.job)) then
              World(w.now, w.job.(scopes := w.job.scopes[..|w.job.scopes| - 1] + [Scope(true, price)]))
            else w
    ensures Step(retention, w, Cancel) ==
            if w.job.status == Open && NoPriceYet(w.job) then World(w.now, w.job.(status := Canceled)) else w
  {
    NoPriceYetIff(w.job);
    hide Quoted, NoPriceYet;
  }

  /** A change request without an issue is opened before any confirmation, and closed once, by a draft or by nothing. */
  lemma LooseChangesMoveIff(retention: nat, w: World)
    ensures Step(retention, w, OpenLooseChange) ==
            if ChangesOpen(w.job) then World(w.now, w.job.(looseChange := true)) else w
    ensures Step(retention, w, CloseLooseChange(false)) == World(w.now, w.job.(looseChange := false))
    ensures Step(retention, w, CloseLooseChange(true)) ==
            if w.job.looseChange && |w.job.scopes| > 0 && !Editing(w.job) then
              World(w.now, w.job.(looseChange := false, scopes := w.job.scopes + [Scope(false, None)]))
            else w
  {
    ChangesOpenIff(w.job);
    hide OpenForChanges, ChangesOpen;
  }

  /** A participant keeps its role; the newest facts about a photo and the newest setup count; time passes as told. */
  lemma SurroundingsMove(retention: nat, w: World, elapsed: nat, p: ParticipantId, role: Role, setup: Setup, a: AssetId,
                         facts: EvidenceFacts)
    ensures Step(retention, w, Tick(elapsed)) == World(w.now + elapsed, w.job)
    ensures Step(retention, w, Join(p, role)) ==
            World(w.now, w.job.(participants := map[p := role] + w.job.participants))
    ensures Step(retention, w, Arrange(setup)) == World(w.now, w.job.(setup := Some(setup)))
    ensures Step(retention, w, ObserveAsset(a, facts)) == World(w.now, w.job.(assets := w.job.assets[a := facts]))
  {
    if p !in w.job.participants {
      assert map[p := role] + w.job.participants == w.job.participants[p := role];
    } else {
      assert map[p := role] + w.job.participants == w.job.participants;
    }
  }

  // -------------------------------------------------------------- rejections

  /**
   What a rejected participant is told. Missing: not its role, or nothing of that name. Invalid: only the photos are
   wrong. Conflicted: everything exists, but the job is not in a state for it.
   */
  lemma SubmitRejections(job: JobFile, p: ParticipantId, command: SubmitCommand, id: nat, now: Time)
    ensures var r := SubmitCompletion(job, p, command, id, now);
            var w := World(now, job);
            && (!Is(job, p, Worker) || job.setup.None? ==> r == Err(Missing))
            && ((!InProgress(job) || !Settled(job) || Unanswered(job, now)) ==>
                  Is(job, p, Worker) && job.setup.Some? && NewReference(job.submissions, command.reference) ==>
                    r == Err(Conflicted))
            && (Is(job, p, Worker) && job.setup.Some? ==>
                  (r == Err(Missing) <==>
                     && NewReference(job.submissions, command.reference) && InProgress(job) && Settled(job) && !Unanswered(job, now)
                     && (job.setup.value.plan.None? || job.setup.value.plan.value.id != command.plan || |job.scopes| == 0)))
            && (r == Err(Invalid) <==>
                  && NewReference(job.submissions, command.reference) && Is(job, p, Worker) && InProgress(job) && Settled(job)
                  && !Unanswered(job, now) && FollowsPlan(job, p, command)
                  && TimesAgree(command, job.setup.value.plan.value.checkIns[p], now) && !OwnEvidence(job, p, command.evidence))
  {
    SettledIff(job);
    UnansweredIff(0, job, now);
    if job.setup.Some? && job.setup.value.plan.Some? && p in job.setup.value.plan.value.checkIns {
      TimesAgreeIff(command, job.setup.value.plan.value.checkIns[p], now);
    }
    hide TimesFit, TimesAgree, AwaitsAnswer, Unanswered, IssuesResolved, Settled;
  }

  lemma RequestRejections(job: JobFile, p: ParticipantId, reference: nat, hash: string, submission: nat, id: nat, now: Time)
    requires forall k :: 0 <= k < |job.requests| ==> job.requests[k].reference != reference
    ensures var r := CreateRequest(job, p, reference, hash, submission, id, now);
            && (!Is(job, p, Manager) ==> r == Err(Missing))
            && (Is(job, p, Manager) && (!InProgress(job) || !Settled(job)) ==> r == Err(Conflicted))
            && (r == Err(Missing) ==> !Is(job, p, Manager) || submission >= |job.submissions|
                                      || !exists c :: c in job.participants && job.participants[c] == Customer)
            && (Is(job, p, Manager) && InProgress(job) && Settled(job) && !(submission < |job.submissions|) ==> r == Err(Missing))
            && (r == Err(Conflicted) ==> Is(job, p, Manager)) && r != Err(Invalid)
  {
    SettledIff(job);
    hide LatestSubmission, LatestRequest, IssuesResolved, Settled;
  }

  lemma AnswerRejections(job: JobFile, p: ParticipantId, i: nat, confirm: bool, hash: string, reason: string, retention: nat,
                         now: Time)
    ensures var r := DecideRequest(job, p, i, confirm, hash, retention, now);
            && (!Is(job, p, Customer) || i >= |job.requests| ==> r == Err(Missing))
            && ((!InProgress(job) || LatestRequest(job.requests) != Some(i)) ==>
                  Is(job, p, Customer) && i < |job.requests| && !Decided(job.requests[i]) ==> r == Err(Conflicted))
            && (r == Err(Missing) ==>
                  || !Is(job, p, Customer) || i >= |job.requests| || job.requests[i].submission >= |job.submissions|
                  || !Is(job, job.requests[i].actor, Manager))
    ensures var r := RevokeRequest(job, p, i, reason, now);
            && (r == Err(Missing) <==> !Is(job, p, Manager) || i >= |job.requests|) && r != Err(Invalid)
  {
    hide LatestSubmission, LatestRequest, IssuesResolved, EvidenceReady;
  }

  lemma ConfirmRejections(job: JobFile, p: ParticipantId, role: Role, scope: ScopeIndex, evidence: set<AssetId>, retention: nat,
                          now: Time)
    ensures var r := ConfirmCompletion(job, p, role, scope, evidence, retention, now);
            && (!InProgress(job) ==> r == Err(Conflicted))
            && (r == Err(Missing) <==>
                  InProgress(job) && (role == Worker || !Is(job, p, role) || (Settled(job) && scope >= |job.scopes|)))
            && (r == Err(Invalid) ==>
                  exists a :: a in evidence && !(a in job.assets && Is(job, job.assets[a].actor, Worker)
                                                 && job.assets[a].state != Unusable && job.assets[a].pinned))
  {
    SettledIff(job);
    hide IssuesResolved, Settled, UnderChange;
  }

  lemma ChangeRejections(job: JobFile, p: ParticipantId, i: nat, base: ScopeIndex, baseAmount: int, adjustments: seq<int>,
                         approve: bool)
    ensures ReportIssue(job, p, base) == Err(Missing) <==>
              ChangesOpen(job) && ((!Is(job, p, Manager) && !Is(job, p, Worker)) || base >= |job.scopes|)
    ensures Propose(job, p, i, baseAmount, adjustments) == Err(Missing) <==>
              i >= |job.issues| || (job.issues[i].proposal.None? && ChangesOpen(job) && !Is(job, p, Manager))
    ensures DecideChange(job, p, i, approve) == Err(Missing) <==>
              !Is(job, p, Customer) || i >= |job.issues| || job.issues[i].proposal.None?
    ensures Clarify(job, i) == Err(Missing) <==> i >= |job.issues| || job.issues[i].proposal.None?
    ensures Explain(job, i) == Err(Missing) <==> i >= |job.issues| || job.issues[i].proposal.None?
    ensures ReportIssue(job, p, base) != Err(Invalid) && Propose(job, p, i, baseAmount, adjustments) != Err(Invalid)
    ensures DecideChange(job, p, i, approve) != Err(Invalid) && Clarify(job, i) != Err(Invalid) && Explain(job, i) != Err(Invalid)
  {
    ChangesOpenIff(job);
    hide OpenForChanges, ChangesOpen, Sum;
  }
}
