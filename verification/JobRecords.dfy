/**
 Everything completion reads and writes about one move job, and the commands of
 the field-change and completion services as functions from one committed state
 to the next. Rows are kept in insertion order; their random identifiers only
 matter where the queries break ties between equal timestamps.
 */
module JobRecords {
  import opened Common

  type ParticipantId = nat
  type ScopeIndex = nat

  datatype Role = Customer | Manager | Worker

  datatype JobStatus = Open | Completed | Canceled

  datatype CommandError = Missing | Conflicted | Invalid

  datatype ChangeStatus = UnderReview | Clarifying | Approved | Rejected

  /** A priced change proposed for an issue; approval creates the child of its base scope. */
  datatype Proposal = Proposal(base: ScopeIndex, baseAmount: int, adjustments: seq<int>, total: int, status: ChangeStatus)

  datatype Issue = Issue(base: ScopeIndex, proposal: Option<Proposal>)

  datatype Submission = Submission(
    id: nat, reference: nat, hash: string, actor: ParticipantId, scope: ScopeIndex, evidence: set<AssetId>,
    submittedAt: Time)

  datatype RequestStatus = Requested | Confirmed | IssueReported | Revoked

  datatype Revocation = Revocation(at: Time, reason: string)

  datatype Decision = Decision(actor: ParticipantId, hash: string, at: Time)

  datatype Request = Request(
    id: nat, reference: nat, hash: string, submission: nat, actor: ParticipantId, status: RequestStatus,
    requestedAt: Time, expiresAt: Time, revocation: Option<Revocation>, decision: Option<Decision>)

  datatype Confirmation = Confirmation(participant: ParticipantId, scope: ScopeIndex, evidence: set<AssetId>, at: Time)

  datatype Plan = Plan(
    id: nat, scope: ScopeIndex, workers: set<nat>, lead: Option<ParticipantId>, checkIns: map<ParticipantId, Time>)

  datatype Setup = Setup(checkKeys: set<string>, plan: Option<Plan>)

  datatype AssetState = Uploaded | Ready | Unusable

  datatype EvidenceFacts = EvidenceFacts(actor: ParticipantId, state: AssetState, pinned: bool)

  /** A scope version of the linear chain: whether it is locked, and its price if one was agreed. */
  datatype Scope = Scope(locked: bool, price: Option<int>)

  datatype JobFile = JobFile(
    status: JobStatus,
    completedAt: Option<Time>,
    participants: map<ParticipantId, Role>,
    scopes: seq<Scope>,
    issues: seq<Issue>,
    looseChange: bool,
    setup: Option<Setup>,
    assets: map<AssetId, EvidenceFacts>,
    submissions: seq<Submission>,
    requests: seq<Request>,
    confirmations: map<Role, Confirmation>,
    reports: set<nat>,
    intents: map<AssetId, Time>)

  const REQUEST_TTL := 7 * 24 * 3600
  const CLOCK_SKEW := 5 * 60
  const MAX_SHIFT_LOOKBACK := 24 * 3600

  // --------------------------------------------------------------- queries

  predicate HasRole(job: JobFile, participant: ParticipantId, role: Role) {
    participant in job.participants && job.participants[participant] == role
  }

  predicate Closed(job: JobFile) {
    job.status in {Completed, Canceled}
  }

  predicate Resolved(issue: Issue) {
    issue.proposal.Some? && issue.proposal.value.status in {Approved, Rejected}
  }

  predicate IssuesResolved(job: JobFile) {
    forall issue :: issue in job.issues ==> Resolved(issue)
  }

  /** No field change may start once the job is closed or one side has confirmed. */
  predicate OpenForChanges(job: JobFile) {
    !Closed(job) && job.confirmations == map[]
  }

  predicate Earlier(at: Time, id: nat, at': Time, id': nat) {
    at < at' || (at == at' && id < id')
  }

  /** The newest submission by time and identifier. */
  function LatestSubmission(rows: seq<Submission>): (latest: Option<nat>)
    ensures latest.None? <==> rows == []
    ensures latest.Some? ==> latest.value < |rows|
    decreases |rows|
  {
    if rows == [] then None
    else
      var n := |rows| - 1;
      var before := LatestSubmission(rows[..n]);
      if before.None? then Some(n)
      else
        var row := rows[before.value];
        if Earlier(row.submittedAt, row.id, rows[n].submittedAt, rows[n].id) then Some(n) else before
  }

  /** The newest request by time and identifier. */
  function LatestRequest(rows: seq<Request>): (latest: Option<nat>)
    ensures latest.None? <==> rows == []
    ensures latest.Some? ==> latest.value < |rows|
    decreases |rows|
  {
    if rows == [] then None
    else
      var n := |rows| - 1;
      var before := LatestRequest(rows[..n]);
      if before.None? then Some(n)
      else
        var row := rows[before.value];
        if Earlier(row.requestedAt, row.id, rows[n].requestedAt, rows[n].id) then Some(n) else before
  }

  function SubmissionWith(rows: seq<Submission>, reference: nat): (found: Option<nat>)
    ensures found.Some? ==> found.value < |rows| && rows[found.value].reference == reference
    ensures found.None? ==> forall i :: 0 <= i < |rows| ==> rows[i].reference != reference
    decreases |rows|
  {
    if rows == [] then None
    else
      var n := |rows| - 1;
      if rows[n].reference == reference then Some(n) else SubmissionWith(rows[..n], reference)
  }

  function RequestWith(rows: seq<Request>, reference: nat): (found: Option<nat>)
    ensures found.Some? ==> found.value < |rows| && rows[found.value].reference == reference
    ensures found.None? ==> forall i :: 0 <= i < |rows| ==> rows[i].reference != reference
    decreases |rows|
  {
    if rows == [] then None
    else
      var n := |rows| - 1;
      if rows[n].reference == reference then Some(n) else RequestWith(rows[..n], reference)
  }

  predicate Live(request: Request, now: Time) {
    request.status == Requested && request.expiresAt > now
  }

  predicate Decided(request: Request) {
    request.status in {Confirmed, IssueReported}
  }

  /** The current scope is locked, and is the expected one. */
  predicate IsCurrentScope(job: JobFile, scope: ScopeIndex) {
    scope + 1 == |job.scopes| && job.scopes[scope].locked
  }

  // ---------------------------------------------------------- field changes

  function ReportIssue(job: JobFile, participant: ParticipantId, base: ScopeIndex): Result<JobFile, CommandError> {
    if !OpenForChanges(job) then Err(Conflicted)
    else if !HasRole(job, participant, Manager) && !HasRole(job, participant, Worker) then Err(Missing)
    else if base >= |job.scopes| then Err(Missing)
    else if !IsCurrentScope(job, base) then Err(Conflicted)
    else Ok(job.(issues := job.issues + [Issue(base, None)]))
  }

  function Sum(adjustments: seq<int>): int
    decreases |adjustments|
  {
    if adjustments == [] then 0 else Sum(adjustments[..|adjustments| - 1]) + adjustments[|adjustments| - 1]
  }

  /** A quote starts from the price of the scope it changes. */
  function Propose(job: JobFile, participant: ParticipantId, i: nat, baseAmount: int, adjustments: seq<int>)
    : Result<JobFile, CommandError>
  {
    if i >= |job.issues| then Err(Missing)
    else
      var issue := job.issues[i];
      if issue.proposal.Some? then Err(Conflicted)
      else if !OpenForChanges(job) then Err(Conflicted)
      else if !HasRole(job, participant, Manager) then Err(Missing)
      else if issue.base >= |job.scopes| || !IsCurrentScope(job, issue.base) then Err(Conflicted)
      else if job.scopes[issue.base].price != Some(baseAmount) then Err(Conflicted)
      else
        var proposal := Proposal(issue.base, baseAmount, adjustments, baseAmount + Sum(adjustments), UnderReview);
        Ok(job.(issues := job.issues[i := issue.(proposal := Some(proposal))]))
  }

  function WithStatus(job: JobFile, i: nat, status: ChangeStatus): JobFile
    requires i < |job.issues| && job.issues[i].proposal.Some?
  {
    var issue := job.issues[i];
    job.(issues := job.issues[i := issue.(proposal := Some(issue.proposal.value.(status := status)))])
  }

  function Clarify(job: JobFile, i: nat): Result<JobFile, CommandError> {
    if i >= |job.issues| || job.issues[i].proposal.None? then Err(Missing)
    else if job.issues[i].proposal.value.status != UnderReview then Err(Conflicted)
    else Ok(WithStatus(job, i, Clarifying))
  }

  function Explain(job: JobFile, i: nat): Result<JobFile, CommandError> {
    if i >= |job.issues| || job.issues[i].proposal.None? then Err(Missing)
    else if job.issues[i].proposal.value.status != Clarifying then Err(Conflicted)
    else Ok(WithStatus(job, i, UnderReview))
  }

  /** Approval adds the only child of the proposal's base scope, locked and priced. */
  function DecideChange(job: JobFile, participant: ParticipantId, i: nat, approve: bool): Result<JobFile, CommandError> {
    if !HasRole(job, participant, Customer) then Err(Missing)
    else if i >= |job.issues| || job.issues[i].proposal.None? then Err(Missing)
    else
      var proposal := job.issues[i].proposal.value;
      if proposal.status != UnderReview then Err(Conflicted)
      else if !approve then Ok(WithStatus(job, i, Rejected))
      else if !IsCurrentScope(job, proposal.base) then Err(Conflicted)
      else Ok(WithStatus(job, i, Approved).(scopes := job.scopes + [Scope(true, Some(proposal.total))]))
  }

  // -------------------------------------------------------------- submission

  datatype Shift = Shift(startedAt: Time, endedAt: Time)

  datatype SubmitCommand = SubmitCommand(
    reference: nat, hash: string, plan: nat, scope: ScopeIndex, evidence: set<AssetId>, checkKeys: set<string>,
    shifts: map<nat, Shift>, onsiteAt: Time, endedAt: Time)

  /** A new submission waits while the last one is unanswered, under review or accepted. */
  predicate AwaitsAnswer(job: JobFile, now: Time) {
    var latest := LatestSubmission(job.submissions);
    var request := LatestRequest(job.requests);
    latest.Some? &&
    (|| request.None?
     || job.requests[request.value].submission != latest.value
     || Live(job.requests[request.value], now)
     || job.requests[request.value].status == Confirmed)
  }

  predicate TimesFit(command: SubmitCommand, checkIn: Time, now: Time) {
    && command.endedAt >= checkIn
    && command.onsiteAt >= checkIn
    && command.endedAt <= now + CLOCK_SKEW
    && command.onsiteAt <= now + CLOCK_SKEW
    && forall w :: w in command.shifts ==>
         command.shifts[w].startedAt >= checkIn - MAX_SHIFT_LOOKBACK && command.shifts[w].endedAt <= command.endedAt
  }

  predicate UsableEvidence(job: JobFile, owner: ParticipantId, evidence: set<AssetId>) {
    forall a :: a in evidence ==>
      a in job.assets && job.assets[a].actor == owner && job.assets[a].state in {Uploaded, Ready} && job.assets[a].pinned
  }

  function SubmitCompletion(job: JobFile, participant: ParticipantId, command: SubmitCommand, id: nat, now: Time)
    : Result<JobFile, CommandError>
  {
    if !HasRole(job, participant, Worker) || job.setup.None? then Err(Missing)
    else
      var setup := job.setup.value;
      var replay := SubmissionWith(job.submissions, command.reference);
      if replay.Some? then
        if job.submissions[replay.value].hash == command.hash && job.submissions[replay.value].actor == participant
        then Ok(job) else Err(Conflicted)
      else if Closed(job) || !IssuesResolved(job) || AwaitsAnswer(job, now) then Err(Conflicted)
      else if setup.plan.None? || setup.plan.value.id != command.plan || job.scopes == [] then Err(Missing)
      else
        var plan := setup.plan.value;
        if !IsCurrentScope(job, command.scope) || plan.scope != command.scope
           || participant !in plan.checkIns || command.checkKeys != setup.checkKeys
           || command.shifts.Keys != plan.workers || plan.lead != Some(participant)
           || !TimesFit(command, plan.checkIns[participant], now) then Err(Conflicted)
        else if !UsableEvidence(job, participant, command.evidence) then Err(Invalid)
        else
          Ok(job.(submissions := job.submissions +
             [Submission(id, command.reference, command.hash, participant, command.scope, command.evidence, now)]))
  }

  // ----------------------------------------------------------------- request

  /** The latest request blocks another one while it is live, accepted, or reported on for this submission. */
  predicate Blocks(request: Request, submission: nat, now: Time) {
    || request.status == Confirmed
    || (request.submission == submission && request.status == IssueReported)
    || Live(request, now)
  }

  function NewRequest(id: nat, reference: nat, hash: string, submission: nat, actor: ParticipantId, now: Time): Request {
    Request(id, reference, hash, submission, actor, Requested, now, now + REQUEST_TTL, None, None)
  }

  function CreateRequest(job: JobFile, participant: ParticipantId, reference: nat, hash: string, submission: nat,
                         id: nat, now: Time): Result<JobFile, CommandError>
  {
    if !HasRole(job, participant, Manager) then Err(Missing)
    else if Closed(job) then Err(Conflicted)
    else
      var replay := RequestWith(job.requests, reference);
      if replay.Some? then
        if job.requests[replay.value].hash == hash && job.requests[replay.value].actor == participant
        then Ok(job) else Err(Conflicted)
      else if !IssuesResolved(job) then Err(Conflicted)
      else if submission >= |job.submissions| then Err(Missing)
      else if LatestSubmission(job.submissions) != Some(submission)
              || !IsCurrentScope(job, job.submissions[submission].scope) then Err(Conflicted)
      else
        var latest := LatestRequest(job.requests);
        if latest.Some? && Blocks(job.requests[latest.value], submission, now) then Err(Conflicted)
        else if !exists p :: p in job.participants && job.participants[p] == Customer then Err(Missing)
        else Ok(job.(requests := job.requests + [NewRequest(id, reference, hash, submission, participant, now)]))
  }

  function RevokeRequest(job: JobFile, participant: ParticipantId, i: nat, reason: string, now: Time)
    : Result<JobFile, CommandError>
  {
    if !HasRole(job, participant, Manager) || i >= |job.requests| then Err(Missing)
    else
      var request := job.requests[i];
      if request.status == Revoked && request.revocation.Some? && request.revocation.value.reason == reason then Ok(job)
      else if !Live(request, now) then Err(Conflicted)
      else Ok(job.(requests := job.requests[i := request.(status := Revoked, revocation := Some(Revocation(now, reason)))]))
  }

  // ---------------------------------------------------------------- decision

  /** Adds one side's confirmation, or accepts a stored one that says the same. */
  function EnsureConfirmation(confirmations: map<Role, Confirmation>, role: Role, wanted: Confirmation)
    : Result<map<Role, Confirmation>, CommandError>
  {
    if role !in confirmations then Ok(confirmations[role := wanted])
    else
      var stored := confirmations[role];
      if stored.scope == wanted.scope && stored.participant == wanted.participant && stored.evidence == wanted.evidence
      then Ok(confirmations) else Err(Conflicted)
  }

  /** The one transaction in which a job becomes complete, with the intents of its evidence. */
  function CompleteJob(job: JobFile, confirmations: map<Role, Confirmation>, evidence: set<AssetId>, retention: nat,
                       now: Time): JobFile
  {
    job.(status := Completed, completedAt := Some(now), confirmations := confirmations,
         intents := job.intents + map a | a in evidence && a !in job.intents :: now + retention)
  }

  predicate EvidenceReady(job: JobFile, evidence: set<AssetId>) {
    forall a :: a in evidence ==> a in job.assets && job.assets[a].state == Ready && job.assets[a].pinned
  }

  /** The customer accepts: the company's acceptance of its own request counts as its confirmation. */
  function AcceptRequest(job: JobFile, i: nat, submission: Submission, decision: Decision, retention: nat, now: Time)
    : Result<JobFile, CommandError>
    requires i < |job.requests|
  {
    var request := job.requests[i];
    if !IssuesResolved(job) || !EvidenceReady(job, submission.evidence) then Err(Conflicted)
    else if !HasRole(job, request.actor, Manager) then Err(Missing)
    else
      match EnsureConfirmation(job.confirmations, Manager,
                               Confirmation(request.actor, submission.scope, submission.evidence, now))
      case Err(e) => Err(e)
      case Ok(one) =>
        match EnsureConfirmation(one, Customer, Confirmation(decision.actor, submission.scope, submission.evidence, now))
        case Err(e) => Err(e)
        case Ok(both) =>
          var decided := job.(requests := job.requests[i := request.(status := Confirmed, decision := Some(decision))]);
          Ok(CompleteJob(decided, both, submission.evidence, retention, now))
  }

  function DecideRequest(job: JobFile, participant: ParticipantId, i: nat, confirm: bool, hash: string, retention: nat,
                         now: Time): Result<JobFile, CommandError>
  {
    if !HasRole(job, participant, Customer) || i >= |job.requests| then Err(Missing)
    else
      var request := job.requests[i];
      if Decided(request) then
        if request.decision.Some? && request.decision.value.hash == hash then Ok(job) else Err(Conflicted)
      else if LatestRequest(job.requests) != Some(i) || !Live(request, now) || Closed(job) then Err(Conflicted)
      else if request.submission >= |job.submissions| then Err(Missing)
      else if LatestSubmission(job.submissions) != Some(request.submission)
              || !IsCurrentScope(job, job.submissions[request.submission].scope) then Err(Conflicted)
      else
        var decision := Decision(participant, hash, now);
        if confirm then AcceptRequest(job, i, job.submissions[request.submission], decision, retention, now)
        else
          Ok(job.(requests := job.requests[i := request.(status := IssueReported, decision := Some(decision))],
                  reports := job.reports + {i}))
  }

  // ------------------------------------------------ two-sided confirmation

  /** The older path: each side confirms the same scope and evidence; the second one completes the job. */
  function ConfirmCompletion(job: JobFile, participant: ParticipantId, role: Role, scope: ScopeIndex,
                             evidence: set<AssetId>, retention: nat, now: Time): Result<JobFile, CommandError>
  {
    if Closed(job) then Err(Conflicted)
    else if role == Worker || !HasRole(job, participant, role) then Err(Missing)
    else if !IssuesResolved(job) then Err(Conflicted)
    else if scope >= |job.scopes| then Err(Missing)
    else if !IsCurrentScope(job, scope) || UnderChange(job) || role in job.confirmations then Err(Conflicted)
    else if exists r :: r in job.confirmations
                        && (job.confirmations[r].scope != scope || job.confirmations[r].evidence != evidence) then Err(Conflicted)
    else if exists a :: a in evidence && !(a in job.assets && HasRole(job, job.assets[a].actor, Worker)
                                           && job.assets[a].state in {Uploaded, Ready} && job.assets[a].pinned) then Err(Invalid)
    else
      var confirmations := job.confirmations[role := Confirmation(participant, scope, evidence, now)];
      if Customer in confirmations && Manager in confirmations then
        Ok(CompleteJob(job, confirmations, evidence, retention, now))
      else
        Ok(job.(confirmations := confirmations))
  }

  /** Some change request is not decided yet, with or without an issue. */
  predicate UnderChange(job: JobFile) {
    || job.looseChange
    || exists issue :: issue in job.issues && issue.proposal.Some? && issue.proposal.value.status in {UnderReview, Clarifying}
  }
}
