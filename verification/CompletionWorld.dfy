/** One move job under any sequence of commands by its participants, each one transaction. */
module CompletionWorld {
  import opened Common
  import opened JobRecords

  datatype World = World(now: Time, job: JobFile)

  const INITIAL :=
    World(0, JobFile(Open, None, map[], [], [], false, None, map[], [], [], map[], {}, map[]))

  datatype Action =
    | Tick(elapsed: nat)
    | Join(participant: ParticipantId, role: Role)
    | Arrange(setup: Setup)
    | ObserveAsset(asset: AssetId, facts: EvidenceFacts)
    | DraftScope
    | LockScope(price: Option<int>)
    | OpenLooseChange
    | CloseLooseChange(approve: bool)
    | Cancel
    | Report(participant: ParticipantId, base: ScopeIndex)
    | ProposeChange(participant: ParticipantId, issue: nat, baseAmount: int, adjustments: seq<int>)
    | AskToClarify(issue: nat)
    | ExplainChange(issue: nat)
    | JudgeChange(participant: ParticipantId, issue: nat, approve: bool)
    | Submit(participant: ParticipantId, command: SubmitCommand, id: nat)
    | Ask(participant: ParticipantId, reference: nat, hash: string, submission: nat, id: nat)
    | Revoke(participant: ParticipantId, request: nat, reason: string)
    | Decide(participant: ParticipantId, request: nat, confirm: bool, hash: string)
    | Confirm(participant: ParticipantId, role: Role, scope: ScopeIndex, evidence: set<AssetId>)

  /** A raised command leaves the job as it was. */
  function Outcome(job: JobFile, result: Result<JobFile, CommandError>): JobFile {
    match result
    case Ok(job') => job'
    case Err(_) => job
  }

  predicate Quoted(job: JobFile) {
    exists scope :: scope in job.scopes && scope.price.Some?
  }

  /** A quote is confirmed once for a job, and locks the scope it is for. */
  function Lock(job: JobFile, price: Option<int>): JobFile {
    var n := |job.scopes|;
    if n == 0 || job.scopes[n - 1].locked || (price.Some? && Quoted(job)) then job
    else job.(scopes := job.scopes[n - 1 := Scope(true, price)])
  }

  /** Only an unlocked scope is edited; a locked one gets its child from an approved change. */
  function Draft(job: JobFile): JobFile {
    if Closed(job) || (job.scopes != [] && job.scopes[|job.scopes| - 1].locked) then job
    else job.(scopes := job.scopes + [Scope(false, None)])
  }

  function CloseLoose(job: JobFile, approve: bool): JobFile {
    if !job.looseChange then job
    else if !approve then job.(looseChange := false)
    else if job.scopes == [] || !job.scopes[|job.scopes| - 1].locked then job
    else job.(looseChange := false, scopes := job.scopes + [Scope(false, None)])
  }

  predicate FreshSubmission(job: JobFile, id: nat) {
    forall s :: s in job.submissions ==> s.id != id
  }

  predicate FreshRequest(job: JobFile, id: nat) {
    forall r :: r in job.requests ==> r.id != id
  }

  function Apply(retention: nat, w: World, action: Action): JobFile {
    var job := w.job;
    match action
    case Tick(_) => job
    case Join(p, role) => if p in job.participants then job else job.(participants := job.participants[p := role])
    case Arrange(setup) => job.(setup := Some(setup))
    case ObserveAsset(a, facts) => job.(assets := job.assets[a := facts])
    case DraftScope => Draft(job)
    case LockScope(price) => Lock(job, price)
    case OpenLooseChange => if OpenForChanges(job) then job.(looseChange := true) else job
    case CloseLooseChange(approve) => CloseLoose(job, approve)
    case Cancel => if job.status == Open && !Quoted(job) then job.(status := Canceled) else job
    case Report(p, base) => Outcome(job, ReportIssue(job, p, base))
    case ProposeChange(p, i, baseAmount, adjustments) => Outcome(job, Propose(job, p, i, baseAmount, adjustments))
    case AskToClarify(i) => Outcome(job, Clarify(job, i))
    case ExplainChange(i) => Outcome(job, Explain(job, i))
    case JudgeChange(p, i, approve) => Outcome(job, DecideChange(job, p, i, approve))
    case Submit(p, command, id) =>
      if FreshSubmission(job, id) then Outcome(job, SubmitCompletion(job, p, command, id, w.now)) else job
    case Ask(p, reference, hash, submission, id) =>
      if FreshRequest(job, id) then Outcome(job, CreateRequest(job, p, reference, hash, submission, id, w.now)) else job
    case Revoke(p, i, reason) => Outcome(job, RevokeRequest(job, p, i, reason, w.now))
    case Decide(p, i, confirm, hash) => Outcome(job, DecideRequest(job, p, i, confirm, hash, retention, w.now))
    case Confirm(p, role, scope, evidence) =>
      Outcome(job, ConfirmCompletion(job, p, role, scope, evidence, retention, w.now))
  }

  function Step(retention: nat, w: World, action: Action): World {
    World(if action.Tick? then w.now + action.elapsed else w.now, Apply(retention, w, action))
  }

  function Run(retention: nat, w: World, actions: seq<Action>): World
    decreases |actions|
  {
    if actions == [] then w else Run(retention, Step(retention, w, actions[0]), actions[1..])
  }

  function After(retention: nat, actions: seq<Action>): World {
    Run(retention, INITIAL, actions)
  }
}
