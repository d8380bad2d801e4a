/**
 Both layers of the analysis protocol as one state machine: any number of
 dispatch passes and task deliveries for any number of captures, each transaction
 one atomic action. What a delivery carries from one transaction to the next is a
 message; messages are kept, so a delivery may be delayed, repeated or abandoned
 at any point. A command that raises leaves the state as it was.
 */
module AnalysisWorld {
  import opened Common
  import opened Ports
  import opened AnalysisContracts
  import opened AnalysisRows

  /** The editable scope version imported from a result. */
  datatype Draft = Draft(id: ScopeId, source: AnalysisResult)

  datatype Analysis = Analysis(dispatch: Dispatch, run: Option<RunRow>, draft: Option<Draft>)

  datatype Message =
    | Leased(claim: Claim)
    | Reported(claim: Claim, outcome: DispatchOutcome)
    | Delivered(task: Task)
    | Taken(task: Task)
    | InputsFound(task: Task)
    | RunOpened(task: Task)
    | Calling(task: Task)
    | Answered(task: Task, answer: Answer)
    | RunSucceeded(task: Task)
    | RunEndedFailed(task: Task, failure: Failure)
    | GivingUp(task: Task, failure: Failure)

  datatype Event =
    | CaptureSubmitted(run: RunId, capture: CaptureId)
    | AnalysisCompleted(run: RunId, capture: CaptureId, scope: ScopeId)
    | AnalysisFailed(run: RunId, capture: CaptureId, kind: ErrorCode, retryable: bool)

  datatype World = World(
    now: Time,
    analyses: map<RunId, Analysis>,
    queue: TaskQueue<RunId, Task>,
    usedTokens: set<Token>,
    usedScopes: set<ScopeId>,
    messages: set<Message>,
    outbox: seq<Event>)

  const INITIAL := World(0, map[], TaskQueue(map[], map[]), {}, {}, {}, [])

  datatype Config = Config(leaseSeconds: nat, queueName: string, handler: string)

  /** How a queue call ended for its caller. */
  datatype EnqueueFault = NoFault | LostReply(code: ErrorCode) | NotSent(code: ErrorCode)

  datatype Action =
    | Tick(elapsed: nat)
    | Submit(run: RunId, capture: CaptureId, moveJob: MoveJobId, trace: string,
             consented: bool, jobOpen: bool, inventory: seq<bool>)
    | ClaimCapture(run: RunId, token: Token)
    | EnqueueClaim(claim: Claim, sending: EnqueueFault)
    | FinalizeClaim(claim: Claim, outcome: DispatchOutcome)
    | StartCapture(task: Task)
    | LookUpInputs(task: Task, found: bool)
    | OpenRun(task: Task)
    | ReadRun(task: Task)
    | CallProvider(task: Task, answer: Answer)
    | RecordResult(task: Task, result: AnalysisResult)
    | RecordFailure(task: Task, failure: Failure)
    | FinishCapture(task: Task, imported: Option<ScopeId>)
    | PrepareRetry(task: Task, failure: Failure)
    | FailCapture(task: Task, failure: Failure)

  function Send(w: World, m: Message): World {
    w.(messages := w.messages + {m})
  }

  /** One transaction on the rows of one analysis, with what its caller learns and what it appends to the outbox. */
  function Commit(w: World, a: Analysis, sent: set<Message>, tokens: set<Token>, scopes: set<ScopeId>, events: seq<Event>)
    : World
  {
    w.(analyses := w.analyses[a.dispatch.run := a], messages := w.messages + sent, outbox := w.outbox + events,
       usedTokens := w.usedTokens + tokens, usedScopes := w.usedScopes + scopes)
  }

  function Update(w: World, a: Analysis, sent: set<Message>): World {
    Commit(w, a, sent, {}, {}, [])
  }

  predicate Known(w: World, task: Task) {
    task.run in w.analyses
  }

  // -------------------------------------------------- submission and dispatch

  predicate CaptureKnown(w: World, capture: CaptureId) {
    exists run :: run in w.analyses && w.analyses[run].dispatch.capture == capture
  }

  /** A stored intent answers a resubmission; a new one gets a fresh run ID and one event. */
  function DoSubmit(w: World, run: RunId, capture: CaptureId, moveJob: MoveJobId, trace: string,
                    consented: bool, jobOpen: bool, inventory: seq<bool>): World
  {
    if run in w.analyses || CaptureKnown(w, capture) then w
    else
      match Submitted(None, consented, jobOpen, inventory, run, capture, moveJob, trace, w.now)
      case Err(_) => w
      case Ok(row) => Commit(w, Analysis(row, None, None), {}, {}, {}, [CaptureSubmitted(run, capture)])
  }

  function DoClaim(cfg: Config, w: World, run: RunId, token: Token): World {
    if run !in w.analyses || !Due(w.analyses[run].dispatch, w.now) || token in w.usedTokens then w
    else
      var a := w.analyses[run];
      var row := Claimed(a.dispatch, w.now, cfg.leaseSeconds, token);
      Commit(w, a.(dispatch := row), {Leased(Claim(TaskOf(row), token))}, {token}, {}, [])
  }

  function RequestOf(cfg: Config, task: Task): QueueRequest<Task> {
    QueueRequest(cfg.queueName, cfg.handler, task, None)
  }

  /** Every attempt of a capture uses the same key, so the queue holds at most one task for it. */
  function DoEnqueue(cfg: Config, w: World, claim: Claim, fault: EnqueueFault): World {
    if Leased(claim) !in w.messages then w
    else if fault.NotSent? then Send(w, Reported(claim, Refused(fault.code)))
    else
      match Enqueue(w.queue, claim.task.run, RequestOf(cfg, claim.task))
      case Err(code) => Send(w, Reported(claim, Refused(code)))
      case Ok((queue, taskId)) =>
        var outcome := if fault.LostReply? then Refused(fault.code) else Accepted(taskId);
        Send(Send(w.(queue := queue), Delivered(claim.task)), Reported(claim, outcome))
  }

  function DoFinalize(w: World, claim: Claim, outcome: DispatchOutcome): World {
    if Reported(claim, outcome) !in w.messages || !Known(w, claim.task) then w
    else
      var a := w.analyses[claim.task.run];
      Update(w, a.(dispatch := Finalized(a.dispatch, claim, outcome, w.now).0), {})
  }

  // ----------------------------------------------------------------- delivery

  function DoStart(w: World, task: Task): World {
    if Delivered(task) !in w.messages || !Known(w, task) then w
    else
      var a := w.analyses[task.run];
      match StartedCapture(a.dispatch, task)
      case Err(_) => w
      case Ok((row, active)) => if active then Update(w, a.(dispatch := row), {Taken(task)}) else w
  }

  function DoLookUp(w: World, task: Task, found: bool): World {
    if Taken(task) !in w.messages then w
    else Send(w, if found then InputsFound(task) else GivingUp(task, INPUTS_MISSING))
  }

  function DoOpenRun(w: World, task: Task): World {
    if InputsFound(task) !in w.messages || !Known(w, task) then w
    else
      var a := w.analyses[task.run];
      match StartedRun(a.run, task.run, task.capture, task.trace, w.now)
      case Err(_) => w
      case Ok(row) => Update(w, a.(run := Some(row)), {RunOpened(task)})
  }

  /** The one read that decides between replaying an outcome and calling the provider. */
  function DoReadRun(w: World, task: Task): World {
    if RunOpened(task) !in w.messages || !Known(w, task) || w.analyses[task.run].run.None? then w
    else
      var row := w.analyses[task.run].run.value;
      match row.status
      case RunCompleted => Send(w, RunSucceeded(task))
      case RunFailed =>
        if row.cause.None? then w
        else Send(w, RunEndedFailed(task, Failure(row.cause.value, RetryableKind(row.cause.value.kind))))
      case _ => Send(w, Calling(task))
  }

  function DoCallProvider(w: World, task: Task, answer: Answer): World {
    if Calling(task) !in w.messages || !AnswersFor(task, answer) then w else Send(w, Answered(task, answer))
  }

  function DoRecordResult(w: World, task: Task, result: AnalysisResult): World {
    if Answered(task, Analyzed(result)) !in w.messages || !Known(w, task) then w
    else
      var a := w.analyses[task.run];
      match CompletedRun(a.run, result, w.now)
      case Err(_) => w
      case Ok(row) => Update(w, a.(run := Some(row)), {RunSucceeded(task)})
  }

  function DoRecordFailure(w: World, task: Task, failure: Failure): World {
    if Answered(task, ProviderFailed(failure)) !in w.messages || !Known(w, task) then w
    else
      var a := w.analyses[task.run];
      match FailedRun(a.run, failure.cause, w.now)
      case Err(_) => w
      case Ok(row) => Update(w, a.(run := Some(row)), {RunEndedFailed(task, failure)})
  }

  function CaptureEvents(row: Dispatch): seq<Event> {
    match row.status
    case Completed => if row.scope.Some? then [AnalysisCompleted(row.run, row.capture, row.scope.value)] else []
    case Failed =>
      if row.failure.Some? then [AnalysisFailed(row.run, row.capture, row.failure.value.cause.kind, row.failure.value.retryable)]
      else []
    case _ => []
  }

  /** The result is loaded and imported in the transaction that completes the capture. */
  function DoFinish(w: World, task: Task, imported: Option<ScopeId>): World {
    if RunSucceeded(task) !in w.messages || !Known(w, task) || (imported.Some? && imported.value in w.usedScopes) then w
    else
      var a := w.analyses[task.run];
      if a.run.None? || a.run.value.status != RunCompleted || a.run.value.result.None? then DoFail(w, task, RESULT_MISSING)
      else
        var result := a.run.value.result.value;
        var existing := if a.draft.Some? then Some(a.draft.value.id) else None;
        match CompletedCapture(a.dispatch, task, result, existing, imported, w.now)
        case Err(_) => w
        case Ok(row) =>
          if row == a.dispatch then w
          else
            var draft := if a.draft.Some? || row.scope.None? then a.draft else Some(Draft(row.scope.value, result));
            var scopes := if row.scope.Some? then {row.scope.value} else {};
            Commit(w, a.(dispatch := row, draft := draft), {}, {}, scopes, CaptureEvents(row))
  }

  function DoPrepareRetry(w: World, task: Task, failure: Failure): World {
    if RunEndedFailed(task, failure) !in w.messages || !failure.retryable || !Known(w, task) then w
    else
      var a := w.analyses[task.run];
      var (row, decision) := PreparedRetry(a.run, Bound(failure), w.now);
      Update(w, a.(run := row), if decision == Terminal then {GivingUp(task, failure)} else {})
  }

  function DoFail(w: World, task: Task, failure: Failure): World {
    if !Known(w, task) then w
    else
      var a := w.analyses[task.run];
      match FailedCapture(a.dispatch, task, failure, w.now)
      case Err(_) => w
      case Ok((row, emitted)) => Commit(w, a.(dispatch := row), {}, {}, {}, if emitted then CaptureEvents(row) else [])
  }

  /** Reached for a failure that is not retryable, or after the retry was refused. */
  predicate MayGiveUp(w: World, task: Task, failure: Failure) {
    GivingUp(task, failure) in w.messages || (RunEndedFailed(task, failure) in w.messages && !failure.retryable)
  }

  // --------------------------------------------------------------------- runs

  function Step(cfg: Config, w: World, action: Action): World {
    match action
    case Tick(elapsed) => w.(now := w.now + elapsed)
    case Submit(run, capture, moveJob, trace, consented, jobOpen, inventory) =>
      DoSubmit(w, run, capture, moveJob, trace, consented, jobOpen, inventory)
    case ClaimCapture(run, token) => DoClaim(cfg, w, run, token)
    case EnqueueClaim(claim, fault) => DoEnqueue(cfg, w, claim, fault)
    case FinalizeClaim(claim, outcome) => DoFinalize(w, claim, outcome)
    case StartCapture(task) => DoStart(w, task)
    case LookUpInputs(task, found) => DoLookUp(w, task, found)
    case OpenRun(task) => DoOpenRun(w, task)
    case ReadRun(task) => DoReadRun(w, task)
    case CallProvider(task, answer) => DoCallProvider(w, task, answer)
    case RecordResult(task, result) => DoRecordResult(w, task, result)
    case RecordFailure(task, failure) => DoRecordFailure(w, task, failure)
    case FinishCapture(task, imported) => DoFinish(w, task, imported)
    case PrepareRetry(task, failure) => DoPrepareRetry(w, task, failure)
    case FailCapture(task, failure) => if MayGiveUp(w, task, failure) then DoFail(w, task, failure) else w
  }

  function Run(cfg: Config, w: World, actions: seq<Action>): World
    decreases |actions|
  {
    if actions == [] then w else Run(cfg, Step(cfg, w, actions[0]), actions[1..])
  }

  function After(cfg: Config, actions: seq<Action>): World {
    Run(cfg, INITIAL, actions)
  }

  // ------------------------------------------------------------------- outbox

  /** The events about one run, in the order they were appended. */
  function EventsOf(outbox: seq<Event>, run: RunId): seq<Event>
    decreases |outbox|
  {
    if outbox == [] then []
    else
      var last := outbox[|outbox| - 1];
      EventsOf(outbox[..|outbox| - 1], run) + if last.run == run then [last] else []
  }
}
