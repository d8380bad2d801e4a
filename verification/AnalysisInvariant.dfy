/**
 What every reachable state of the analysis protocol satisfies, and what every
 action may change.
 */
module AnalysisInvariant {
  import opened Common
  import opened AnalysisContracts
  import opened AnalysisRows
  import opened AnalysisWorld

  // ---------------------------------------------------------- per analysis

  predicate RunOk(row: RunRow, dispatch: Dispatch) {
    && RunRowOk(row)
    && row.status != RunPending
    && row.id == dispatch.run
    && row.capture == dispatch.capture
    && 1 <= row.attempt <= MAX_ATTEMPTS
    && (row.result.Some? ==> row.result.value.run == dispatch.run && row.result.value.capture == dispatch.capture)
  }

  /** A retryable failure is only given up on once the run has used the attempts of its bound. */
  predicate Exhausted(run: Option<RunRow>, failure: Failure) {
    failure.retryable ==>
      && run.Some?
      && run.value.attempt >= Bound(failure)
      && (Bound(failure) == MAX_ATTEMPTS ==> run.value.status == RunFailed)
  }

  /** The joint state of the two layers. */
  predicate Joint(a: Analysis) {
    && DispatchRowOk(a.dispatch)
    && (a.run.Some? ==> RunOk(a.run.value, a.dispatch) && Rank(a.dispatch.status) >= Rank(Running))
    && (a.dispatch.status == Completed <==> a.draft.Some?)
    && (a.draft.Some? ==>
          && a.dispatch.scope == Some(a.draft.value.id)
          && a.run.Some?
          && a.run.value.result == Some(a.draft.value.source))
    && (a.dispatch.failure.Some? ==> Exhausted(a.run, a.dispatch.failure.value))
    && (a.dispatch.status in {Pending, Dispatching} ==> a.dispatch.taskId.None?)
    && (a.dispatch.status == Dispatching ==> a.dispatch.attempts >= 1)
  }

  /** What the rows of an analysis owe to the queue and to its messages. */
  predicate Backing(w: World, a: Analysis) {
    && (a.dispatch.token.Some? ==> a.dispatch.token.value in w.usedTokens)
    && (a.dispatch.taskId.Some? ==>
          a.dispatch.run in w.queue.enqueued && a.dispatch.taskId.value == w.queue.enqueued[a.dispatch.run])
    && (a.draft.Some? ==> a.draft.value.id in w.usedScopes)
    && (a.dispatch.status in {Queued, Running} ==> Delivered(TaskOf(a.dispatch)) in w.messages)
  }

  /** The outbox holds its submission and, once it is terminal, its one outcome. */
  predicate Recorded(w: World, a: Analysis) {
    EventsOf(w.outbox, a.dispatch.run)
    == [CaptureSubmitted(a.dispatch.run, a.dispatch.capture)] + CaptureEvents(a.dispatch)
  }

  predicate AnalysisOk(w: World, run: RunId, a: Analysis) {
    a.dispatch.run == run && Joint(a) && Backing(w, a) && Recorded(w, a)
  }

  // ------------------------------------------------------------ per message

  predicate TaskOk(w: World, task: Task) {
    task.run in w.analyses && task == TaskOf(w.analyses[task.run].dispatch)
  }

  predicate TakenOk(w: World, task: Task) {
    TaskOk(w, task) && Rank(w.analyses[task.run].dispatch.status) >= Rank(Running)
  }

  predicate OpenedOk(w: World, task: Task) {
    TakenOk(w, task) && w.analyses[task.run].run.Some?
  }

  predicate MessageOk(w: World, message: Message) {
    match message
    case Leased(claim) => TaskOk(w, claim.task) && claim.token in w.usedTokens
    case Reported(claim, outcome) =>
      && TaskOk(w, claim.task)
      && (outcome.Accepted? ==>
            && Delivered(claim.task) in w.messages
            && claim.task.run in w.queue.enqueued
            && w.queue.enqueued[claim.task.run] == outcome.taskId)
    case Delivered(task) => TaskOk(w, task)
    case Taken(task) => TakenOk(w, task)
    case InputsFound(task) => TakenOk(w, task)
    case RunOpened(task) => OpenedOk(w, task)
    case Calling(task) => OpenedOk(w, task)
    case Answered(task, answer) => OpenedOk(w, task) && AnswersFor(task, answer)
    case RunSucceeded(task) => OpenedOk(w, task) && w.analyses[task.run].run.value.status == RunCompleted
    case RunEndedFailed(task, _) => OpenedOk(w, task)
    case GivingUp(task, failure) => TakenOk(w, task) && Exhausted(w.analyses[task.run].run, failure)
  }

  // ------------------------------------------------------------------ global

  ghost predicate QueueOk(cfg: Config, w: World) {
    && w.queue.requests.Keys == w.queue.enqueued.Keys
    && (forall run :: run in w.queue.requests ==>
          run in w.analyses && w.queue.requests[run] == RequestOf(cfg, TaskOf(w.analyses[run].dispatch)))
  }

  /** One dispatch per capture, and one analysis per imported scope version. */
  ghost predicate Separate(w: World) {
    && (forall r, s :: r in w.analyses && s in w.analyses && r != s ==>
          w.analyses[r].dispatch.capture != w.analyses[s].dispatch.capture)
    && (forall r, s :: r in w.analyses && s in w.analyses && r != s && w.analyses[r].draft.Some? && w.analyses[s].draft.Some? ==>
          w.analyses[r].draft.value.id != w.analyses[s].draft.value.id)
  }

  ghost predicate Inv(cfg: Config, w: World) {
    && QueueOk(cfg, w)
    && Separate(w)
    && (forall run :: run in w.analyses ==> AnalysisOk(w, run, w.analyses[run]))
    && (forall m :: m in w.messages ==> MessageOk(w, m))
    && (forall e :: e in w.outbox ==> e.run in w.analyses)
  }

  // ---------------------------------------------------- what actions change

  predicate RunAdvances(row: RunRow, row': RunRow) {
    && row'.id == row.id
    && row'.capture == row.capture
    && row.attempt <= row'.attempt
    && (row.status == RunCompleted ==> row' == row)
    && (row.status == RunFailed && row.attempt == MAX_ATTEMPTS ==>
          && row'.status == RunFailed
          && row'.attempt == MAX_ATTEMPTS
          && (row.cause.Some? ==> row'.cause.Some? && row'.cause.value.kind == row.cause.value.kind))
  }

  predicate Terminated(row: Dispatch) {
    row.status in {Completed, Failed}
  }

  predicate DispatchAdvances(row: Dispatch, row': Dispatch) {
    && TaskOf(row') == TaskOf(row)
    && row'.moveJob == row.moveJob
    && Rank(row.status) <= Rank(row'.status)
    && (row.taskId.Some? ==> row'.taskId == row.taskId)
    && (Terminated(row) ==>
          && row'.status == row.status
          && row'.scope == row.scope
          && row'.completedAt == row.completedAt
          && (row.failure.Some? ==>
                && row'.failure.Some?
                && row'.failure.value.cause.kind == row.failure.value.cause.kind
                && row'.failure.value.retryable == row.failure.value.retryable))
  }

  predicate AnalysisAdvances(a: Analysis, a': Analysis) {
    && DispatchAdvances(a.dispatch, a'.dispatch)
    && (a.run.Some? ==> a'.run.Some? && RunAdvances(a.run.value, a'.run.value))
    && (a.draft.Some? ==> a'.draft == a.draft)
  }

  ghost predicate Advances(w: World, w': World) {
    && w.usedTokens <= w'.usedTokens
    && w.usedScopes <= w'.usedScopes
    && w.messages <= w'.messages
    && w.outbox <= w'.outbox
    && (forall run :: run in w.queue.enqueued ==>
          run in w'.queue.enqueued && w'.queue.enqueued[run] == w.queue.enqueued[run])
    && (forall run :: run in w.analyses ==>
          run in w'.analyses && AnalysisAdvances(w.analyses[run], w'.analyses[run]))
  }
}
