/**
 When each command of the media protocol has an effect in a reachable state, and
 which one, in terms of the stored columns. Several guards of the source turn out
 to be redundant there; what is left is what a caller has to know.
 */
module MediaCommands {
  import opened Common
  import opened BackgroundJobs
  import opened MediaWorld
  import opened MediaInvariant
  import opened MediaSteps
  import opened MediaActions
  import opened MediaTheorems
  import opened MediaLeases

  /** A transaction that writes the rows of one asset, and at most sends, spends a token or appends an event. */
  predicate Writes(w: World, w': World, a: AssetId, m: Media) {
    w' == w.(media := w.media[a := m], messages := w'.messages, usedTokens := w'.usedTokens, outbox := w'.outbox)
  }

  // ------------------------------------------------------------- dispatching

  /** What a queue answer does to a row. */
  predicate Answered(job: Job, job': Job, claim: Claim, outcome: DispatchOutcome, now: Time) {
    if job.token == Some(claim.token) then
      match outcome {
        case Accepted(taskId) => job' == job.(status := Queued, token := None, lockedUntil := None, taskId := Some(taskId))
        case Refused(code) =>
          job' == job.(status := Failed, token := None, lockedUntil := None, errorCode := Some(code), completedAt := Some(now))
      }
    else if outcome.Accepted? && job.attempt == claim.task.attempt && Rank(job.status) >= Rank(Queued) then
      job' == job.(taskId := Some(outcome.taskId))
    else
      job' == job
  }

  lemma FinalizeEffect(cfg: Config, w: World, claim: Claim, outcome: DispatchOutcome)
    requires Inv(cfg, w) && Reported(claim, outcome) in w.messages
    ensures var id := claim.task.job;
            var w' := Step(cfg, w, FinalizeClaim(claim, outcome));
            && HasJob(w, id) && HasJob(w', id)
            && Answered(TheJob(w, id), TheJob(w', id), claim, outcome, w.now)
            && Writes(w, w', id.asset, WithJob(w.media[id.asset], TheJob(w', id)))
  {
    hide Inv, Backed, MetadataAgrees;
    var id := claim.task.job;
    MessageIn(cfg, w, Reported(claim, outcome));
    MediaIn(cfg, w, id.asset);
    JobIdOf(w.media[id.asset], id.kind);
    QueueAnswer(cfg, w, claim, outcome);
    hide Joint, JobOk;
  }

  /** The queue has one answer for an attempt. */
  lemma QueueAnswer(cfg: Config, w: World, claim: Claim, outcome: DispatchOutcome)
    requires Inv(cfg, w) && Reported(claim, outcome) in w.messages && HasJob(w, claim.task.job)
    ensures var job := TheJob(w, claim.task.job);
            outcome.Accepted? && job.attempt == claim.task.attempt && job.taskId.Some? ==> job.taskId == Some(outcome.taskId)
  {
    hide Inv;
    MessageIn(cfg, w, Reported(claim, outcome));
    MediaIn(cfg, w, claim.task.job.asset);
    JobIdOf(w.media[claim.task.job.asset], claim.task.job.kind);
  }

  /** An answer is counted exactly if it ended its lease, or is the task ID of an attempt that got past its dispatch. */
  lemma AnswerIsCountedIff(cfg: Config, w: World, claim: Claim, outcome: DispatchOutcome)
    requires Inv(cfg, w) && Reported(claim, outcome) in w.messages && HasJob(w, claim.task.job)
    ensures var job := TheJob(w, claim.task.job);
            Finalized(job, claim, outcome, w.now).1 <==>
              || job.token == Some(claim.token)
              || (outcome.Accepted? && job.attempt == claim.task.attempt && Rank(job.status) >= Rank(Queued))
  {
    QueueAnswer(cfg, w, claim, outcome);
    MessageIn(cfg, w, Reported(claim, outcome));
    RowId(cfg, w, claim.task.job);
    hide Inv, Finalized;
    CountedRow(TheJob(w, claim.task.job), claim, outcome, w.now);
  }

  lemma CountedRow(job: Job, claim: Claim, outcome: DispatchOutcome, now: Time)
    requires (job.token.Some? <==> job.status == Dispatching) && job.trace == claim.task.trace
    requires outcome.Accepted? && job.attempt == claim.task.attempt && job.taskId.Some? ==> job.taskId == Some(outcome.taskId)
    ensures Finalized(job, claim, outcome, now).1 <==>
              || job.token == Some(claim.token)
              || (outcome.Accepted? && job.attempt == claim.task.attempt && Rank(job.status) >= Rank(Queued))
  {
  }

  /**
   A queue answer ends the lease it was asked for under, whichever way it went. After that lease it only ever adds the
   task ID of an attempt that got past its dispatch, and an error then changes nothing.
   */
  lemma QueueAnswersEndTheirLease(cfg: Config, actions: seq<Action>, claim: Claim, outcome: DispatchOutcome)
    requires Reported(claim, outcome) in After(cfg, actions).messages
    ensures var w := After(cfg, actions);
            var w' := Step(cfg, w, FinalizeClaim(claim, outcome));
            && HasJob(w, claim.task.job) && HasJob(w', claim.task.job)
            && Answered(TheJob(w, claim.task.job), TheJob(w', claim.task.job), claim, outcome, w.now)
  {
    hide Inv, Step, After, Answered, Writes;
    Reachable(cfg, actions);
    FinalizeEffect(cfg, After(cfg, actions), claim, outcome);
  }

  // ----------------------------------------------------------------- retries

  /** An attempt that failed, or ran out of its time on an object that still is to be processed. */
  predicate Retriable(w: World, id: JobId)
    requires HasJob(w, id)
  {
    var job := TheJob(w, id);
    || job.status == Failed
    || (&& job.status == Running && job.deadline.Some? && job.deadline.value <= w.now
        && (id.kind == Validation ==> w.media[id.asset].asset.status != Deleted))
  }

  /** Everything about the ended attempt is cleared but its number; the row is due at once. */
  function Requeued(job: Job, now: Time): Job {
    Job(job.id, job.moveJob, Pending, job.objectKey, job.generation, job.contentType, job.sizeBytes, job.trace, now,
        job.attempt, job.token, job.lockedUntil, None, None, job.lastAttemptAt, None, None)
  }

  lemma RetryEffect(cfg: Config, w: World, id: JobId)
    requires Inv(cfg, w)
    ensures var w' := Step(cfg, w, Retry(id));
            && (w' != w <==> HasJob(w, id) && Retriable(w, id))
            && (w' != w ==>
                  && HasJob(w', id) && TheJob(w', id) == Requeued(TheJob(w, id), w.now)
                  && w'.media[id.asset].asset ==
                     (if id.kind == Validation && TheJob(w, id).status == Running
                      then w.media[id.asset].asset.(status := AssetFailed, sha256 := None) else w.media[id.asset].asset)
                  && w' == w.(media := w.media[id.asset := w'.media[id.asset]]))
  {
    hide Inv, Backed;
    if HasJob(w, id) {
      MediaIn(cfg, w, id.asset);
      JobIdOf(w.media[id.asset], id.kind);
      hide JobOk, AssetOk;
      assert Retriable(w, id) ==> TheJob(Step(cfg, w, Retry(id)), id).status == Pending;
    }
  }

  /** The row has run in this attempt since the deadline was set; in a later attempt nothing is said. */
  ghost predicate RunningUntil(w: World, id: JobId, started: Job, until: Time) {
    && HasJob(w, id) && JobAdvances(started, TheJob(w, id))
    && (TheJob(w, id).status == Running && TheJob(w, id).attempt == started.attempt ==> TheJob(w, id).deadline == Some(until))
  }

  lemma StepRunning(cfg: Config, w: World, action: Action, id: JobId, started: Job, until: Time)
    requires Inv(cfg, w) && RunningUntil(w, id, started, until) && started.status == Running
    ensures RunningUntil(Step(cfg, w, action), id, started, until)
  {
    hide Inv, Step, Advances, SameTarget;
    var w' := Step(cfg, w, action);
    StepSettles(cfg, w, action, id);
    StepKeeps(cfg, w, action);
    JobStays(w, w', id);
    JobAdvancesTransitive(started, TheJob(w, id), TheJob(w', id));
    RowId(cfg, w, id);
    if action.Start? && action.task.job == id && Rank(TheJob(w, id).status) >= Rank(Running) {
      StartKeepsRunning(cfg, w, action.task);
    }
  }

  lemma JobAdvancesTransitive(job: Job, job1: Job, job2: Job)
    requires JobAdvances(job, job1) && JobAdvances(job1, job2)
    ensures JobAdvances(job, job2)
  {
  }

  lemma {:induction false} RunRunning(cfg: Config, w: World, more: seq<Action>, id: JobId, started: Job, until: Time)
    requires Inv(cfg, w) && RunningUntil(w, id, started, until) && started.status == Running
    ensures Inv(cfg, Run(cfg, w, more)) && RunningUntil(Run(cfg, w, more), id, started, until)
    decreases |more|
  {
    hide Inv, Step, RunningUntil;
    if more != [] {
      StepRunning(cfg, w, more[0], id, started, until);
      StepKeeps(cfg, w, more[0]);
      RunRunning(cfg, Step(cfg, w, more[0]), more[1..], id, started, until);
    }
  }

  // ------------------------------------------------------------------ starts

  /** The row a delivery takes over, with its time limit. */
  function Began(job: Job, now: Time, timeout: nat): Job {
    Job(job.id, job.moveJob, Running, job.objectKey, job.generation, job.contentType, job.sizeBytes, job.trace,
        job.scheduledAt, job.attempt, None, None, job.taskId, job.errorCode, job.lastAttemptAt, Some(now + timeout),
        job.completedAt)
  }

  /** The attempt of the task is leased or queued, and for a validation its asset waits for one. */
  predicate Startable(w: World, task: Task)
    requires HasJob(w, task.job)
  {
    && TheJob(w, task.job).attempt == task.attempt
    && TheJob(w, task.job).status in {Dispatching, Queued}
    && (task.job.kind == Validation ==> w.media[task.job.asset].asset.status in {Uploaded, AssetFailed})
  }

  lemma StartEffect(cfg: Config, w: World, task: Task)
    requires Inv(cfg, w) && Delivered(task) in w.messages
    ensures var id := task.job;
            var w' := Step(cfg, w, Start(task));
            && HasJob(w, id) && HasJob(w', id)
            && (if Startable(w, task) then
                  && TheJob(w', id) == Began(TheJob(w, id), w.now, cfg.executionTimeout)
                  && w'.media[id.asset].asset ==
                     (if id.kind == Validation then w.media[id.asset].asset.(status := Processing, sha256 := None)
                      else w.media[id.asset].asset)
                else w'.media == w.media)
  {
    if task.job.kind == Validation { StartValidationEffect(cfg, w, task); } else { StartDeletionEffect(cfg, w, task); }
  }

  lemma StartedValidationRow(job: Job, asset: Asset, task: Task, now: Time, timeout: nat)
    requires job.id.kind == Validation && TargetShape(job) && job.trace == task.trace
    requires asset.status in {Uploaded, AssetFailed} ==> PinnedTo(job, asset)
    ensures var r := StartedValidation(job, asset, task, now, timeout);
            if job.attempt == task.attempt && job.status in {Dispatching, Queued} && asset.status in {Uploaded, AssetFailed} then
              && r.Ok? && r.value.0 == Began(job, now, timeout) && r.value.1 == asset.(status := Processing, sha256 := None)
              && r.value.2.Some?
            else r.Ok? ==> r.value.0 == job && r.value.1 == asset
  {
    hide PinnedTo;
  }

  lemma StartedDeletionRow(job: Job, task: Task, now: Time, timeout: nat)
    requires job.id.kind == Deletion && job.trace == task.trace
    ensures var r := StartedDeletion(job, task, now, timeout);
            if job.attempt == task.attempt && job.status in {Dispatching, Queued} then
              r.Ok? && r.value.0 == Began(job, now, timeout) && r.value.1.Some?
            else r.Ok? ==> r.value.0 == job
  {
  }

  /** A delivered task is for a row of its own trace, still pinned to its asset while that waits for a validation. */
  lemma DeliveredTask(cfg: Config, w: World, task: Task)
    requires Inv(cfg, w) && Delivered(task) in w.messages
    ensures HasJob(w, task.job)
    ensures var job, asset := TheJob(w, task.job), w.media[task.job.asset].asset;
            && job.id == task.job && job.trace == task.trace && TargetShape(job)
            && (task.job.kind == Validation && asset.status in {Uploaded, AssetFailed} ==> PinnedTo(job, asset))
  {
    MessageIn(cfg, w, Delivered(task));
    MediaIn(cfg, w, task.job.asset);
    JobIdOf(w.media[task.job.asset], task.job.kind);
    hide Inv, Backed;
  }

  lemma StartValidationEffect(cfg: Config, w: World, task: Task)
    requires Inv(cfg, w) && Delivered(task) in w.messages && task.job.kind == Validation
    ensures var id := task.job;
            var w' := Step(cfg, w, Start(task));
            && HasJob(w, id) && HasJob(w', id)
            && (if Startable(w, task) then
                  && TheJob(w', id) == Began(TheJob(w, id), w.now, cfg.executionTimeout)
                  && w'.media[id.asset].asset == w.media[id.asset].asset.(status := Processing, sha256 := None)
                else w'.media == w.media)
  {
    hide Inv, DoStart, StartedValidation;
    DeliveredTask(cfg, w, task);
    StartWrites(cfg, w, task);
    StartedValidationRow(TheJob(w, task.job), w.media[task.job.asset].asset, task, w.now, cfg.executionTimeout);
    hide PinnedTo, TargetShape;
    SameMediaWrite(w, task.job);
  }

  lemma StartDeletionEffect(cfg: Config, w: World, task: Task)
    requires Inv(cfg, w) && Delivered(task) in w.messages && task.job.kind == Deletion
    ensures var id := task.job;
            var w' := Step(cfg, w, Start(task));
            && HasJob(w, id) && HasJob(w', id)
            && (if Startable(w, task) then
                  && TheJob(w', id) == Began(TheJob(w, id), w.now, cfg.executionTimeout)
                  && w'.media[id.asset].asset == w.media[id.asset].asset
                else w'.media == w.media)
  {
    hide Inv, DoStart, StartedDeletion;
    DeliveredTask(cfg, w, task);
    StartWrites(cfg, w, task);
    StartedDeletionRow(TheJob(w, task.job), task, w.now, cfg.executionTimeout);
    SameMediaWrite(w, task.job);
  }

  lemma SameMediaWrite(w: World, id: JobId)
    requires HasJob(w, id) && TheJob(w, id).id.kind == id.kind
    ensures var m := w.media[id.asset];
            w.media[id.asset := WithJob(m, TheJob(w, id)).(asset := m.asset)] == w.media
    ensures w.media[id.asset := WithJob(w.media[id.asset], TheJob(w, id))] == w.media
  {
    assert WithJob(w.media[id.asset], TheJob(w, id)) == w.media[id.asset];
  }

  /** A start of an attempt that already got past its start leaves the row alone. */
  lemma StartKeepsRunning(cfg: Config, w: World, task: Task)
    requires Inv(cfg, w) && HasJob(w, task.job) && Rank(TheJob(w, task.job).status) >= Rank(Running)
    ensures var w' := Step(cfg, w, Start(task)); HasJob(w', task.job) && TheJob(w', task.job) == TheJob(w, task.job)
  {
    hide Inv, StartedValidation, StartedDeletion;
    if Delivered(task) in w.messages { StartEffect(cfg, w, task); }
  }

  /** A delivery has an effect on the rows exactly for the current attempt before it was taken over; a repeated one has none. */
  lemma StartTakesEffectIff(cfg: Config, actions: seq<Action>, task: Task)
    requires Delivered(task) in After(cfg, actions).messages
    ensures var w := After(cfg, actions);
            var w' := Step(cfg, w, Start(task));
            && HasJob(w, task.job) && HasJob(w', task.job)
            && (if Startable(w, task)
                then TheJob(w', task.job) == Began(TheJob(w, task.job), w.now, cfg.executionTimeout)
                else w'.media == w.media)
  {
    hide Inv, Step, After, Startable, Began;
    Reachable(cfg, actions);
    StartEffect(cfg, After(cfg, actions), task);
  }

  /**
   An execution keeps its attempt for its whole time limit and no longer: once a delivery took an attempt over, a retry
   while it is still running in that attempt is accepted exactly from the time limit on, and for a validation only
   while its asset is not deleted.
   */
  lemma ExecutionTimesOutIff(cfg: Config, actions: seq<Action>, more: seq<Action>, task: Task)
    requires var w := After(cfg, actions);
             && Delivered(task) in w.messages && HasJob(w, task.job) && Startable(w, task)
    requires var w' := Run(cfg, Step(cfg, After(cfg, actions), Start(task)), more);
             HasJob(w', task.job) && TheJob(w', task.job).status == Running && TheJob(w', task.job).attempt == task.attempt
    ensures var w := After(cfg, actions);
            var w' := Run(cfg, Step(cfg, w, Start(task)), more);
            Step(cfg, w', Retry(task.job)) != w' <==>
              && w'.now >= w.now + cfg.executionTimeout
              && (task.job.kind == Validation ==> w'.media[task.job.asset].asset.status != Deleted)
  {
    hide Inv, Step, After, Requeued;
    Reachable(cfg, actions);
    var w := After(cfg, actions);
    StartEffect(cfg, w, task);
    StepKeeps(cfg, w, Start(task));
    var w1 := Step(cfg, w, Start(task));
    RunRunning(cfg, w1, more, task.job, TheJob(w1, task.job), w.now + cfg.executionTimeout);
    RetryEffect(cfg, Run(cfg, w1, more), task.job);
    hide Advances;
  }

  // -------------------------------------------------------------- rejections

  /**
   A delivery of another attempt or trace is told that there is no such task, one that comes before its dispatch is a
   conflict, and a repeated one gets the same work.
   */
  lemma DeliveryRejections(cfg: Config, w: World, task: Task)
    requires Inv(cfg, w) && HasJob(w, task.job)
    ensures task.job.kind == Validation ==>
              TargetShape(TheJob(w, task.job))
    ensures task.job.kind == Validation ==>
              var job, asset := TheJob(w, task.job), w.media[task.job.asset].asset;
              var r := StartedValidation(job, asset, task, w.now, cfg.executionTimeout);
              && (r == Err(JobNotFound) <==> job.attempt != task.attempt || job.trace != task.trace)
              && (r == Err(JobConflict) <==>
                    job.attempt == task.attempt && job.trace == task.trace
                    && (job.status == Pending
                        || (asset.status !in {Uploaded, AssetFailed} && job.status in {Dispatching, Queued})
                        || (asset.status != Processing && job.status == Running)))
              && var work := ValidationWork(job.id, job.attempt, job.objectKey, job.generation, job.contentType.value,
                                            job.sizeBytes.value);
                 (r.Ok? ==> r.value.2 == if job.status == Succeeded || job.status == Failed then None else Some(work))
    ensures task.job.kind == Deletion ==>
              var job := TheJob(w, task.job);
              var r := StartedDeletion(job, task, w.now, cfg.executionTimeout);
              && (r == Err(JobNotFound) <==> job.attempt != task.attempt || job.trace != task.trace)
              && (r == Err(JobConflict) <==> job.attempt == task.attempt && job.trace == task.trace && job.status == Pending)
              && var work := DeletionWork(job.id, job.attempt, job.moveJob, job.objectKey, job.generation);
                 (r.Ok? ==> r.value.1 == if job.status == Succeeded || job.status == Failed then None else Some(work))
  {
    hide Inv;
    MediaIn(cfg, w, task.job.asset);
    JobIdOf(w.media[task.job.asset], task.job.kind);
    hide Joint, Backed, PinnedTo;
  }
}
