/**
 The rows of the durable media-job tables as values, and every command on one
 job row (and its media asset row) as a function from the locked rows to the
 rows the transaction commits.

 A job is identified by its kind and its asset: the table has a unique
 constraint on that pair.
 */
module BackgroundJobs {
  import opened Common

  type Digest = string

  datatype JobKind = Validation | Deletion

  datatype JobId = JobId(kind: JobKind, asset: AssetId)

  datatype JobStatus = Pending | Dispatching | Queued | Running | Succeeded | Failed

  datatype AssetStatus = PendingUpload | Uploaded | Processing | Ready | AssetFailed | Deleted

  datatype Purpose = Inventory | Condition | ChangeEvidence | Completion

  datatype CommandError = JobNotFound | JobConflict

  datatype Job = Job(
    id: JobId,
    moveJob: MoveJobId,
    status: JobStatus,
    objectKey: string,
    generation: string,
    contentType: Option<string>,
    sizeBytes: Option<nat>,
    trace: string,
    scheduledAt: Time,
    attempt: nat,
    token: Option<Token>,
    lockedUntil: Option<Time>,
    taskId: Option<TaskId>,
    errorCode: Option<ErrorCode>,
    lastAttemptAt: Option<Time>,
    deadline: Option<Time>,
    completedAt: Option<Time>)

  datatype Asset = Asset(
    id: AssetId,
    moveJob: MoveJobId,
    purpose: Purpose,
    status: AssetStatus,
    objectKey: string,
    contentType: string,
    expectedSize: nat,
    actualSize: Option<nat>,
    generation: Option<string>,
    sha256: Option<Digest>)

  /** The queue message of both task types. */
  datatype Task = Task(job: JobId, attempt: nat, trace: string)

  /** A lease carried outside the claim transaction. */
  datatype Claim = Claim(task: Task, token: Token)

  /** What a dispatcher learned from the queue: exactly one of a task ID and an error. */
  datatype DispatchOutcome = Accepted(taskId: TaskId) | Refused(code: ErrorCode)

  datatype ValidationWork = ValidationWork(
    job: JobId, attempt: nat, objectKey: string, generation: string,
    contentType: string, sizeBytes: nat)

  datatype ValidationResult =
    | Validated(job: JobId, attempt: nat, generation: string,
                contentType: string, sizeBytes: nat, sha256: Digest)
    | ValidationFailed(job: JobId, attempt: nat, generation: string, kind: ErrorCode)

  datatype DeletionWork = DeletionWork(
    job: JobId, attempt: nat, moveJob: MoveJobId, objectKey: string, generation: string)

  datatype DeletionResult =
    | Erased(job: JobId, attempt: nat)
    | EraseFailed(job: JobId, attempt: nat, kind: ErrorCode)

  // ---------------------------------------------------------------- creation

  /** A generation that is present, not empty and not padded. */
  predicate Pinnable(generation: Option<string>) {
    && generation.Some?
    && generation.value != ""
    && !IsSpace(generation.value[0])
    && !IsSpace(generation.value[|generation.value| - 1])
  }

  /** The row both creation commands insert: pending, never attempted. */
  function NewJob(id: JobId, moveJob: MoveJobId, objectKey: string, generation: string,
                  contentType: Option<string>, sizeBytes: Option<nat>, trace: string, scheduledAt: Time): Job
  {
    Job(id, moveJob, Pending, objectKey, generation, contentType, sizeBytes, trace, scheduledAt,
        0, None, None, None, None, None, None, None)
  }

  function CreateValidation(asset: Asset, existing: Option<Job>, trace: string, now: Time)
    : Result<Job, CommandError>
  {
    if existing.Some? then
      Ok(existing.value)
    else if asset.status != Uploaded || !Pinnable(asset.generation) || asset.actualSize.None? then
      Err(JobConflict)
    else
      Ok(NewJob(JobId(Validation, asset.id), asset.moveJob, asset.objectKey, asset.generation.value,
                Some(asset.contentType), asset.actualSize, trace, now))
  }

  /** Records one deletion intent; a second one returns the stored row. */
  function CreateDeletion(asset: Asset, existing: Option<Job>, trace: string, scheduledAt: Time): Job
    requires asset.generation.Some?
  {
    if existing.Some? then
      existing.value
    else
      NewJob(JobId(Deletion, asset.id), asset.moveJob, asset.objectKey, asset.generation.value,
             None, None, trace, scheduledAt)
  }

  predicate Deletable(status: AssetStatus) {
    status in {Uploaded, Ready, AssetFailed}
  }

  /** Deletion intents outside the review path need a completed move job past the cutoff. */
  function CreateRetention(asset: Asset, existing: Option<Job>, moveCompletedAt: Option<Time>,
                           cutoff: Time, trace: string, scheduledAt: Time): Result<Job, CommandError>
  {
    if existing.Some? then
      Ok(existing.value)
    else if moveCompletedAt.None? || moveCompletedAt.value > cutoff
            || !Deletable(asset.status) || !Pinnable(asset.generation) then
      Err(JobConflict)
    else
      Ok(CreateDeletion(asset, None, trace, scheduledAt))
  }

  // ---------------------------------------------------------------- dispatch

  /** The rows the claim query selects. */
  predicate Due(job: Job, now: Time) {
    || (job.status == Pending && job.scheduledAt <= now)
    || (job.status == Dispatching && job.lockedUntil.Some? && job.lockedUntil.value <= now)
  }

  function Claimed(job: Job, now: Time, leaseSeconds: nat, token: Token): Job {
    var counted :=
      if job.status == Pending then job.(attempt := job.attempt + 1, lastAttemptAt := Some(now)) else job;
    counted.(status := Dispatching, token := Some(token), lockedUntil := Some(now + leaseSeconds))
  }

  function ClaimOf(job: Job, token: Token): Claim {
    Claim(Task(job.id, job.attempt, job.trace), token)
  }

  predicate HoldsLease(job: Job, claim: Claim) {
    job.status == Dispatching && job.token == Some(claim.token)
  }

  /** The attempt was taken over by a worker before its dispatcher reported. */
  predicate AlreadyAccepted(job: Job, claim: Claim, outcome: DispatchOutcome) {
    && outcome.Accepted?
    && job.attempt == claim.task.attempt
    && job.trace == claim.task.trace
    && job.status in {Queued, Running, Succeeded, Failed}
    && job.token.None?
    && (job.taskId.None? || job.taskId == Some(outcome.taskId))
  }

  /** The row after a dispatch outcome, and whether the outcome was recorded. */
  function Finalized(job: Job, claim: Claim, outcome: DispatchOutcome, now: Time): (Job, bool) {
    if !HoldsLease(job, claim) then
      if AlreadyAccepted(job, claim, outcome) then
        (job.(taskId := Some(outcome.taskId)), true)
      else
        (job, false)
    else
      var released := job.(token := None, lockedUntil := None);
      match outcome
      case Accepted(taskId) => (released.(status := Queued, taskId := Some(taskId)), true)
      case Refused(code) => (released.(status := Failed, errorCode := Some(code), completedAt := Some(now)), true)
  }

  predicate ExecutionExpired(job: Job, now: Time) {
    job.status == Running && job.deadline.Some? && job.deadline.value <= now
  }

  function Retried(job: Job, asset: Asset, now: Time): Result<(Job, Asset), CommandError> {
    var expired := ExecutionExpired(job, now);
    if job.status != Failed && !expired then
      Err(JobConflict)
    else if job.id.kind == Validation && expired && asset.status != Processing then
      Err(JobConflict)
    else
      var asset' :=
        if job.id.kind == Validation && expired then asset.(status := AssetFailed, sha256 := None) else asset;
      Ok((job.(status := Pending, scheduledAt := now, taskId := None, errorCode := None,
               deadline := None, completedAt := None),
          asset'))
  }

  // -------------------------------------------------------------- validation

  /** The target-shape check of the table, as far as a validation needs it. */
  predicate TargetShape(job: Job) {
    job.id.kind == Validation ==> job.contentType.Some? && job.sizeBytes.Some?
  }

  function WorkOfValidation(job: Job): ValidationWork
    requires job.contentType.Some? && job.sizeBytes.Some?
  {
    ValidationWork(job.id, job.attempt, job.objectKey, job.generation,
                   job.contentType.value, job.sizeBytes.value)
  }

  /** The asset still is the object the job was pinned to. */
  predicate PinnedTo(job: Job, asset: Asset) {
    && asset.objectKey == job.objectKey
    && asset.generation == Some(job.generation)
    && Some(asset.contentType) == job.contentType
    && asset.actualSize == job.sizeBytes
  }

  /** Rows after a start, and the work; no work for an attempt that already ended. */
  function StartedValidation(job: Job, asset: Asset, task: Task, now: Time, timeoutSeconds: nat)
    : Result<(Job, Asset, Option<ValidationWork>), CommandError>
    requires TargetShape(job)
  {
    if job.id.kind != Validation || job.attempt != task.attempt || job.trace != task.trace then
      Err(JobNotFound)
    else if job.status in {Succeeded, Failed} then
      Ok((job, asset, None))
    else if job.status == Running then
      if asset.status != Processing then Err(JobConflict)
      else Ok((job, asset, Some(WorkOfValidation(job))))
    else if job.status !in {Dispatching, Queued} then
      Err(JobConflict)
    else if asset.status !in {Uploaded, AssetFailed} || !PinnedTo(job, asset) then
      Err(JobConflict)
    else
      var job' := job.(token := None, lockedUntil := None, status := Running,
                       deadline := Some(now + timeoutSeconds));
      Ok((job', asset.(status := Processing, sha256 := None), Some(WorkOfValidation(job'))))
  }

  /** A terminal attempt accepts only the result it already holds. */
  predicate SameValidationResult(job: Job, asset: Asset, result: ValidationResult) {
    || (job.status == Succeeded && result.Validated? && asset.sha256 == Some(result.sha256))
    || (job.status == Failed && result.ValidationFailed? && job.errorCode == Some(result.kind))
  }

  function CompletedValidation(job: Job, asset: Asset, result: ValidationResult, now: Time)
    : Result<(Job, Asset), CommandError>
  {
    if job.id.kind != Validation || job.attempt != result.attempt
       || job.generation != result.generation || !PinnedTo(job, asset) then
      Err(JobConflict)
    else if result.Validated?
            && (Some(result.contentType) != job.contentType || Some(result.sizeBytes) != job.sizeBytes) then
      Err(JobConflict)
    else if job.status in {Succeeded, Failed} then
      if SameValidationResult(job, asset, result) then Ok((job, asset)) else Err(JobConflict)
    else if job.status != Running || asset.status != Processing then
      Err(JobConflict)
    else
      var ended := job.(completedAt := Some(now), deadline := None);
      match result
      case ValidationFailed(_, _, _, kind) =>
        Ok((ended.(status := Failed, errorCode := Some(kind)),
            asset.(status := AssetFailed, sha256 := None)))
      case Validated(_, _, generation, _, sizeBytes, sha256) =>
        Ok((ended.(status := Succeeded),
            asset.(status := Ready, generation := Some(generation), actualSize := Some(sizeBytes),
                   sha256 := Some(sha256))))
  }

  // ---------------------------------------------------------------- deletion

  function WorkOfDeletion(job: Job): DeletionWork {
    DeletionWork(job.id, job.attempt, job.moveJob, job.objectKey, job.generation)
  }

  function StartedDeletion(job: Job, task: Task, now: Time, timeoutSeconds: nat)
    : Result<(Job, Option<DeletionWork>), CommandError>
  {
    if job.id.kind != Deletion || job.attempt != task.attempt || job.trace != task.trace then
      Err(JobNotFound)
    else if job.status in {Succeeded, Failed} then
      Ok((job, None))
    else if job.status == Running then
      Ok((job, Some(WorkOfDeletion(job))))
    else if job.status !in {Dispatching, Queued} then
      Err(JobConflict)
    else
      var job' := job.(token := None, lockedUntil := None, status := Running,
                       deadline := Some(now + timeoutSeconds));
      Ok((job', Some(WorkOfDeletion(job'))))
  }

  predicate SameDeletionResult(job: Job, result: DeletionResult) {
    || (job.status == Succeeded && result.Erased?)
    || (job.status == Failed && result.EraseFailed? && job.errorCode == Some(result.kind))
  }

  /** Rows after a deletion result, and whether a media-deleted event was appended. */
  function CompletedDeletion(job: Job, asset: Asset, result: DeletionResult, now: Time)
    : Result<(Job, Asset, bool), CommandError>
  {
    if job.id.kind != Deletion || job.attempt != result.attempt then
      Err(JobConflict)
    else if job.status in {Succeeded, Failed} then
      if SameDeletionResult(job, result) then Ok((job, asset, false)) else Err(JobConflict)
    else if job.status != Running then
      Err(JobConflict)
    else
      var ended := job.(completedAt := Some(now), deadline := None);
      match result
      case EraseFailed(_, _, kind) => Ok((ended.(status := Failed, errorCode := Some(kind)), asset, false))
      case Erased(_, _) => Ok((ended.(status := Succeeded), asset.(status := Deleted), true))
  }

  // -------------------------------------------------------------- invariants

  /** The check constraints of the background_job table. */
  predicate RowOk(job: Job) {
    && (job.id.kind == Validation <==> job.contentType.Some?)
    && (job.id.kind == Validation <==> job.sizeBytes.Some?)
    && (job.sizeBytes.Some? ==> job.sizeBytes.value > 0)
    && job.generation != ""
    && ((job.attempt == 0) == job.lastAttemptAt.None?)
    && (job.status == Dispatching <==> job.token.Some?)
    && (job.status == Dispatching <==> job.lockedUntil.Some?)
    && (job.status == Failed <==> job.errorCode.Some?)
    && (job.status in {Succeeded, Failed} <==> job.completedAt.Some?)
    && (job.status == Running <==> job.deadline.Some?)
  }

  /** Beyond the table's own checks: an attempted row counts from one, and no task ID before acceptance. */
  predicate JobOk(job: Job) {
    && RowOk(job)
    && (job.status != Pending ==> job.attempt >= 1)
    && (job.status in {Pending, Dispatching} ==> job.taskId.None?)
  }

  /** The metadata-state check of the media_asset table, and when a digest may be stored. */
  predicate AssetOk(asset: Asset) {
    && (asset.status == PendingUpload <==> asset.actualSize.None?)
    && (asset.status == PendingUpload <==> asset.generation.None?)
    && (asset.generation.Some? ==> asset.generation.value != "")
    && (asset.actualSize.Some? ==> asset.actualSize.value > 0)
    && asset.expectedSize > 0
    && (asset.sha256.Some? ==> asset.status in {Ready, Deleted})
  }

  // ------------------------------------------------------------------ epochs

  /** The attempt a row is in, counting a pending row as already in its next attempt. */
  function Epoch(job: Job): nat {
    job.attempt + if job.status == Pending then 1 else 0
  }

  function Rank(status: JobStatus): nat {
    match status
    case Pending => 0
    case Dispatching => 1
    case Queued => 2
    case Running => 3
    case Succeeded => 4
    case Failed => 4
  }

  predicate LexLess(job: Job, job': Job) {
    Epoch(job) < Epoch(job') || (Epoch(job) == Epoch(job') && Rank(job.status) < Rank(job'.status))
  }

  predicate SamePosition(job: Job, job': Job) {
    Epoch(job) == Epoch(job') && job.status == job'.status
  }

  /** Only the lease differs: another dispatcher took over an expired lease. */
  predicate LeaseRenewal(job: Job, job': Job) {
    job.status == Dispatching && job' == job.(token := job'.token, lockedUntil := job'.lockedUntil)
  }

  /** Only the task ID differs, and it was absent. */
  predicate TaskIdBackfill(job: Job, job': Job) {
    job.taskId.None? && job'.taskId.Some? && job' == job.(taskId := job'.taskId)
  }

  /** The columns no command writes after insertion. */
  predicate SameTarget(job: Job, job': Job) {
    && job'.id == job.id
    && job'.moveJob == job.moveJob
    && job'.objectKey == job.objectKey
    && job'.generation == job.generation
    && job'.contentType == job.contentType
    && job'.sizeBytes == job.sizeBytes
    && job'.trace == job.trace
  }

  /** What any single command may do to a row. */
  predicate Moves(job: Job, job': Job) {
    && SameTarget(job, job')
    && (job' == job || LexLess(job, job') || LeaseRenewal(job, job') || TaskIdBackfill(job, job'))
  }
}
