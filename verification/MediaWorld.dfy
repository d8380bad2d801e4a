/**
 The whole media protocol as one state machine. Every transaction of the
 services and every port call is one atomic action; between any two of them any
 other action may happen. Whatever a dispatcher or a worker carries from one
 transaction to the next is a message, and messages are never removed: an action
 may use the same one again at any later time (duplication, delay) or never (loss).
 A command that raises leaves the state as it was.
 */
module MediaWorld {
  import opened Common
  import opened BackgroundJobs
  import opened Ports

  /** Deployment settings, and the hash function the store applies. */
  datatype Config = Config(
    retention: nat,
    leaseSeconds: nat,
    executionTimeout: nat,
    queueName: string,
    handler: string,
    sha: Bytes -> Digest)

  /** One asset row with the at most two job rows that may refer to it. */
  datatype Media = Media(asset: Asset, validation: Option<Job>, deletion: Option<Job>)

  datatype Written = Written(metadata: Metadata, bytes: Bytes)

  datatype Message =
    | UploadSeen(asset: AssetId, seen: Metadata)
    | Leased(claim: Claim)
    | Reported(claim: Claim, outcome: DispatchOutcome)
    | Delivered(task: Task)
    | ToValidate(validation: ValidationWork)
    | MetadataMatched(validation: ValidationWork)
    | ValidationEnded(validationResult: ValidationResult)
    | ToDelete(deletion: DeletionWork)
    | DeletionEnded(deletionResult: DeletionResult)

  datatype Event = MediaDeleted(moveJob: MoveJobId, job: JobId)

  /** The state; `reviewed` notes the assets whose deletion row was created by an accepted review. */
  datatype World = World(
    now: Time,
    media: map<AssetId, Media>,
    moveJobs: map<MoveJobId, Option<Time>>,
    store: ObjectStore,
    written: map<(string, string), Written>,
    queue: MediaQueue,
    usedTokens: set<Token>,
    messages: set<Message>,
    outbox: multiset<Event>,
    reviewed: set<AssetId>)

  const INITIAL := World(0, map[], map[], ObjectStore(map[], map[], {}, map[]), map[],
                         TaskQueue(map[], map[]), {}, {}, multiset{}, {})

  /** How a queue call ended for its caller. */
  datatype EnqueueFault = NoFault | LostReply(code: ErrorCode) | NotSent(code: ErrorCode)

  datatype Action =
    | Tick(elapsed: nat)
    | OpenMoveJob(moveJob: MoveJobId)
    | WriteObject(upload: Metadata, bytes: Bytes)
    | CreateAsset(asset: AssetId, moveJob: MoveJobId, purpose: Purpose, objectKey: string,
                  contentType: string, expectedSize: nat)
    | ReadUpload(asset: AssetId)
    | CompleteUpload(asset: AssetId, seen: Metadata, trace: string)
    | CompleteMoveJob(moveJob: MoveJobId, evidence: seq<AssetId>, trace: string)
    | RequestRetention(asset: AssetId, trace: string)
    | ConsumeReviewVideo(asset: AssetId, trace: string)
    | ClaimJob(job: JobId, token: Token)
    | EnqueueClaim(claim: Claim, sending: EnqueueFault)
    | FinalizeClaim(claim: Claim, outcome: DispatchOutcome)
    | Start(task: Task)
    | ReadMetadata(validation: ValidationWork, fault: Option<ErrorCode>)
    | HashObject(validation: ValidationWork, fault: Option<ErrorCode>)
    | CompleteValidation(validationResult: ValidationResult)
    | EraseObject(deletion: DeletionWork, fault: Option<ErrorCode>, effective: bool)
    | CompleteDeletion(deletionResult: DeletionResult)
    | Retry(job: JobId)

  // ------------------------------------------------------------ row access

  function JobOf(m: Media, kind: JobKind): Option<Job> {
    match kind
    case Validation => m.validation
    case Deletion => m.deletion
  }

  function WithJob(m: Media, job: Job): Media {
    match job.id.kind
    case Validation => m.(validation := Some(job))
    case Deletion => m.(deletion := Some(job))
  }

  predicate HasJob(w: World, id: JobId) {
    id.asset in w.media && JobOf(w.media[id.asset], id.kind).Some?
  }

  function TheJob(w: World, id: JobId): Job
    requires HasJob(w, id)
  {
    JobOf(w.media[id.asset], id.kind).value
  }

  function Send(w: World, m: Message): World {
    w.(messages := w.messages + {m})
  }

  /** One transaction on the rows of one asset, with what its caller learns and what it appends to the outbox. */
  function Commit(w: World, a: AssetId, m: Media, sent: set<Message>, tokens: set<Token>, events: multiset<Event>): World {
    w.(media := w.media[a := m], messages := w.messages + sent, usedTokens := w.usedTokens + tokens,
       outbox := w.outbox + events)
  }

  function Update(w: World, a: AssetId, m: Media): World {
    Commit(w, a, m, {}, {}, multiset{})
  }

  // ------------------------------------------------------------ environment

  /** A client writes an object; a store never gives a generation of a key twice. */
  function DoWriteObject(w: World, upload: Metadata, bytes: Bytes): World {
    if (upload.objectKey, upload.generation) in w.written
       || upload.sizeBytes != |bytes| || !Pinnable(Some(upload.generation)) then w
    else
      w.(store := PutObject(w.store, upload, bytes),
         written := w.written[(upload.objectKey, upload.generation) := Written(upload, bytes)])
  }

  function DoCreateAsset(w: World, a: AssetId, moveJob: MoveJobId, purpose: Purpose,
                         objectKey: string, contentType: string, expectedSize: nat): World
  {
    if a in w.media || expectedSize == 0 || moveJob !in w.moveJobs || w.moveJobs[moveJob].Some? then w
    else
      Update(w, a, Media(Asset(a, moveJob, purpose, PendingUpload, objectKey, contentType, expectedSize,
                            None, None, None), None, None))
  }

  /** Upload completion reads the metadata before it takes its row locks. */
  function DoReadUpload(w: World, a: AssetId): World {
    if a !in w.media then w
    else
      match GetMetadata(w.store, w.media[a].asset.objectKey)
      case Err(_) => w
      case Ok(seen) => Send(w, UploadSeen(a, seen))
  }

  predicate UploadMatches(asset: Asset, seen: Metadata) {
    seen.objectKey == asset.objectKey && seen.contentType == asset.contentType && seen.sizeBytes == asset.expectedSize
  }

  function DoCompleteUpload(w: World, a: AssetId, seen: Metadata, trace: string): World {
    if UploadSeen(a, seen) !in w.messages || a !in w.media then w
    else
      var m := w.media[a];
      if m.asset.status == Uploaded then
        match CreateValidation(m.asset, m.validation, trace, w.now) {
          case Err(_) => w
          case Ok(job) => Update(w, a, WithJob(m, job))
        }
      else if m.asset.status != PendingUpload || !UploadMatches(m.asset, seen)
              || m.asset.moveJob !in w.moveJobs || w.moveJobs[m.asset.moveJob].Some? then w
      else
        var asset := m.asset.(status := Uploaded, actualSize := Some(seen.sizeBytes), sha256 := None,
                              generation := Some(seen.generation));
        match CreateValidation(asset, m.validation, trace, w.now)
        case Err(_) => w
        case Ok(job) => Update(w, a, WithJob(m.(asset := asset), job))
  }

  function DoRetention(w: World, a: AssetId, cutoff: Time, trace: string, scheduledAt: Time): Result<World, CommandError> {
    if a !in w.media || w.media[a].asset.moveJob !in w.moveJobs then
      Err(JobNotFound)
    else
      var m := w.media[a];
      match CreateRetention(m.asset, m.deletion, w.moveJobs[m.asset.moveJob], cutoff, trace, scheduledAt)
      case Err(e) => Err(e)
      case Ok(job) => Ok(Update(w, a, WithJob(m, job)))
  }

  /** A manager may ask once the retention period is over; the intent is due at once. */
  function DoRequestRetention(cfg: Config, w: World, a: AssetId, trace: string): World {
    match DoRetention(w, a, w.now - cfg.retention, trace, w.now)
    case Err(_) => w
    case Ok(w') => w'
  }

  function ScheduleEvidence(w: World, evidence: seq<AssetId>, trace: string, scheduledAt: Time): Result<World, CommandError>
    decreases |evidence|
  {
    if evidence == [] then Ok(w)
    else
      match DoRetention(w, evidence[0], w.now, trace, scheduledAt)
      case Err(e) => Err(e)
      case Ok(w') => ScheduleEvidence(w', evidence[1..], trace, scheduledAt)
  }

  predicate CompletionEvidence(w: World, moveJob: MoveJobId, a: AssetId) {
    && a in w.media
    && w.media[a].asset.moveJob == moveJob
    && w.media[a].asset.purpose == Completion
    && w.media[a].asset.status in {Uploaded, Ready}
  }

  /** Completion and the retention intents of its evidence are one transaction. */
  function DoCompleteMoveJob(cfg: Config, w: World, moveJob: MoveJobId, evidence: seq<AssetId>, trace: string): World {
    if moveJob !in w.moveJobs || w.moveJobs[moveJob].Some?
       || exists i :: 0 <= i < |evidence| && !CompletionEvidence(w, moveJob, evidence[i]) then w
    else
      match ScheduleEvidence(w.(moveJobs := w.moveJobs[moveJob := Some(w.now)]), evidence, trace, w.now + cfg.retention)
      case Err(_) => w
      case Ok(w') => w'
  }

  predicate ReviewVideo(asset: Asset) {
    asset.purpose == Inventory && asset.contentType == "video/mp4"
  }

  /** An accepted review hides the analysis video and asks for its deletion at once. */
  function DoConsumeReviewVideo(w: World, a: AssetId, trace: string): World {
    if a !in w.media || !ReviewVideo(w.media[a].asset) || w.media[a].asset.status !in {Ready, Deleted}
       || w.media[a].asset.generation.None? then w
    else
      var m := w.media[a];
      var job := CreateDeletion(m.asset, m.deletion, trace, w.now);
      var w1 := if m.deletion.None? then w.(reviewed := w.reviewed + {a}) else w;
      Update(w1, a, WithJob(m, job).(asset := m.asset.(status := Deleted)))
  }

  // --------------------------------------------------------------- dispatch

  function DoClaim(cfg: Config, w: World, id: JobId, token: Token): World {
    if !HasJob(w, id) || !Due(TheJob(w, id), w.now) || token in w.usedTokens then w
    else
      var job := Claimed(TheJob(w, id), w.now, cfg.leaseSeconds, token);
      Commit(w, id.asset, WithJob(w.media[id.asset], job), {Leased(ClaimOf(job, token))}, {token}, multiset{})
  }

  function RequestOf(cfg: Config, task: Task): QueueRequest<Task> {
    QueueRequest(cfg.queueName, cfg.handler, task, None)
  }

  function KeyOf(task: Task): IdempotencyKey {
    AttemptKey(task.job, task.attempt)
  }

  /** An accepted request is delivered at least once; a lost reply reads as an error. */
  function DoEnqueue(cfg: Config, w: World, claim: Claim, fault: EnqueueFault): World {
    if Leased(claim) !in w.messages then w
    else if fault.NotSent? then Send(w, Reported(claim, Refused(fault.code)))
    else
      match Enqueue(w.queue, KeyOf(claim.task), RequestOf(cfg, claim.task))
      case Err(code) => Send(w, Reported(claim, Refused(code)))
      case Ok((queue, taskId)) =>
        var outcome := if fault.LostReply? then Refused(fault.code) else Accepted(taskId);
        Send(Send(w.(queue := queue), Delivered(claim.task)), Reported(claim, outcome))
  }

  function DoFinalize(w: World, claim: Claim, outcome: DispatchOutcome): World {
    var id := claim.task.job;
    if Reported(claim, outcome) !in w.messages || !HasJob(w, id) then w
    else Update(w, id.asset, WithJob(w.media[id.asset], Finalized(TheJob(w, id), claim, outcome, w.now).0))
  }

  function DoRetry(w: World, id: JobId): World {
    if !HasJob(w, id) then w
    else
      var m := w.media[id.asset];
      match Retried(TheJob(w, id), m.asset, w.now)
      case Err(_) => w
      case Ok((job, asset)) => Update(w, id.asset, WithJob(m, job).(asset := asset))
  }

  // ---------------------------------------------------------------- workers

  function DoStart(cfg: Config, w: World, task: Task): World {
    if Delivered(task) !in w.messages || !HasJob(w, task.job) then w
    else
      var m := w.media[task.job.asset];
      var job := TheJob(w, task.job);
      match task.job.kind
      case Validation =>
        if !TargetShape(job) then w
        else (
          match StartedValidation(job, m.asset, task, w.now, cfg.executionTimeout)
          case Err(_) => w
          case Ok((_, _, None)) => w
          case Ok((job', asset', Some(work))) =>
            Commit(w, task.job.asset, WithJob(m, job').(asset := asset'), {ToValidate(work)}, {}, multiset{}))
      case Deletion =>
        match StartedDeletion(job, task, w.now, cfg.executionTimeout)
        case Err(_) => w
        case Ok((_, None)) => w
        case Ok((job', Some(work))) => 
          Commit(w, task.job.asset, WithJob(m, job'), {ToDelete(work)}, {}, multiset{})
  }

  function Failure(work: ValidationWork, kind: ErrorCode): Message {
    ValidationEnded(ValidationFailed(work.job, work.attempt, work.generation, kind))
  }

  predicate MetadataAgrees(work: ValidationWork, seen: Metadata) {
    && seen.objectKey == work.objectKey
    && seen.generation == work.generation
    && seen.contentType == work.contentType
    && seen.sizeBytes == work.sizeBytes
  }

  /** First storage call of a validation worker. */
  function DoReadMetadata(w: World, work: ValidationWork, fault: Option<ErrorCode>): World {
    if ToValidate(work) !in w.messages then w
    else if fault.Some? then Send(w, Failure(work, fault.value))
    else
      match GetMetadata(w.store, work.objectKey)
      case Err(kind) => Send(w, Failure(work, kind))
      case Ok(seen) =>
        if MetadataAgrees(work, seen) then Send(w, MetadataMatched(work)) else Send(w, Failure(work, InvalidInput))
  }

  /** Second storage call; the object may have been replaced or removed since the first. */
  function DoHashObject(cfg: Config, w: World, work: ValidationWork, fault: Option<ErrorCode>): World {
    if MetadataMatched(work) !in w.messages then w
    else if fault.Some? then Send(w, Failure(work, fault.value))
    else
      match CalculateSha256(w.store, cfg.sha, work.objectKey, work.generation)
      case Err(kind) => Send(w, Failure(work, kind))
      case Ok(digest) =>
        Send(w, ValidationEnded(Validated(work.job, work.attempt, work.generation,
                                          work.contentType, work.sizeBytes, digest)))
  }

  function DoCompleteValidation(w: World, result: ValidationResult): World {
    if ValidationEnded(result) !in w.messages || !HasJob(w, result.job) then w
    else
      var m := w.media[result.job.asset];
      match CompletedValidation(TheJob(w, result.job), m.asset, result, w.now)
      case Err(_) => w
      case Ok((job, asset)) => Update(w, result.job.asset, WithJob(m, job).(asset := asset))
  }

  /** The provider call of a deletion worker; a reported fault may still have had its effect. */
  function DoErase(w: World, work: DeletionWork, fault: Option<ErrorCode>, effective: bool): World {
    if ToDelete(work) !in w.messages then w
    else if fault.Some? && !effective then
      Send(w, DeletionEnded(EraseFailed(work.job, work.attempt, fault.value)))
    else
      match DeleteObject(w.store, work.objectKey, work.generation, DeleteKey(work.job))
      case Err(kind) => Send(w, DeletionEnded(EraseFailed(work.job, work.attempt, kind)))
      case Ok(store) =>
        var result :=
          if fault.Some? then EraseFailed(work.job, work.attempt, fault.value) else Erased(work.job, work.attempt);
        Send(w.(store := store), DeletionEnded(result))
  }

  function DoCompleteDeletion(w: World, result: DeletionResult): World {
    if DeletionEnded(result) !in w.messages || !HasJob(w, result.job) then w
    else
      var m := w.media[result.job.asset];
      var job := TheJob(w, result.job);
      match CompletedDeletion(job, m.asset, result, w.now)
      case Err(_) => w
      case Ok((job', asset, emitted)) =>
        var events := if emitted then multiset{MediaDeleted(job.moveJob, job.id)} else multiset{};
        Commit(w, result.job.asset, WithJob(m, job').(asset := asset), {}, {}, events)
  }

  // -------------------------------------------------------------------- runs

  function Step(cfg: Config, w: World, action: Action): World {
    match action
    case Tick(elapsed) => w.(now := w.now + elapsed)
    case OpenMoveJob(moveJob) =>
      if moveJob in w.moveJobs then w else w.(moveJobs := w.moveJobs[moveJob := None])
    case WriteObject(upload, bytes) => DoWriteObject(w, upload, bytes)
    case CreateAsset(a, moveJob, purpose, objectKey, contentType, expectedSize) =>
      DoCreateAsset(w, a, moveJob, purpose, objectKey, contentType, expectedSize)
    case ReadUpload(a) => DoReadUpload(w, a)
    case CompleteUpload(a, seen, trace) => DoCompleteUpload(w, a, seen, trace)
    case CompleteMoveJob(moveJob, evidence, trace) => DoCompleteMoveJob(cfg, w, moveJob, evidence, trace)
    case RequestRetention(a, trace) => DoRequestRetention(cfg, w, a, trace)
    case ConsumeReviewVideo(a, trace) => DoConsumeReviewVideo(w, a, trace)
    case ClaimJob(job, token) => DoClaim(cfg, w, job, token)
    case EnqueueClaim(claim, fault) => DoEnqueue(cfg, w, claim, fault)
    case FinalizeClaim(claim, outcome) => DoFinalize(w, claim, outcome)
    case Start(task) => DoStart(cfg, w, task)
    case ReadMetadata(work, fault) => DoReadMetadata(w, work, fault)
    case HashObject(work, fault) => DoHashObject(cfg, w, work, fault)
    case CompleteValidation(result) => DoCompleteValidation(w, result)
    case EraseObject(work, fault, effective) => DoErase(w, work, fault, effective)
    case CompleteDeletion(result) => DoCompleteDeletion(w, result)
    case Retry(job) => DoRetry(w, job)
  }

  function Run(cfg: Config, w: World, actions: seq<Action>): World
    decreases |actions|
  {
    if actions == [] then w else Run(cfg, Step(cfg, w, actions[0]), actions[1..])
  }
}
