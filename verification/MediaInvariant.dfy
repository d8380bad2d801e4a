/**
 What every reachable state of the media protocol satisfies, and what every
 action may change. The inductive invariant has one part per asset and one part
 per message; a message stays sound because of what Advances promises.
 */
module MediaInvariant {
  import opened Common
  import opened BackgroundJobs
  import opened Ports
  import opened MediaWorld

  // ------------------------------------------------------------- per asset

  predicate DeletionTargets(job: Job, asset: Asset) {
    && job.objectKey == asset.objectKey
    && asset.generation == Some(job.generation)
  }

  /** The joint state of an asset, its validation job and its deletion job. */
  predicate Joint(m: Media) {
    && AssetOk(m.asset)
    && (m.validation.Some? ==>
          && JobOk(m.validation.value)
          && m.validation.value.id == JobId(Validation, m.asset.id)
          && m.validation.value.moveJob == m.asset.moveJob
          && PinnedTo(m.validation.value, m.asset))
    && (m.deletion.Some? ==>
          && JobOk(m.deletion.value)
          && m.deletion.value.id == JobId(Deletion, m.asset.id)
          && m.deletion.value.moveJob == m.asset.moveJob
          && DeletionTargets(m.deletion.value, m.asset))
    && (m.asset.status == Ready ==>
          m.validation.Some? && m.validation.value.status == Succeeded && m.asset.sha256.Some?)
    && (m.validation.Some? && m.validation.value.status == Succeeded ==> m.asset.status in {Ready, Deleted})
    && (m.asset.status == Processing ==> m.validation.Some? && m.validation.value.status == Running)
    && (m.validation.Some? && m.validation.value.status == Running ==> m.asset.status in {Processing, Deleted})
    && (m.asset.status == Deleted ==> m.deletion.Some?)
    && (m.deletion.Some? && m.deletion.value.status == Succeeded ==> m.asset.status == Deleted)
  }

  /** The bytes the store was given for a key and generation, described as the asset describes them. */
  predicate WrittenAs(w: World, key: string, generation: string, contentType: string, sizeBytes: nat) {
    && (key, generation) in w.written
    && w.written[(key, generation)].metadata == Metadata(key, contentType, sizeBytes, generation)
    && |w.written[(key, generation)].bytes| == sizeBytes
  }

  /** A stored digest is the hash of the pinned generation's bytes. */
  predicate DigestPinned(cfg: Config, w: World, asset: Asset) {
    asset.generation.Some? && asset.actualSize.Some? ==>
      && WrittenAs(w, asset.objectKey, asset.generation.value, asset.contentType, asset.actualSize.value)
      && (asset.sha256.Some? ==>
            asset.sha256.value == cfg.sha(w.written[(asset.objectKey, asset.generation.value)].bytes))
  }

  predicate Gone(store: ObjectStore, key: string, generation: string) {
    key !in store.metadata || store.metadata[key].generation != generation
  }

  predicate ClaimedNotBefore(job: Job, earliest: Time) {
    && job.scheduledAt >= earliest
    && (job.lastAttemptAt.Some? ==> job.lastAttemptAt.value >= earliest)
  }

  /** Reviews ask for analysis videos only; any other deletion waits for the end of the retention period. */
  predicate Retained(cfg: Config, w: World, m: Media) {
    && (m.asset.id in w.reviewed ==> ReviewVideo(m.asset))
    && (m.deletion.Some? && m.asset.id !in w.reviewed ==>
          && m.asset.moveJob in w.moveJobs
          && w.moveJobs[m.asset.moveJob].Some?
          && ClaimedNotBefore(m.deletion.value, w.moveJobs[m.asset.moveJob].value + cfg.retention))
  }

  /** A task ID stored for an attempt is the queue's answer for that attempt. */
  predicate TaskIdFromQueue(w: World, job: Job) {
    job.taskId.Some? ==>
      && AttemptKey(job.id, job.attempt) in w.queue.enqueued
      && job.taskId.value == w.queue.enqueued[AttemptKey(job.id, job.attempt)]
  }

  predicate DispatchOk(w: World, job: Job) {
    && TaskIdFromQueue(w, job)
    && (job.status == Queued ==> Delivered(Task(job.id, job.attempt, job.trace)) in w.messages)
    && (job.token.Some? ==> job.token.value in w.usedTokens)
    && (job.lastAttemptAt.Some? ==> job.lastAttemptAt.value <= w.now)
  }

  function Emitted(job: Option<Job>): nat {
    if job.Some? && job.value.status == Succeeded then 1 else 0
  }

  /** What the rows of an asset owe to the rest of the state. */
  predicate Backed(cfg: Config, w: World, m: Media) {
    && DigestPinned(cfg, w, m.asset)
    && Retained(cfg, w, m)
    && (m.validation.Some? ==> DispatchOk(w, m.validation.value))
    && (m.deletion.Some? ==> DispatchOk(w, m.deletion.value))
    && (m.deletion.Some? && m.deletion.value.status == Succeeded ==>
          Gone(w.store, m.asset.objectKey, m.deletion.value.generation))
    && w.outbox[MediaDeleted(m.asset.moveJob, JobId(Deletion, m.asset.id))] == Emitted(m.deletion)
  }

  predicate MediaOk(cfg: Config, w: World, a: AssetId, m: Media) {
    m.asset.id == a && Joint(m) && Backed(cfg, w, m)
  }

  // ------------------------------------------------------------ per message

  /** The task names an existing job, in an attempt that has already begun. */
  predicate TaskOk(w: World, task: Task) {
    && HasJob(w, task.job)
    && 1 <= task.attempt <= TheJob(w, task.job).attempt
    && task.trace == TheJob(w, task.job).trace
  }

  predicate LeaseOk(w: World, claim: Claim) {
    && TaskOk(w, claim.task)
    && claim.token in w.usedTokens
    && (TheJob(w, claim.task.job).token == Some(claim.token) ==>
          TheJob(w, claim.task.job).attempt == claim.task.attempt)
  }

  predicate WorkOk(w: World, work: ValidationWork) {
    && work.job.kind == Validation
    && HasJob(w, work.job)
    && var job := TheJob(w, work.job);
       && work.attempt <= job.attempt
       && work.objectKey == job.objectKey
       && work.generation == job.generation
       && Some(work.contentType) == job.contentType
       && Some(work.sizeBytes) == job.sizeBytes
  }

  predicate ResultOk(cfg: Config, w: World, result: ValidationResult) {
    && result.job.kind == Validation
    && HasJob(w, result.job)
    && var job := TheJob(w, result.job);
       && result.attempt <= job.attempt
       && result.generation == job.generation
       && (result.Validated? ==>
             && Some(result.contentType) == job.contentType
             && Some(result.sizeBytes) == job.sizeBytes
             && WrittenAs(w, job.objectKey, job.generation, result.contentType, result.sizeBytes)
             && result.sha256 == cfg.sha(w.written[(job.objectKey, job.generation)].bytes))
  }

  predicate EraseWorkOk(w: World, work: DeletionWork) {
    && work.job.kind == Deletion
    && HasJob(w, work.job)
    && var job := TheJob(w, work.job);
       && work.attempt <= job.attempt
       && work.objectKey == job.objectKey
       && work.generation == job.generation
  }

  predicate EraseResultOk(w: World, result: DeletionResult) {
    && result.job.kind == Deletion
    && HasJob(w, result.job)
    && var job := TheJob(w, result.job);
       && result.attempt <= job.attempt
       && (result.Erased? ==> Gone(w.store, job.objectKey, job.generation))
  }

  predicate MessageOk(cfg: Config, w: World, message: Message) {
    match message
    case UploadSeen(a, seen) =>
      && Pinnable(Some(seen.generation))
      && WrittenAs(w, seen.objectKey, seen.generation, seen.contentType, seen.sizeBytes)
    case Leased(claim) => LeaseOk(w, claim)
    case Reported(claim, outcome) =>
      && LeaseOk(w, claim)
      && (outcome.Accepted? ==>
            && Delivered(claim.task) in w.messages
            && KeyOf(claim.task) in w.queue.enqueued
            && w.queue.enqueued[KeyOf(claim.task)] == outcome.taskId)
    case Delivered(task) => TaskOk(w, task)
    case ToValidate(work) => WorkOk(w, work)
    case MetadataMatched(work) =>
      && WorkOk(w, work)
      && WrittenAs(w, work.objectKey, work.generation, work.contentType, work.sizeBytes)
    case ValidationEnded(result) => ResultOk(cfg, w, result)
    case ToDelete(work) => EraseWorkOk(w, work)
    case DeletionEnded(result) => EraseResultOk(w, result)
  }

  // -------------------------------------------------------------- the ports

  /** Stored objects are a write of their key, with the bytes of that write. */
  ghost predicate StoredIsLastWrite(w: World) {
    forall key :: key in w.store.metadata ==>
      && (key, w.store.metadata[key].generation) in w.written
      && w.written[(key, w.store.metadata[key].generation)].metadata == w.store.metadata[key]
      && key in w.store.contents
      && w.store.contents[key] == w.written[(key, w.store.metadata[key].generation)].bytes
  }

  ghost predicate WritesDescribed(w: World) {
    forall pair :: pair in w.written ==>
      && w.written[pair].metadata.objectKey == pair.0
      && w.written[pair].metadata.generation == pair.1
      && w.written[pair].metadata.sizeBytes == |w.written[pair].bytes|
      && Pinnable(Some(pair.1))
  }

  /** A used deletion key is its job's, names the pinned generation, and has removed it. */
  ghost predicate DeletesDone(w: World) {
    forall key :: key in w.store.deleteRequests ==>
      && key.DeleteKey?
      && key.job.kind == Deletion
      && HasJob(w, key.job)
      && w.store.deleteRequests[key] == (TheJob(w, key.job).objectKey, TheJob(w, key.job).generation)
      && Gone(w.store, TheJob(w, key.job).objectKey, TheJob(w, key.job).generation)
  }

  ghost predicate StoreOk(w: World) {
    StoredIsLastWrite(w) && WritesDescribed(w) && DeletesDone(w)
  }

  /** A queue key determines the whole request, so the queue never sees two requests under one key. */
  ghost predicate QueueOk(cfg: Config, w: World) {
    && w.queue.requests.Keys == w.queue.enqueued.Keys
    && (forall key :: key in w.queue.requests ==>
          && key.AttemptKey?
          && HasJob(w, key.job)
          && w.queue.requests[key] == RequestOf(cfg, Task(key.job, key.attempt, TheJob(w, key.job).trace)))
  }

  ghost predicate Inv(cfg: Config, w: World) {
    && StoreOk(w)
    && QueueOk(cfg, w)
    && (forall a :: a in w.media ==> MediaOk(cfg, w, a, w.media[a]))
    && (forall m :: m in w.messages ==> MessageOk(cfg, w, m))
    && (forall m :: m in w.moveJobs && w.moveJobs[m].Some? ==> w.moveJobs[m].value <= w.now)
    && (forall e :: e in w.outbox ==> HasJob(w, e.job))
    && w.reviewed <= w.media.Keys
  }

  // ---------------------------------------------------- what actions change

  /** A row never goes back, and a task ID stays put within its epoch. */
  predicate JobAdvances(job: Job, job': Job) {
    && SameTarget(job, job')
    && (SamePosition(job, job') || LexLess(job, job'))
    && (Epoch(job) == Epoch(job') && job.taskId.Some? ==> job'.taskId == job.taskId)
    && (job.status == Succeeded ==> job'.status == Succeeded && job'.attempt == job.attempt)
  }

  predicate MediaAdvances(m: Media, m': Media) {
    && (m.validation.Some? ==> m'.validation.Some? && JobAdvances(m.validation.value, m'.validation.value))
    && (m.deletion.Some? ==> m'.deletion.Some? && JobAdvances(m.deletion.value, m'.deletion.value))
    && m'.asset.moveJob == m.asset.moveJob
    && m'.asset.purpose == m.asset.purpose
    && m'.asset.objectKey == m.asset.objectKey
    && m'.asset.contentType == m.asset.contentType
    && (m.asset.generation.Some? ==>
          m'.asset.generation == m.asset.generation && m'.asset.actualSize == m.asset.actualSize)
    && (m.asset.status == Deleted ==> m'.asset.status == Deleted && m'.asset.sha256 == m.asset.sha256)
  }

  /** A lease token belongs to one claim: a row's token is the row's old one or a new one. */
  predicate TokenKept(w: World, w': World, id: JobId) {
    HasJob(w', id) && TheJob(w', id).token.Some? ==>
      || TheJob(w', id).token.value !in w.usedTokens
      || (HasJob(w, id) && TheJob(w, id).token == TheJob(w', id).token && TheJob(w, id).attempt == TheJob(w', id).attempt)
  }

  ghost predicate Advances(w: World, w': World) {
    && w.now <= w'.now
    && w.usedTokens <= w'.usedTokens
    && w.messages <= w'.messages
    && w.outbox <= w'.outbox
    && w.reviewed <= w'.reviewed
    && (forall m :: m in w.moveJobs ==> m in w'.moveJobs && (w.moveJobs[m].Some? ==> w'.moveJobs[m] == w.moveJobs[m]))
    && (forall pair :: pair in w.written ==> pair in w'.written && w'.written[pair] == w.written[pair])
    && (forall pair :: pair in w.written && Gone(w.store, pair.0, pair.1) ==> Gone(w'.store, pair.0, pair.1))
    && (forall key :: key in w.queue.enqueued ==>
          key in w'.queue.enqueued && w'.queue.enqueued[key] == w.queue.enqueued[key])
    && (forall a :: a in w.media ==> a in w'.media && MediaAdvances(w.media[a], w'.media[a]))
    && (forall id :: TokenKept(w, w', id))
  }
}
