/**
 What workers report, what clients and managers ask for, and what comes of it in a
 reachable state, in terms of the stored columns and objects.
 */
module MediaOutcomes {
  import opened Common
  import opened BackgroundJobs
  import opened Ports
  import opened MediaWorld
  import opened MediaInvariant
  import opened MediaSteps
  import opened MediaActions
  import opened MediaTheorems
  import opened MediaLeases
  import opened MediaCommands

  // ------------------------------------------------------------- validations

  /** The attempt reported on is running, on an object that still is to be processed. */
  predicate AwaitsResult(w: World, result: ValidationResult)
    requires HasJob(w, result.job)
  {
    && TheJob(w, result.job).attempt == result.attempt
    && TheJob(w, result.job).status == Running
    && w.media[result.job.asset].asset.status != Deleted
  }

  predicate ValidationRecorded(m: Media, m': Media, result: ValidationResult, now: Time) {
    && m.validation.Some? && m'.validation.Some? && m'.deletion == m.deletion
    && var ended := m.validation.value.(completedAt := Some(now), deadline := None);
       match result
       case Validated(_, _, _, _, _, sha256) =>
         m'.validation.value == ended.(status := Succeeded) && m'.asset == m.asset.(status := Ready, sha256 := Some(sha256))
       case ValidationFailed(_, _, _, kind) =>
         && m'.validation.value == ended.(status := Failed, errorCode := Some(kind))
         && m'.asset == m.asset.(status := AssetFailed, sha256 := None)
  }

  lemma ValidationEffect(cfg: Config, w: World, result: ValidationResult)
    requires Inv(cfg, w) && ValidationEnded(result) in w.messages
    ensures var w' := Step(cfg, w, CompleteValidation(result));
            var a := result.job.asset;
            && HasJob(w, result.job) && a in w'.media
            && (if AwaitsResult(w, result)
                then ValidationRecorded(w.media[a], w'.media[a], result, w.now) && w' == w.(media := w.media[a := w'.media[a]])
                else w' == w)
  {
    hide Inv, Backed;
    MessageIn(cfg, w, ValidationEnded(result));
    MediaIn(cfg, w, result.job.asset);
    JobIdOf(w.media[result.job.asset], Validation);
    hide JobOk, AssetOk;
    SameMediaWrite(w, result.job);
  }

  /**
   A validation result counts exactly once, for the attempt that is running: then the asset is ready with the reported
   digest, or failed with the reported error. Any other result, repeated or late, changes nothing.
   */
  lemma ValidationCountsIff(cfg: Config, actions: seq<Action>, result: ValidationResult)
    requires ValidationEnded(result) in After(cfg, actions).messages
    ensures var w := After(cfg, actions);
            var w' := Step(cfg, w, CompleteValidation(result));
            var a := result.job.asset;
            && HasJob(w, result.job) && a in w'.media
            && (if AwaitsResult(w, result) then ValidationRecorded(w.media[a], w'.media[a], result, w.now) else w' == w)
  {
    hide Inv, Step, After, AwaitsResult, ValidationRecorded;
    Reachable(cfg, actions);
    ValidationEffect(cfg, After(cfg, actions), result);
  }

  /** A worker is told that its result stands exactly for the running attempt, or if the ended attempt holds that same result. */
  lemma ValidationAnsweredIff(cfg: Config, w: World, result: ValidationResult)
    requires Inv(cfg, w) && HasJob(w, result.job) && result.job.kind == Validation
    ensures var job, asset := TheJob(w, result.job), w.media[result.job.asset].asset;
            CompletedValidation(job, asset, result, w.now).Ok? <==>
              && result.attempt == job.attempt && result.generation == job.generation
              && (result.Validated? ==> job.contentType == Some(result.contentType) && job.sizeBytes == Some(result.sizeBytes))
              && (|| (job.status == Running && asset.status == Processing)
                  || (job.status == Succeeded && result.Validated? && asset.sha256 == Some(result.sha256))
                  || (job.status == Failed && result.ValidationFailed? && job.errorCode == Some(result.kind)))
  {
    hide Inv, Backed;
    MediaIn(cfg, w, result.job.asset);
    JobIdOf(w.media[result.job.asset], Validation);
  }

  /** The first storage call finds exactly the pinned object, no object, or another one. */
  lemma MetadataFound(w: World, cfg: Config, work: ValidationWork, fault: Option<ErrorCode>)
    requires ToValidate(work) in w.messages
    ensures var pinned := Metadata(work.objectKey, work.contentType, work.sizeBytes, work.generation);
            Step(cfg, w, ReadMetadata(work, fault)) == w.(messages := w.messages + {
              if fault.Some? then ValidationEnded(ValidationFailed(work.job, work.attempt, work.generation, fault.value))
              else if work.objectKey !in w.store.metadata then
                ValidationEnded(ValidationFailed(work.job, work.attempt, work.generation, NotFound))
              else if w.store.metadata[work.objectKey] == pinned then MetadataMatched(work)
              else ValidationEnded(ValidationFailed(work.job, work.attempt, work.generation, InvalidInput))})
  {
  }

  /** The second one hashes the stored bytes if the pinned generation still is the stored one. */
  lemma DigestFound(cfg: Config, w: World, work: ValidationWork, fault: Option<ErrorCode>)
    requires Inv(cfg, w) && MetadataMatched(work) in w.messages
    ensures Step(cfg, w, HashObject(work, fault)) == w.(messages := w.messages + {ValidationEnded(
              if fault.Some? then ValidationFailed(work.job, work.attempt, work.generation, fault.value)
              else if work.objectKey !in w.store.metadata || w.store.metadata[work.objectKey].generation != work.generation then
                ValidationFailed(work.job, work.attempt, work.generation, NotFound)
              else
                Validated(work.job, work.attempt, work.generation, work.contentType, work.sizeBytes,
                          cfg.sha(w.store.contents[work.objectKey])))})
  {
    hide Inv, Pinnable, WrittenAs;
    if work.objectKey in w.store.metadata { StoredIsWritten(cfg, w, work.objectKey); }
  }

  // --------------------------------------------------------------- deletions

  predicate DeletionRecorded(m: Media, m': Media, result: DeletionResult, now: Time) {
    && m.deletion.Some? && m'.deletion.Some? && m'.validation == m.validation
    && var ended := m.deletion.value.(completedAt := Some(now), deadline := None);
       match result
       case Erased(_, _) => m'.deletion.value == ended.(status := Succeeded) && m'.asset == m.asset.(status := Deleted)
       case EraseFailed(_, _, kind) =>
         m'.deletion.value == ended.(status := Failed, errorCode := Some(kind)) && m'.asset == m.asset
  }

  lemma DeletionAnsweredIff(cfg: Config, w: World, result: DeletionResult)
    requires Inv(cfg, w) && HasJob(w, result.job) && result.job.kind == Deletion
    ensures var job, asset := TheJob(w, result.job), w.media[result.job.asset].asset;
            CompletedDeletion(job, asset, result, w.now).Ok? <==>
              && result.attempt == job.attempt
              && (|| job.status == Running
                  || (job.status == Succeeded && result.Erased?)
                  || (job.status == Failed && result.EraseFailed? && job.errorCode == Some(result.kind)))
  {
    hide Inv, Backed;
    MediaIn(cfg, w, result.job.asset);
    JobIdOf(w.media[result.job.asset], Deletion);
  }

  /** A deletion result counts exactly once, for the running attempt; success deletes the asset and appends one event. */
  lemma DeletionEffect(cfg: Config, w: World, result: DeletionResult)
    requires Inv(cfg, w) && DeletionEnded(result) in w.messages
    ensures var w' := Step(cfg, w, CompleteDeletion(result));
            var a := result.job.asset;
            && HasJob(w, result.job) && a in w'.media
            && (if TheJob(w, result.job).attempt == result.attempt && TheJob(w, result.job).status == Running then
                  && DeletionRecorded(w.media[a], w'.media[a], result, w.now)
                  && w' == w.(media := w.media[a := w'.media[a]], outbox := w.outbox +
                       if result.Erased? then multiset{MediaDeleted(w.media[a].asset.moveJob, result.job)} else multiset{})
                else w' == w)
  {
    hide Inv, Backed;
    MessageIn(cfg, w, DeletionEnded(result));
    MediaIn(cfg, w, result.job.asset);
    JobIdOf(w.media[result.job.asset], Deletion);
    hide Joint;
    SameMediaWrite(w, result.job);
    assert w.outbox + multiset{} == w.outbox;
  }

  lemma DeletionCountsIff(cfg: Config, actions: seq<Action>, result: DeletionResult)
    requires DeletionEnded(result) in After(cfg, actions).messages
    ensures var w := After(cfg, actions);
            var w' := Step(cfg, w, CompleteDeletion(result));
            var a := result.job.asset;
            && HasJob(w, result.job) && a in w'.media
            && (if TheJob(w, result.job).attempt == result.attempt && TheJob(w, result.job).status == Running
                then DeletionRecorded(w.media[a], w'.media[a], result, w.now) else w' == w)
  {
    hide Inv, Step, After, DeletionRecorded;
    Reachable(cfg, actions);
    DeletionEffect(cfg, After(cfg, actions), result);
  }

  // ------------------------------------------------- assets and their intents

  predicate JobOpen(w: World, moveJob: MoveJobId) {
    moveJob in w.moveJobs && w.moveJobs[moveJob].None?
  }

  /** An intent that nobody has touched yet. */
  predicate FreshIntent(job: Job, kind: JobKind, asset: Asset, trace: string, due: Time) {
    && job.id == JobId(kind, asset.id) && job.moveJob == asset.moveJob && job.status == Pending && job.attempt == 0
    && job.objectKey == asset.objectKey && Some(job.generation) == asset.generation && job.trace == trace
    && job.scheduledAt == due && job.lastAttemptAt.None? && job.completedAt.None?
    && (kind == Validation ==> job.contentType == Some(asset.contentType) && job.sizeBytes == asset.actualSize)
    && (kind == Deletion ==> job.contentType.None? && job.sizeBytes.None?)
  }

  /** The object that was read is the declared one, and the job is open. */
  predicate UploadFits(w: World, a: AssetId, seen: Metadata)
    requires a in w.media
  {
    var asset := w.media[a].asset;
    && asset.status == PendingUpload && JobOpen(w, asset.moveJob)
    && seen.objectKey == asset.objectKey && seen.contentType == asset.contentType && seen.sizeBytes == asset.expectedSize
  }

  /** An upload is finished exactly for the declared object in an open job; it is pinned and its validation is due at once. */
  lemma UploadEffect(cfg: Config, w: World, a: AssetId, seen: Metadata, trace: string)
    requires Inv(cfg, w) && UploadSeen(a, seen) in w.messages && a in w.media && w.media[a].asset.status != Uploaded
    ensures var w' := Step(cfg, w, CompleteUpload(a, seen, trace));
            && a in w'.media
            && (if UploadFits(w, a, seen) then
                  && w'.media[a].asset == w.media[a].asset.(status := Uploaded, actualSize := Some(seen.sizeBytes),
                                                            generation := Some(seen.generation))
                  && w'.media[a].deletion == w.media[a].deletion
                  && w'.media[a].validation.Some?
                  && FreshIntent(w'.media[a].validation.value, Validation, w'.media[a].asset, trace, w.now)
                  && w' == w.(media := w.media[a := w'.media[a]])
                else w' == w)
  {
    hide Inv, Backed, Pinnable;
    MessageIn(cfg, w, UploadSeen(a, seen));
    MediaIn(cfg, w, a);
  }

  /** An asset is declared exactly once, in an open job and not for nothing; it starts out as it was declared. */
  lemma DeclarationTakesEffectIff(cfg: Config, w: World, a: AssetId, moveJob: MoveJobId, purpose: Purpose,
                                  objectKey: string, contentType: string, size: nat)
    ensures var w' := Step(cfg, w, CreateAsset(a, moveJob, purpose, objectKey, contentType, size));
            if a !in w.media && JobOpen(w, moveJob) && size >= 1 then
              var asset := Asset(a, moveJob, purpose, PendingUpload, objectKey, contentType, size, None, None, None);
              w' == w.(media := w.media[a := Media(asset, None, None)])
            else w' == w
    ensures Step(cfg, w, OpenMoveJob(moveJob)) == w.(moveJobs := map[moveJob := None] + w.moveJobs)
  {
    if moveJob in w.moveJobs {
      assert map[moveJob := None] + w.moveJobs == w.moveJobs;
    } else {
      assert map[moveJob := None] + w.moveJobs == w.moveJobs[moveJob := None];
    }
  }

  /** A generation can be pinned exactly if it is there, is not empty, and is what stripping it leaves. */
  lemma PinnableIff(generation: Option<string>)
    ensures Pinnable(generation) <==> generation.Some? && |generation.value| > 0 && Strip(generation.value) == generation.value
  {
    if generation.Some? {
      var front, back := StripIsBare(generation.value);
    }
  }

  /** Who may ask for a deletion outside a review: only after a completed job's retention time, on an object that is there. */
  predicate RetentionOver(w: World, a: AssetId, retention: nat)
    requires a in w.media
  {
    var asset := w.media[a].asset;
    && w.media[a].deletion.None? && asset.status in {Uploaded, Ready, AssetFailed}
    && asset.moveJob in w.moveJobs && w.moveJobs[asset.moveJob].Some?
    && w.moveJobs[asset.moveJob].value + retention <= w.now
  }

  lemma RetentionIntent(asset: Asset, completedAt: Option<Time>, cutoff: Time, trace: string, due: Time)
    requires asset.status != PendingUpload ==> Pinnable(asset.generation)
    ensures var r := CreateRetention(asset, None, completedAt, cutoff, trace, due);
            && (r.Ok? <==> completedAt.Some? && completedAt.value <= cutoff && asset.status in {Uploaded, Ready, AssetFailed})
            && (r.Ok? ==> FreshIntent(r.value, Deletion, asset, trace, due) && r.value.id.kind == Deletion)
  {
  }

  /** A retention request adds an intent exactly then, and it is due at once. */
  lemma RetentionEffect(cfg: Config, w: World, a: AssetId, trace: string)
    requires Inv(cfg, w) && a in w.media
    ensures var w' := Step(cfg, w, RequestRetention(a, trace));
            && a in w'.media
            && (if RetentionOver(w, a, cfg.retention) then
                  && w'.media[a].deletion.Some? && w'.media[a] == w.media[a].(deletion := w'.media[a].deletion)
                  && FreshIntent(w'.media[a].deletion.value, Deletion, w.media[a].asset, trace, w.now)
                  && w' == w.(media := w.media[a := w'.media[a]])
                else w' == w)
  {
    hide Inv, Pinnable, CreateRetention, FreshIntent, RetentionOver;
    if w.media[a].deletion.Some? {
      StoredIntentStays(cfg, w, a, trace);
    } else if w.media[a].asset.moveJob in w.moveJobs {
      StoredGeneration(cfg, w, a);
      RetentionIntent(w.media[a].asset, w.moveJobs[w.media[a].asset.moveJob], w.now - cfg.retention, trace, w.now);
    }
    RetentionOverIff(cfg, w, a);
  }

  lemma RetentionOverIff(cfg: Config, w: World, a: AssetId)
    requires a in w.media
    ensures var asset := w.media[a].asset;
            RetentionOver(w, a, cfg.retention) <==>
              && w.media[a].deletion.None? && asset.moveJob in w.moveJobs && w.moveJobs[asset.moveJob].Some?
              && w.moveJobs[asset.moveJob].value <= w.now - cfg.retention && asset.status in {Uploaded, Ready, AssetFailed}
  {
  }

  lemma StoredIntentStays(cfg: Config, w: World, a: AssetId, trace: string)
    requires Inv(cfg, w) && a in w.media && w.media[a].deletion.Some?
    ensures Step(cfg, w, RequestRetention(a, trace)) == w
  {
    RowId(cfg, w, JobId(Deletion, a));
    hide Inv;
    SameMediaWrite(w, JobId(Deletion, a));
  }

  lemma StoredGeneration(cfg: Config, w: World, a: AssetId)
    requires Inv(cfg, w) && a in w.media
    ensures w.media[a].asset.status != PendingUpload ==> Pinnable(w.media[a].asset.generation)
  {
    assert MediaOk(cfg, w, a, w.media[a]);
    var asset := w.media[a].asset;
    if asset.generation.Some? {
      assert (asset.objectKey, asset.generation.value) in w.written;
      var pair := (asset.objectKey, asset.generation.value);
      assert pair in w.written && Pinnable(Some(pair.1));
    }
  }

  /** An accepted review hides a ready analysis video, or one hidden before, and its deletion is due at once if it is new. */
  lemma ReviewEffect(cfg: Config, w: World, a: AssetId, trace: string)
    requires Inv(cfg, w) && a in w.media
    ensures var w' := Step(cfg, w, ConsumeReviewVideo(a, trace));
            var asset := w.media[a].asset;
            && a in w'.media
            && (if asset.purpose == Inventory && asset.contentType == "video/mp4" && asset.status == Ready then
                  && w'.media[a].asset == asset.(status := Deleted) && w'.media[a].validation == w.media[a].validation
                  && w'.media[a].deletion.Some?
                  && (w.media[a].deletion.Some? ==> w'.media[a].deletion == w.media[a].deletion)
                  && (w.media[a].deletion.None? ==> FreshIntent(w'.media[a].deletion.value, Deletion, asset, trace, w.now))
                else w' == w)
  {
    hide Inv, Backed;
    MediaIn(cfg, w, a);
    if w.media[a].deletion.Some? {
      JobIdOf(w.media[a], Deletion);
      SameMediaWrite(w, JobId(Deletion, a));
    }
  }

  // --------------------------------------------------------- what is pending

  /** A validation, and any job that was attempted before, waits for nothing but a dispatcher. */
  ghost predicate DueIfWaiting(w: World, id: JobId) {
    HasJob(w, id) && TheJob(w, id).status == Pending && (id.kind == Validation || TheJob(w, id).attempt >= 1) ==>
      TheJob(w, id).scheduledAt <= w.now
  }

  lemma StepDue(cfg: Config, w: World, action: Action, id: JobId)
    requires Inv(cfg, w) && DueIfWaiting(w, id)
    ensures DueIfWaiting(Step(cfg, w, action), id)
  {
    hide Inv, Step, Advances;
    var w' := Step(cfg, w, action);
    StepSettles(cfg, w, action, id);
    StepKeeps(cfg, w, action);
    Later(w, w');
    if action == Retry(id) { RetryEffect(cfg, w, id); }
    RowId(cfg, w, id);
  }

  lemma Later(w: World, w': World)
    requires Advances(w, w')
    ensures w.now <= w'.now
  {
  }

  lemma {:induction false} RunDue(cfg: Config, w: World, more: seq<Action>, id: JobId)
    requires Inv(cfg, w) && DueIfWaiting(w, id)
    ensures DueIfWaiting(Run(cfg, w, more), id)
    decreases |more|
  {
    hide Inv, Step, DueIfWaiting;
    if more != [] {
      StepDue(cfg, w, more[0], id);
      StepKeeps(cfg, w, more[0]);
      RunDue(cfg, Step(cfg, w, more[0]), more[1..], id);
    }
  }

  /** A pending validation, and a pending job that was attempted before, can be claimed at once, in every reachable state. */
  lemma PendingIsDue(cfg: Config, actions: seq<Action>, id: JobId, token: Token)
    requires var w := After(cfg, actions);
             && HasJob(w, id) && TheJob(w, id).status == Pending && token !in w.usedTokens
             && (id.kind == Validation || TheJob(w, id).attempt >= 1)
    ensures var w := After(cfg, actions); Step(cfg, w, ClaimJob(id, token)) != w
  {
    hide Inv, Step;
    Reachable(cfg, actions);
    Reachable(cfg, []);
    RunDue(cfg, INITIAL, actions, id);
    ClaimEffect(cfg, After(cfg, actions), id, token);
  }
}
