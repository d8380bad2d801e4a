/**
 Every action of the media protocol keeps the invariant and only advances the
 state; hence so does every run.
 */
module MediaActions {
  import opened Common
  import opened BackgroundJobs
  import opened Ports
  import opened MediaWorld
  import opened MediaInvariant
  import opened MediaRows
  import opened MediaSteps

  // ------------------------------------------------- rows of a single asset

  lemma CompleteUploadKeeps(cfg: Config, w: World, a: AssetId, seen: Metadata, trace: string)
    requires Inv(cfg, w)
    ensures Inv(cfg, DoCompleteUpload(w, a, seen, trace)) && Advances(w, DoCompleteUpload(w, a, seen, trace))
  {
    hide Inv, Joint, MediaAdvances, Advances, KeepsRows;
    var w' := DoCompleteUpload(w, a, seen, trace);
    AdvancesReflexive(w);
    if w' != w {
      var m := w.media[a];
      MediaIn(cfg, w, a);
      MessageIn(cfg, w, UploadSeen(a, seen));
      if m.asset.status == Uploaded {
        ValidationIntentRows(m, trace, w.now);
        if m.validation.Some? { JobIdOf(m, Validation); }
        CommitKeeps(cfg, w, a, w'.media[a], {}, {}, multiset{});
      } else {
        UploadRows(m, seen, trace, w.now);
        CommitKeeps(cfg, w, a, w'.media[a], {}, {}, multiset{});
      }
    }
  }

  lemma ConsumeReviewVideoKeeps(cfg: Config, w: World, a: AssetId, trace: string)
    requires Inv(cfg, w)
    ensures Inv(cfg, DoConsumeReviewVideo(w, a, trace)) && Advances(w, DoConsumeReviewVideo(w, a, trace))
  {
    hide Inv, Joint, MediaAdvances, Advances, KeepsRows;
    var w' := DoConsumeReviewVideo(w, a, trace);
    AdvancesReflexive(w);
    if w' != w {
      MediaIn(cfg, w, a);
      ReviewRows(w.media[a], trace, w.now);
      if w.media[a].deletion.Some? {
        JobIdOf(w.media[a], Deletion);
        CommitKeeps(cfg, w, a, w'.media[a], {}, {}, multiset{});
      } else {
        var w1 := w.(reviewed := w.reviewed + {a});
        ReviewNoted(cfg, w, a);
        MediaIn(cfg, w1, a);
        CommitKeeps(cfg, w1, a, w'.media[a], {}, {}, multiset{});
        AdvancesTransitive(w, w1, w');
      }
    }
  }

  /** Noting that a review asked for a deletion leaves every stored row and message sound. */
  lemma ReviewNoted(cfg: Config, w: World, a: AssetId)
    requires Inv(cfg, w) && a in w.media && ReviewVideo(w.media[a].asset)
    ensures var w' := w.(reviewed := w.reviewed + {a}); Inv(cfg, w') && Advances(w, w')
  {
    hide StoreOk, QueueOk, MessageOk, MediaOk;
    var w' := w.(reviewed := w.reviewed + {a});
    assert Advances(w, w') by { SameMediaAdvances(w, w'); }
    PortsStay(cfg, w, w');
    hide Advances;
    forall b | b in w'.media ensures MediaOk(cfg, w', b, w'.media[b]) {
      MediaStays(cfg, w, w', b);
    }
    forall m | m in w'.messages ensures MessageOk(cfg, w', m) {
      MessageStays(cfg, w, w', m);
    }
  }

  lemma RetentionKeeps(cfg: Config, w: World, a: AssetId, cutoff: Time, trace: string, scheduledAt: Time)
    requires Inv(cfg, w) && cutoff + cfg.retention <= scheduledAt
    ensures var r := DoRetention(w, a, cutoff, trace, scheduledAt);
            r.Ok? ==> Inv(cfg, r.value) && Advances(w, r.value)
  {
    hide Inv, Joint, MediaAdvances, Advances, KeepsRows;
    var r := DoRetention(w, a, cutoff, trace, scheduledAt);
    if r.Ok? {
      MediaIn(cfg, w, a);
      if w.media[a].deletion.Some? { JobIdOf(w.media[a], Deletion); }
      DeletionIntentRows(w.media[a], trace, scheduledAt);
      CommitKeeps(cfg, w, a, r.value.media[a], {}, {}, multiset{});
    }
  }

  lemma ClaimKeeps(cfg: Config, w: World, id: JobId, token: Token)
    requires Inv(cfg, w)
    ensures Inv(cfg, DoClaim(cfg, w, id, token)) && Advances(w, DoClaim(cfg, w, id, token))
  {
    hide Inv, Joint, MediaAdvances, Advances, KeepsRows;
    var w' := DoClaim(cfg, w, id, token);
    AdvancesReflexive(w);
    if w' != w {
      var m := w.media[id.asset];
      MediaIn(cfg, w, id.asset);
      ClaimRows(m, id.kind, w.now, cfg.leaseSeconds, token);
      JobIdOf(m, id.kind);
      var job := Claimed(TheJob(w, id), w.now, cfg.leaseSeconds, token);
      CommitKeeps(cfg, w, id.asset, WithJob(m, job), {Leased(ClaimOf(job, token))}, {token}, multiset{});
    }
  }

  /** A recorded task ID is the queue's: a lease pins the attempt it reports on. */
  lemma FinalizeDispatchOk(w: World, w': World, job: Job, claim: Claim, outcome: DispatchOutcome)
    requires DispatchOk(w, job) && JobOk(job)
    requires w'.queue == w.queue && w'.messages == w.messages && w'.usedTokens == w.usedTokens && w'.now == w.now
    requires job.id == claim.task.job && job.trace == claim.task.trace
    requires job.token == Some(claim.token) ==> job.attempt == claim.task.attempt
    requires outcome.Accepted? ==>
               && Delivered(claim.task) in w.messages
               && KeyOf(claim.task) in w.queue.enqueued
               && w.queue.enqueued[KeyOf(claim.task)] == outcome.taskId
    ensures DispatchOk(w', Finalized(job, claim, outcome, w.now).0)
  {
  }

  lemma FinalizeBacked(cfg: Config, w: World, claim: Claim, outcome: DispatchOutcome)
    requires Inv(cfg, w) && Reported(claim, outcome) in w.messages && HasJob(w, claim.task.job)
    ensures var id := claim.task.job;
            var m := WithJob(w.media[id.asset], Finalized(TheJob(w, id), claim, outcome, w.now).0);
            Backed(cfg, Update(w, id.asset, m), m)
  {
    hide Inv, Joint, RowOk, DispatchOk;
    var id := claim.task.job;
    MediaIn(cfg, w, id.asset);
    MessageIn(cfg, w, Reported(claim, outcome));
    JobIdOf(w.media[id.asset], id.kind);
    var m := WithJob(w.media[id.asset], Finalized(TheJob(w, id), claim, outcome, w.now).0);
    var w' := Update(w, id.asset, m);
    FinalizeDispatchOk(w, w', TheJob(w, id), claim, outcome);
    SameDispatch(w, w', w.media[id.asset]);
  }

  /** The job a transaction does not write stays backed. */
  lemma SameDispatch(w: World, w': World, m: Media)
    requires w'.queue == w.queue && w.messages <= w'.messages && w.usedTokens <= w'.usedTokens && w.now <= w'.now
    ensures m.validation.Some? && DispatchOk(w, m.validation.value) ==> DispatchOk(w', m.validation.value)
    ensures m.deletion.Some? && DispatchOk(w, m.deletion.value) ==> DispatchOk(w', m.deletion.value)
  {
  }

  lemma FinalizeKeeps(cfg: Config, w: World, claim: Claim, outcome: DispatchOutcome)
    requires Inv(cfg, w)
    ensures Inv(cfg, DoFinalize(w, claim, outcome)) && Advances(w, DoFinalize(w, claim, outcome))
  {
    hide Inv, Joint, MediaAdvances, Advances, KeepsRows, Backed;
    var w' := DoFinalize(w, claim, outcome);
    AdvancesReflexive(w);
    if w' != w {
      var id := claim.task.job;
      MediaIn(cfg, w, id.asset);
      FinalizeRows(w.media[id.asset], id.kind, claim, outcome, w.now);
      JobIdOf(w.media[id.asset], id.kind);
      FinalizeBacked(cfg, w, claim, outcome);
      CommitKeeps(cfg, w, id.asset, w'.media[id.asset], {}, {}, multiset{});
    }
  }

  lemma RetryKeeps(cfg: Config, w: World, id: JobId)
    requires Inv(cfg, w)
    ensures Inv(cfg, DoRetry(w, id)) && Advances(w, DoRetry(w, id))
  {
    hide Inv, Joint, MediaAdvances, Advances, KeepsRows;
    var w' := DoRetry(w, id);
    AdvancesReflexive(w);
    if w' != w {
      MediaIn(cfg, w, id.asset);
      RetryRows(w.media[id.asset], id.kind, w.now);
      JobIdOf(w.media[id.asset], id.kind);
      CommitKeeps(cfg, w, id.asset, w'.media[id.asset], {}, {}, multiset{});
    }
  }

  lemma StartValidationKeeps(cfg: Config, w: World, task: Task)
    requires Inv(cfg, w) && task.job.kind == Validation
    ensures Inv(cfg, DoStart(cfg, w, task)) && Advances(w, DoStart(cfg, w, task))
  {
    hide Inv, Joint, MediaAdvances, Advances, KeepsRows;
    var w' := DoStart(cfg, w, task);
    AdvancesReflexive(w);
    if w' != w {
      var m := w.media[task.job.asset];
      MediaIn(cfg, w, task.job.asset);
      MessageIn(cfg, w, Delivered(task));
      JobIdOf(m, Validation);
      StartValidationRows(m, task, w.now, cfg.executionTimeout);
      var work := StartedValidation(m.validation.value, m.asset, task, w.now, cfg.executionTimeout).value.2.value;
      CommitKeeps(cfg, w, task.job.asset, w'.media[task.job.asset], {ToValidate(work)}, {}, multiset{});
    }
  }

  lemma StartDeletionKeeps(cfg: Config, w: World, task: Task)
    requires Inv(cfg, w) && task.job.kind == Deletion
    ensures Inv(cfg, DoStart(cfg, w, task)) && Advances(w, DoStart(cfg, w, task))
  {
    hide Inv, Joint, MediaAdvances, Advances, KeepsRows;
    var w' := DoStart(cfg, w, task);
    AdvancesReflexive(w);
    if w' != w {
      var m := w.media[task.job.asset];
      MediaIn(cfg, w, task.job.asset);
      MessageIn(cfg, w, Delivered(task));
      JobIdOf(m, Deletion);
      StartDeletionRows(m, task, w.now, cfg.executionTimeout);
      var work := StartedDeletion(m.deletion.value, task, w.now, cfg.executionTimeout).value.1.value;
      CommitKeeps(cfg, w, task.job.asset, w'.media[task.job.asset], {ToDelete(work)}, {}, multiset{});
    }
  }

  lemma CompleteValidationBacked(cfg: Config, w: World, result: ValidationResult)
    requires Inv(cfg, w) && ValidationEnded(result) in w.messages && HasJob(w, result.job)
    ensures var a := result.job.asset;
            var r := CompletedValidation(TheJob(w, result.job), w.media[a].asset, result, w.now);
            r.Ok? ==> var m := WithJob(w.media[a], r.value.0).(asset := r.value.1); Backed(cfg, Update(w, a, m), m)
  {
    hide Inv, Joint, MediaAdvances, JobAdvances;
    var a := result.job.asset;
    MediaIn(cfg, w, a);
    MessageIn(cfg, w, ValidationEnded(result));
    JobIdOf(w.media[a], Validation);
    CompleteValidationRows(w.media[a], result, w.now);
  }

  lemma CompleteValidationKeeps(cfg: Config, w: World, result: ValidationResult)
    requires Inv(cfg, w)
    ensures Inv(cfg, DoCompleteValidation(w, result)) && Advances(w, DoCompleteValidation(w, result))
  {
    hide Inv, Joint, MediaAdvances, Advances, KeepsRows, Backed;
    var w' := DoCompleteValidation(w, result);
    AdvancesReflexive(w);
    if w' != w {
      var a := result.job.asset;
      MediaIn(cfg, w, a);
      MessageIn(cfg, w, ValidationEnded(result));
      JobIdOf(w.media[a], Validation);
      CompleteValidationRows(w.media[a], result, w.now);
      CompleteValidationBacked(cfg, w, result);
      CommitKeeps(cfg, w, a, w'.media[a], {}, {}, multiset{});
    }
  }

  lemma CompleteDeletionKeeps(cfg: Config, w: World, result: DeletionResult)
    requires Inv(cfg, w)
    ensures Inv(cfg, DoCompleteDeletion(w, result)) && Advances(w, DoCompleteDeletion(w, result))
  {
    hide Inv, Joint, MediaAdvances, Advances, KeepsRows;
    var w' := DoCompleteDeletion(w, result);
    AdvancesReflexive(w);
    if w' != w {
      var a := result.job.asset;
      var job := TheJob(w, result.job);
      MediaIn(cfg, w, a);
      MessageIn(cfg, w, DeletionEnded(result));
      JobIdOf(w.media[a], Deletion);
      CompleteDeletionRows(w.media[a], result, w.now);
      var emitted := CompletedDeletion(job, w.media[a].asset, result, w.now).value.2;
      var events := if emitted then multiset{MediaDeleted(job.moveJob, job.id)} else multiset{};
      CommitKeeps(cfg, w, a, w'.media[a], {}, {}, events);
    }
  }

  // ------------------------------------------------- storage, queue, time

  lemma TickKeeps(cfg: Config, w: World, elapsed: nat)
    requires Inv(cfg, w)
    ensures var w' := w.(now := w.now + elapsed); Inv(cfg, w') && Advances(w, w')
  {
    hide StoreOk, QueueOk, MessageOk;
    var w' := w.(now := w.now + elapsed);
    assert Advances(w, w') by { TickAdvances(w, elapsed); }
    PortsStay(cfg, w, w');
    NoRowKeeps(cfg, w, w');
  }

  lemma TickAdvances(w: World, elapsed: nat)
    ensures Advances(w, w.(now := w.now + elapsed))
  {
  }

  lemma SendAdvances(w: World, message: Message)
    ensures Advances(w, Send(w, message))
  {
  }

  /** Adding one sound message changes nothing else. */
  lemma SendKeeps(cfg: Config, w: World, message: Message)
    requires Inv(cfg, w) && MessageOk(cfg, w, message)
    ensures Inv(cfg, Send(w, message)) && Advances(w, Send(w, message))
  {
    hide Inv, StoreOk, QueueOk, MessageOk, Advances;
    var w' := Send(w, message);
    SendAdvances(w, message);
    MessageStays(cfg, w, w', message);
    PortsStay(cfg, w, w');
    NoRowKeeps(cfg, w, w');
  }

  lemma ReadUploadKeeps(cfg: Config, w: World, a: AssetId)
    requires Inv(cfg, w)
    ensures Inv(cfg, DoReadUpload(w, a)) && Advances(w, DoReadUpload(w, a))
  {
    AdvancesReflexive(w);
    if a in w.media && GetMetadata(w.store, w.media[a].asset.objectKey).Ok? {
      var seen := GetMetadata(w.store, w.media[a].asset.objectKey).value;
      StoredIsWritten(cfg, w, w.media[a].asset.objectKey);
      hide Inv, Advances;
      SendKeeps(cfg, w, UploadSeen(a, seen));
    }
  }

  /** What the store holds is the last write of its key. */
  lemma StoredIsWritten(cfg: Config, w: World, key: string)
    requires Inv(cfg, w) && key in w.store.metadata
    ensures var seen := w.store.metadata[key];
            && seen.objectKey == key
            && Pinnable(Some(seen.generation))
            && WrittenAs(w, key, seen.generation, seen.contentType, seen.sizeBytes)
            && key in w.store.contents
            && w.store.contents[key] == w.written[(key, seen.generation)].bytes
  {
    var pair := (key, w.store.metadata[key].generation);
    assert pair in w.written;
  }

  lemma ReadMetadataKeeps(cfg: Config, w: World, work: ValidationWork, fault: Option<ErrorCode>)
    requires Inv(cfg, w)
    ensures Inv(cfg, DoReadMetadata(w, work, fault)) && Advances(w, DoReadMetadata(w, work, fault))
  {
    hide Inv, Advances;
    AdvancesReflexive(w);
    if ToValidate(work) in w.messages {
      MessageIn(cfg, w, ToValidate(work));
      var seen := GetMetadata(w.store, work.objectKey);
      if fault.Some? {
        SendKeeps(cfg, w, Failure(work, fault.value));
      } else if seen.Err? {
        SendKeeps(cfg, w, Failure(work, seen.error));
      } else if MetadataAgrees(work, seen.value) {
        StoredIsWritten(cfg, w, work.objectKey);
        SendKeeps(cfg, w, MetadataMatched(work));
      } else {
        SendKeeps(cfg, w, Failure(work, InvalidInput));
      }
    }
  }

  lemma HashObjectKeeps(cfg: Config, w: World, work: ValidationWork, fault: Option<ErrorCode>)
    requires Inv(cfg, w)
    ensures Inv(cfg, DoHashObject(cfg, w, work, fault)) && Advances(w, DoHashObject(cfg, w, work, fault))
  {
    hide Inv, Advances;
    AdvancesReflexive(w);
    if MetadataMatched(work) in w.messages {
      MessageIn(cfg, w, MetadataMatched(work));
      var digest := CalculateSha256(w.store, cfg.sha, work.objectKey, work.generation);
      if fault.Some? {
        SendKeeps(cfg, w, Failure(work, fault.value));
      } else if digest.Err? {
        SendKeeps(cfg, w, Failure(work, digest.error));
      } else {
        StoredIsWritten(cfg, w, work.objectKey);
        SendKeeps(cfg, w, ValidationEnded(Validated(work.job, work.attempt, work.generation,
                                                    work.contentType, work.sizeBytes, digest.value)));
      }
    }
  }

  /** The queue answers a claim with a task ID: its key was free or used for this very request. */
  lemma ClaimNeverConflicts(cfg: Config, w: World, claim: Claim)
    requires QueueOk(cfg, w) && TaskOk(w, claim.task)
    ensures var r := Enqueue(w.queue, KeyOf(claim.task), RequestOf(cfg, claim.task));
            && r.Ok?
            && QueueOk(cfg, w.(queue := r.value.0))
            && KeyOf(claim.task) in r.value.0.enqueued && r.value.0.enqueued[KeyOf(claim.task)] == r.value.1
            && (forall key :: key in w.queue.enqueued ==>
                  key in r.value.0.enqueued && r.value.0.enqueued[key] == w.queue.enqueued[key])
  {
  }

  lemma QueueGrows(cfg: Config, w: World, claim: Claim)
    requires Inv(cfg, w) && TaskOk(w, claim.task)
    ensures Enqueue(w.queue, KeyOf(claim.task), RequestOf(cfg, claim.task)).Ok?
    ensures var (queue, taskId) := Enqueue(w.queue, KeyOf(claim.task), RequestOf(cfg, claim.task)).value;
            var w' := w.(queue := queue);
            && Inv(cfg, w') && Advances(w, w')
            && KeyOf(claim.task) in queue.enqueued && queue.enqueued[KeyOf(claim.task)] == taskId
  {
    hide StoreOk, QueueOk, MediaOk, MessageOk, TaskOk, Enqueue;
    ClaimNeverConflicts(cfg, w, claim);
    var (queue, taskId) := Enqueue(w.queue, KeyOf(claim.task), RequestOf(cfg, claim.task)).value;
    var w' := w.(queue := queue);
    assert Advances(w, w') by { SameMediaAdvances(w, w'); }
    assert StoreOk(w') by { SameStore(w, w'); }
    hide Advances;
    NoRowKeeps(cfg, w, w');
  }

  lemma SameStore(w: World, w': World)
    requires StoreOk(w) && w'.store == w.store && w'.written == w.written && w'.media == w.media
    ensures StoreOk(w')
  {
  }

  lemma SameMediaAdvances(w: World, w': World)
    requires w'.media == w.media
    ensures forall a :: a in w.media ==> MediaAdvances(w.media[a], w'.media[a])
    ensures forall id :: TokenKept(w, w', id)
  {
  }

  lemma EnqueueKeeps(cfg: Config, w: World, claim: Claim, fault: EnqueueFault)
    requires Inv(cfg, w)
    ensures Inv(cfg, DoEnqueue(cfg, w, claim, fault)) && Advances(w, DoEnqueue(cfg, w, claim, fault))
  {
    hide Inv, Advances, LeaseOk, TaskOk;
    AdvancesReflexive(w);
    if Leased(claim) in w.messages {
      MessageIn(cfg, w, Leased(claim));
      LeasedTask(w, claim);
      if fault.NotSent? {
        SendKeeps(cfg, w, Reported(claim, Refused(fault.code)));
      } else {
        QueueGrows(cfg, w, claim);
        var (queue, taskId) := Enqueue(w.queue, KeyOf(claim.task), RequestOf(cfg, claim.task)).value;
        var w1 := w.(queue := queue);
        LeaseStays(w, w1, claim);
        LeasedTask(w1, claim);
        SendKeeps(cfg, w1, Delivered(claim.task));
        var w2 := Send(w1, Delivered(claim.task));
        LeaseStays(w1, w2, claim);
        var outcome := if fault.LostReply? then Refused(fault.code) else Accepted(taskId);
        SendKeeps(cfg, w2, Reported(claim, outcome));
        AdvancesTransitive(w, w1, w2);
        AdvancesTransitive(w, w2, Send(w2, Reported(claim, outcome)));
      }
    }
  }

  lemma LeasedTask(w: World, claim: Claim)
    requires LeaseOk(w, claim)
    ensures TaskOk(w, claim.task)
  {
  }

  lemma WriteAdvances(w: World, upload: Metadata, bytes: Bytes)
    ensures Advances(w, DoWriteObject(w, upload, bytes))
  {
    hide MediaAdvances, TokenKept;
    SameMediaAdvances(w, DoWriteObject(w, upload, bytes));
  }

  lemma WriteStored(w: World, upload: Metadata, bytes: Bytes)
    requires StoredIsLastWrite(w) && WritesDescribed(w)
    ensures StoredIsLastWrite(DoWriteObject(w, upload, bytes)) && WritesDescribed(DoWriteObject(w, upload, bytes))
  {
  }

  /** A new object replaces the stored generation and never brings a removed one back. */
  lemma WriteObjectKeeps(cfg: Config, w: World, upload: Metadata, bytes: Bytes)
    requires Inv(cfg, w)
    ensures var w' := DoWriteObject(w, upload, bytes); Inv(cfg, w') && Advances(w, w')
  {
    hide QueueOk, MediaOk, MessageOk, Advances;
    var w' := DoWriteObject(w, upload, bytes);
    WriteAdvances(w, upload, bytes);
    if w' != w {
      forall key | key in w'.store.deleteRequests
        ensures key.DeleteKey? && key.job.kind == Deletion && HasJob(w', key.job)
        ensures w'.store.deleteRequests[key] == (TheJob(w', key.job).objectKey, TheJob(w', key.job).generation)
        ensures Gone(w'.store, TheJob(w', key.job).objectKey, TheJob(w', key.job).generation)
      {
        DeleteRequestsStay(cfg, w, w', key);
      }
      WriteStored(w, upload, bytes);
      hide StoredIsLastWrite, WritesDescribed, DoWriteObject;
      assert QueueOk(cfg, w') by { SameQueue(cfg, w, w'); }
      NoRowKeeps(cfg, w, w');
    }
  }

  lemma SameQueue(cfg: Config, w: World, w': World)
    requires QueueOk(cfg, w) && w'.queue == w.queue && w'.media == w.media
    ensures QueueOk(cfg, w')
  {
  }

  lemma EraseAdvances(w: World, work: DeletionWork)
    requires DeleteObject(w.store, work.objectKey, work.generation, DeleteKey(work.job)).Ok?
    ensures Advances(w, w.(store := DeleteObject(w.store, work.objectKey, work.generation, DeleteKey(work.job)).value))
  {
    hide MediaAdvances, TokenKept;
    SameMediaAdvances(w, w.(store := DeleteObject(w.store, work.objectKey, work.generation, DeleteKey(work.job)).value));
  }

  /** A deletion key is only ever used for the generation its job is pinned to. */
  lemma EraseSucceeds(w: World, work: DeletionWork)
    requires StoreOk(w) && EraseWorkOk(w, work)
    ensures var r := DeleteObject(w.store, work.objectKey, work.generation, DeleteKey(work.job));
            r.Ok? && Gone(r.value, work.objectKey, work.generation)
  {
  }

  lemma EraseStoreOk(cfg: Config, w: World, work: DeletionWork)
    requires Inv(cfg, w) && EraseWorkOk(w, work)
    ensures DeleteObject(w.store, work.objectKey, work.generation, DeleteKey(work.job)).Ok?
    ensures StoreOk(w.(store := DeleteObject(w.store, work.objectKey, work.generation, DeleteKey(work.job)).value))
  {
    hide QueueOk, MediaOk, MessageOk, Advances;
    EraseSucceeds(w, work);
    var w' := w.(store := DeleteObject(w.store, work.objectKey, work.generation, DeleteKey(work.job)).value);
    EraseAdvances(w, work);
    assert StoredIsLastWrite(w') && WritesDescribed(w');
    hide StoredIsLastWrite, WritesDescribed;
    forall key | key in w.store.deleteRequests
      ensures Gone(w'.store, TheJob(w', key.job).objectKey, TheJob(w', key.job).generation)
    {
      DeleteRequestsStay(cfg, w, w', key);
    }
  }

  /** The provider call succeeds, and afterwards the pinned generation is gone. */
  lemma EraseEffect(cfg: Config, w: World, work: DeletionWork)
    requires Inv(cfg, w) && EraseWorkOk(w, work)
    ensures var r := DeleteObject(w.store, work.objectKey, work.generation, DeleteKey(work.job));
            && r.Ok?
            && var w' := w.(store := r.value);
               Inv(cfg, w') && Advances(w, w') && Gone(w'.store, work.objectKey, work.generation)
  {
    hide StoreOk, QueueOk, MediaOk, MessageOk, Advances, DeleteObject;
    EraseSucceeds(w, work);
    EraseStoreOk(cfg, w, work);
    var w' := w.(store := DeleteObject(w.store, work.objectKey, work.generation, DeleteKey(work.job)).value);
    EraseAdvances(w, work);
    assert QueueOk(cfg, w') by { SameQueue(cfg, w, w'); }
    NoRowKeeps(cfg, w, w');
  }

  lemma EraseKeeps(cfg: Config, w: World, work: DeletionWork, fault: Option<ErrorCode>, effective: bool)
    requires Inv(cfg, w)
    ensures Inv(cfg, DoErase(w, work, fault, effective)) && Advances(w, DoErase(w, work, fault, effective))
  {
    hide Inv, Advances;
    AdvancesReflexive(w);
    if ToDelete(work) in w.messages {
      MessageIn(cfg, w, ToDelete(work));
      if fault.Some? && !effective {
        SendKeeps(cfg, w, DeletionEnded(EraseFailed(work.job, work.attempt, fault.value)));
      } else {
        EraseEffect(cfg, w, work);
        var w1 := w.(store := DeleteObject(w.store, work.objectKey, work.generation, DeleteKey(work.job)).value);
        EraseWorkStays(w, w1, work);
        var result :=
          if fault.Some? then EraseFailed(work.job, work.attempt, fault.value) else Erased(work.job, work.attempt);
        SendKeeps(cfg, w1, DeletionEnded(result));
        AdvancesTransitive(w, w1, Send(w1, DeletionEnded(result)));
      }
    }
  }

  // ------------------------------------------- move jobs, assets, retention

  /** A move job that opens or completes leaves every stored row and message sound. */
  lemma MoveJobKeeps(cfg: Config, w: World, moveJob: MoveJobId, status: Option<Time>)
    requires Inv(cfg, w)
    requires moveJob in w.moveJobs ==> w.moveJobs[moveJob].None?
    requires status.Some? ==> status.value <= w.now
    ensures var w' := w.(moveJobs := w.moveJobs[moveJob := status]); Inv(cfg, w') && Advances(w, w')
  {
    hide StoreOk, QueueOk, MessageOk, MediaOk;
    var w' := w.(moveJobs := w.moveJobs[moveJob := status]);
    assert Advances(w, w') by { SameMediaAdvances(w, w'); }
    PortsStay(cfg, w, w');
    hide Advances;
    forall a | a in w'.media ensures MediaOk(cfg, w', a, w'.media[a]) {
      MediaStays(cfg, w, w', a);
    }
    forall m | m in w'.messages ensures MessageOk(cfg, w', m) {
      MessageStays(cfg, w, w', m);
    }
  }

  lemma NewAssetOk(cfg: Config, w: World, w': World, a: AssetId)
    requires Inv(cfg, w) && a !in w.media && a in w'.media && w'.outbox == w.outbox && w'.reviewed == w.reviewed
    requires var m := w'.media[a];
             && m == Media(m.asset, None, None)
             && m.asset.id == a && m.asset.status == PendingUpload && m.asset.expectedSize > 0
             && m.asset.actualSize.None? && m.asset.generation.None? && m.asset.sha256.None?
    ensures MediaOk(cfg, w', a, w'.media[a])
  {
    hide StoreOk, QueueOk, MessageOk;
    assert MediaDeleted(w'.media[a].asset.moveJob, JobId(Deletion, a)) !in w.outbox by {
      assert !HasJob(w, JobId(Deletion, a));
    }
  }

  lemma CreateAssetKeeps(cfg: Config, w: World, a: AssetId, moveJob: MoveJobId, purpose: Purpose,
                         objectKey: string, contentType: string, expectedSize: nat)
    requires Inv(cfg, w)
    ensures var w' := DoCreateAsset(w, a, moveJob, purpose, objectKey, contentType, expectedSize);
            Inv(cfg, w') && Advances(w, w')
  {
    hide StoreOk, QueueOk, MessageOk, MediaOk, Advances;
    var w' := DoCreateAsset(w, a, moveJob, purpose, objectKey, contentType, expectedSize);
    AdvancesReflexive(w);
    if w' != w {
      NewAssetAdvances(w, a, w'.media[a]);
      NewAssetOk(cfg, w, w', a);
      PortsStay(cfg, w, w');
      forall b | b in w'.media ensures MediaOk(cfg, w', b, w'.media[b]) {
        if b != a { MediaStays(cfg, w, w', b); }
      }
      forall m | m in w'.messages ensures MessageOk(cfg, w', m) {
        MessageStays(cfg, w, w', m);
      }
      forall e | e in w'.outbox ensures HasJob(w', e.job) {
        JobStays(w, w', e.job);
      }
    }
  }

  lemma NewAssetAdvances(w: World, a: AssetId, m: Media)
    requires a !in w.media && m.validation.None? && m.deletion.None?
    ensures Advances(w, Update(w, a, m))
  {
    var w' := Update(w, a, m);
    hide MediaAdvances;
    forall b | b in w.media ensures MediaAdvances(w.media[b], w'.media[b]) {
      SameMedia(w.media[b]);
    }
  }

  lemma {:induction false} ScheduleEvidenceKeeps(cfg: Config, w: World, evidence: seq<AssetId>, trace: string, scheduledAt: Time)
    requires Inv(cfg, w) && w.now + cfg.retention <= scheduledAt
    ensures var r := ScheduleEvidence(w, evidence, trace, scheduledAt);
            r.Ok? ==> Inv(cfg, r.value) && Advances(w, r.value)
    decreases |evidence|
  {
    hide Inv, Advances;
    AdvancesReflexive(w);
    if evidence != [] {
      var first := DoRetention(w, evidence[0], w.now, trace, scheduledAt);
      if first.Ok? {
        RetentionKeeps(cfg, w, evidence[0], w.now, trace, scheduledAt);
        ScheduleEvidenceKeeps(cfg, first.value, evidence[1..], trace, scheduledAt);
        var rest := ScheduleEvidence(first.value, evidence[1..], trace, scheduledAt);
        if rest.Ok? { AdvancesTransitive(w, first.value, rest.value); }
      }
    }
  }

  lemma CompleteMoveJobKeeps(cfg: Config, w: World, moveJob: MoveJobId, evidence: seq<AssetId>, trace: string)
    requires Inv(cfg, w)
    ensures var w' := DoCompleteMoveJob(cfg, w, moveJob, evidence, trace); Inv(cfg, w') && Advances(w, w')
  {
    hide Inv, Advances;
    var w' := DoCompleteMoveJob(cfg, w, moveJob, evidence, trace);
    AdvancesReflexive(w);
    if w' != w {
      MoveJobKeeps(cfg, w, moveJob, Some(w.now));
      var w1 := w.(moveJobs := w.moveJobs[moveJob := Some(w.now)]);
      ScheduleEvidenceKeeps(cfg, w1, evidence, trace, w.now + cfg.retention);
      AdvancesTransitive(w, w1, w');
    }
  }

  // -------------------------------------------------------------------- runs

  lemma StepKeeps(cfg: Config, w: World, action: Action)
    requires Inv(cfg, w)
    ensures Inv(cfg, Step(cfg, w, action)) && Advances(w, Step(cfg, w, action))
  {
    hide Inv, Advances;
    AdvancesReflexive(w);
    match action {
      case Tick(elapsed) => TickKeeps(cfg, w, elapsed);
      case OpenMoveJob(moveJob) =>
        if moveJob !in w.moveJobs { MoveJobKeeps(cfg, w, moveJob, None); }
      case WriteObject(upload, bytes) => WriteObjectKeeps(cfg, w, upload, bytes);
      case CreateAsset(a, moveJob, purpose, objectKey, contentType, expectedSize) =>
        CreateAssetKeeps(cfg, w, a, moveJob, purpose, objectKey, contentType, expectedSize);
      case ReadUpload(a) => ReadUploadKeeps(cfg, w, a);
      case CompleteUpload(a, seen, trace) => CompleteUploadKeeps(cfg, w, a, seen, trace);
      case CompleteMoveJob(moveJob, evidence, trace) => CompleteMoveJobKeeps(cfg, w, moveJob, evidence, trace);
      case RequestRetention(a, trace) => RetentionKeeps(cfg, w, a, w.now - cfg.retention, trace, w.now);
      case ConsumeReviewVideo(a, trace) => ConsumeReviewVideoKeeps(cfg, w, a, trace);
      case ClaimJob(job, token) => ClaimKeeps(cfg, w, job, token);
      case EnqueueClaim(claim, fault) => EnqueueKeeps(cfg, w, claim, fault);
      case FinalizeClaim(claim, outcome) => FinalizeKeeps(cfg, w, claim, outcome);
      case Start(task) =>
        if task.job.kind == Validation { StartValidationKeeps(cfg, w, task); } else { StartDeletionKeeps(cfg, w, task); }
      case ReadMetadata(work, fault) => ReadMetadataKeeps(cfg, w, work, fault);
      case HashObject(work, fault) => HashObjectKeeps(cfg, w, work, fault);
      case CompleteValidation(result) => CompleteValidationKeeps(cfg, w, result);
      case EraseObject(work, fault, effective) => EraseKeeps(cfg, w, work, fault, effective);
      case CompleteDeletion(result) => CompleteDeletionKeeps(cfg, w, result);
      case Retry(job) => RetryKeeps(cfg, w, job);
    }
  }

  lemma {:induction false} RunKeeps(cfg: Config, w: World, actions: seq<Action>)
    requires Inv(cfg, w)
    ensures Inv(cfg, Run(cfg, w, actions)) && Advances(w, Run(cfg, w, actions))
    decreases |actions|
  {
    hide Inv, Advances;
    AdvancesReflexive(w);
    if actions != [] {
      var w1 := Step(cfg, w, actions[0]);
      StepKeeps(cfg, w, actions[0]);
      RunKeeps(cfg, w1, actions[1..]);
      AdvancesTransitive(w, w1, Run(cfg, w1, actions[1..]));
    }
  }
}
