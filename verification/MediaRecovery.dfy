/**
 Nothing is lost for good: wherever workers and dispatchers stopped, a deletion can
 still be carried out, and an asset can still become READY exactly when it was not
 deleted and its pinned object is still stored. A lost lease, report or result is made
 up for by waiting and claiming or retrying again; only a queued row has no deadline of
 its own, so its recovery needs the task the queue accepted to be delivered after all.
 */
module MediaRecovery {
  import opened Common
  import opened BackgroundJobs
  import opened Ports
  import opened MediaWorld
  import opened MediaInvariant
  import opened MediaSteps
  import opened MediaActions
  import opened MediaTheorems

  // ---------------------------------------------------------------- helpers

  lemma {:induction false} RunAppend(cfg: Config, w: World, first: seq<Action>, second: seq<Action>)
    ensures Run(cfg, w, first + second) == Run(cfg, Run(cfg, w, first), second)
    decreases |first|
  {
    hide Step;
    if first == [] {
      assert first + second == second;
    } else {
      assert (first + second)[1..] == first[1..] + second;
      RunAppend(cfg, Step(cfg, w, first[0]), first[1..], second);
    }
  }

  lemma RunOne(cfg: Config, w: World, action: Action)
    ensures Run(cfg, w, [action]) == Step(cfg, w, action)
  {
    hide Step;
    assert Run(cfg, w, [action]) == Run(cfg, Step(cfg, w, action), []);
  }

  function TaskOf(job: Job): Task {
    Task(job.id, job.attempt, job.trace)
  }

  /** The current attempt's task is at the worker's door. */
  predicate Deliverable(w: World, id: JobId) {
    && HasJob(w, id)
    && TheJob(w, id).status in {Dispatching, Queued}
    && Delivered(TaskOf(TheJob(w, id))) in w.messages
  }

  function OtherKind(kind: JobKind): JobKind {
    if kind == Validation then Deletion else Validation
  }

  /** The steps of a job's recovery leave the store, the asset's object and its other job alone, and lose no message. */
  predicate SameObject(w: World, w': World, id: JobId) {
    var a := id.asset;
    && a in w.media && a in w'.media
    && w'.store == w.store
    && w.messages <= w'.messages
    && JobOf(w'.media[a], OtherKind(id.kind)) == JobOf(w.media[a], OtherKind(id.kind))
    && w'.media[a].asset.objectKey == w.media[a].asset.objectKey
    && w'.media[a].asset.generation == w.media[a].asset.generation
    && (w'.media[a].asset.status == Deleted <==> w.media[a].asset.status == Deleted)
  }

  // --------------------------------------------------------------- dispatch

  lemma ClaimStep(cfg: Config, w: World, id: JobId, token: Token)
    requires Inv(cfg, w) && HasJob(w, id) && Due(TheJob(w, id), w.now) && token !in w.usedTokens
    ensures var w' := Step(cfg, w, ClaimJob(id, token));
            && HasJob(w', id) && TheJob(w', id).status == Dispatching && TheJob(w', id).id == id
            && Leased(ClaimOf(TheJob(w', id), token)) in w'.messages
            && SameObject(w, w', id)
  {
    hide Inv;
    MediaIn(cfg, w, id.asset);
    JobIdOf(w.media[id.asset], id.kind);
    hide Joint, Backed;
  }

  lemma EnqueueStep(cfg: Config, w: World, id: JobId, token: Token)
    requires Inv(cfg, w) && HasJob(w, id) && TheJob(w, id).status == Dispatching
    requires Leased(ClaimOf(TheJob(w, id), token)) in w.messages
    ensures var w' := Step(cfg, w, EnqueueClaim(ClaimOf(TheJob(w, id), token), NoFault));
            Deliverable(w', id) && SameObject(w, w', id)
  {
    hide Inv;
    var claim := ClaimOf(TheJob(w, id), token);
    MessageIn(cfg, w, Leased(claim));
    QueueGrows(cfg, w, claim);
  }

  /** A pending or leased row reaches a worker: wait until it is due, claim, enqueue. */
  lemma ReachDelivery(cfg: Config, w: World, id: JobId) returns (more: seq<Action>)
    requires Inv(cfg, w) && HasJob(w, id) && TheJob(w, id).status in {Pending, Dispatching}
    ensures Deliverable(Run(cfg, w, more), id) && SameObject(w, Run(cfg, w, more), id)
  {
    MediaIn(cfg, w, id.asset);
    JobIdOf(w.media[id.asset], id.kind);
    hide Inv, Joint, Backed;
    var job := TheJob(w, id);
    var due := if job.status == Pending then job.scheduledAt else job.lockedUntil.value;
    var wait: nat := if due <= w.now then 0 else due - w.now;
    var w1 := Step(cfg, w, Tick(wait));
    StepKeeps(cfg, w, Tick(wait));
    var token := FreshNumber(w1.usedTokens);
    ClaimStep(cfg, w1, id, token);
    hide Step;
    StepKeeps(cfg, w1, ClaimJob(id, token));
    var w2 := Step(cfg, w1, ClaimJob(id, token));
    var claim := ClaimOf(TheJob(w2, id), token);
    EnqueueStep(cfg, w2, id, token);
    more := [Tick(wait), ClaimJob(id, token), EnqueueClaim(claim, NoFault)];
    assert more[1..] == [ClaimJob(id, token), EnqueueClaim(claim, NoFault)];
    assert more[1..][1..] == [EnqueueClaim(claim, NoFault)];
    RunOne(cfg, w2, EnqueueClaim(claim, NoFault));
  }

  lemma RetryStep(cfg: Config, w: World, id: JobId)
    requires Inv(cfg, w) && HasJob(w, id) && (TheJob(w, id).status == Failed || ExecutionExpired(TheJob(w, id), w.now))
    requires id.kind == Validation ==> w.media[id.asset].asset.status != Deleted
    ensures var w' := Step(cfg, w, Retry(id));
            HasJob(w', id) && TheJob(w', id).status == Pending && SameObject(w, w', id)
  {
    hide Inv;
    MediaIn(cfg, w, id.asset);
    JobIdOf(w.media[id.asset], id.kind);
    hide Backed, JobOk, AssetOk;
  }

  /** A failed or abandoned attempt can be retried once its deadline is over. */
  lemma ReachPending(cfg: Config, w: World, id: JobId) returns (more: seq<Action>)
    requires Inv(cfg, w) && HasJob(w, id) && TheJob(w, id).status in {Failed, Running}
    requires id.kind == Validation ==> w.media[id.asset].asset.status != Deleted
    ensures var w' := Run(cfg, w, more);
            HasJob(w', id) && TheJob(w', id).status == Pending && SameObject(w, w', id)
  {
    hide Inv, Joint, Backed;
    MediaIn(cfg, w, id.asset);
    JobIdOf(w.media[id.asset], id.kind);
    var job := TheJob(w, id);
    var wait: nat := if job.status == Running && job.deadline.value > w.now then job.deadline.value - w.now else 0;
    var w1 := Step(cfg, w, Tick(wait));
    StepKeeps(cfg, w, Tick(wait));
    assert SameObject(w, w1, id) && TheJob(w1, id) == job;
    more := [Tick(wait), Retry(id)];
    assert more[1..] == [Retry(id)];
    hide Step;
    RetryStep(cfg, w1, id);
    RunOne(cfg, w1, Retry(id));
  }

  /** Unless it is finished or orphaned, any job can be brought back to a worker. */
  lemma ReachWorker(cfg: Config, w: World, id: JobId) returns (more: seq<Action>)
    requires Inv(cfg, w) && HasJob(w, id) && TheJob(w, id).status != Succeeded
    requires id.kind == Validation ==> w.media[id.asset].asset.status != Deleted
    ensures Deliverable(Run(cfg, w, more), id) && SameObject(w, Run(cfg, w, more), id)
  {
    hide Inv;
    var status := TheJob(w, id).status;
    if status == Queued {
      MediaIn(cfg, w, id.asset);
      JobIdOf(w.media[id.asset], id.kind);
      more := [];
    } else if status in {Pending, Dispatching} {
      more := ReachDelivery(cfg, w, id);
    } else {
      var retry := ReachPending(cfg, w, id);
      RunKeeps(cfg, w, retry);
      var redo := ReachDelivery(cfg, Run(cfg, w, retry), id);
      RunAppend(cfg, w, retry, redo);
      more := retry + redo;
    }
  }

  // ------------------------------------------------------------- validation

  /** The store still holds the generation the asset is pinned to. */
  predicate ObjectStored(w: World, a: AssetId) {
    && a in w.media
    && w.media[a].asset.objectKey in w.store.metadata
    && Some(w.store.metadata[w.media[a].asset.objectKey].generation) == w.media[a].asset.generation
  }

  lemma StartValidationStep(cfg: Config, w: World, a: AssetId) returns (work: ValidationWork)
    requires var id := JobId(Validation, a); Inv(cfg, w) && Deliverable(w, id) && w.media[a].asset.status != Deleted
    ensures var w' := Step(cfg, w, Start(TaskOf(TheJob(w, JobId(Validation, a)))));
            && SameObject(w, w', JobId(Validation, a))
            && w'.media[a].asset.status == Processing
            && w'.media[a].validation.Some?
            && w'.media[a].validation.value.status == Running
            && w'.media[a].validation.value.contentType.Some? && w'.media[a].validation.value.sizeBytes.Some?
            && work == WorkOfValidation(w'.media[a].validation.value)
            && ToValidate(work) in w'.messages
  {
    hide Inv;
    MediaIn(cfg, w, a);
    JobIdOf(w.media[a], Validation);
    work := WorkOfValidation(w.media[a].validation.value);
    hide Backed;
  }

  lemma WorkObjectStored(cfg: Config, w: World, a: AssetId, work: ValidationWork)
    requires Inv(cfg, w) && ObjectStored(w, a) && WorkOk(w, work) && work.job == JobId(Validation, a)
    ensures work.objectKey in w.store.metadata && work.objectKey in w.store.contents
    ensures MetadataAgrees(work, w.store.metadata[work.objectKey])
  {
    StoredIsWritten(cfg, w, w.media[a].asset.objectKey);
    hide Inv;
    MediaIn(cfg, w, a);
    JobIdOf(w.media[a], Validation);
    hide Joint;
  }

  lemma ReadStep(cfg: Config, w: World, a: AssetId, work: ValidationWork)
    requires Inv(cfg, w) && ObjectStored(w, a) && ToValidate(work) in w.messages && work.job == JobId(Validation, a)
    ensures Step(cfg, w, ReadMetadata(work, None)) == Send(w, MetadataMatched(work))
  {
    hide Inv;
    MessageIn(cfg, w, ToValidate(work));
    WorkObjectStored(cfg, w, a, work);
  }

  lemma HashStep(cfg: Config, w: World, a: AssetId, work: ValidationWork) returns (result: ValidationResult)
    requires Inv(cfg, w) && ObjectStored(w, a) && MetadataMatched(work) in w.messages && work.job == JobId(Validation, a)
    ensures Step(cfg, w, HashObject(work, None)) == Send(w, ValidationEnded(result))
    ensures result.Validated?
    ensures result == Validated(work.job, work.attempt, work.generation, work.contentType, work.sizeBytes, result.sha256)
  {
    hide Inv;
    MessageIn(cfg, w, MetadataMatched(work));
    WorkObjectStored(cfg, w, a, work);
    var digest := CalculateSha256(w.store, cfg.sha, work.objectKey, work.generation).value;
    result := Validated(work.job, work.attempt, work.generation, work.contentType, work.sizeBytes, digest);
  }

  lemma CompleteStep(cfg: Config, w: World, a: AssetId, result: ValidationResult)
    requires Inv(cfg, w) && ValidationEnded(result) in w.messages && result.Validated?
    requires result.job == JobId(Validation, a) && HasJob(w, result.job)
    requires TheJob(w, result.job).status == Running && TheJob(w, result.job).attempt == result.attempt
    requires w.media[a].asset.status == Processing
    ensures var w' := Step(cfg, w, CompleteValidation(result)); a in w'.media && w'.media[a].asset.status == Ready
  {
    hide Inv;
    MessageIn(cfg, w, ValidationEnded(result));
    MediaIn(cfg, w, a);
    JobIdOf(w.media[a], Validation);
  }

  lemma FinishValidation(cfg: Config, w: World, a: AssetId) returns (more: seq<Action>)
    requires Inv(cfg, w) && Deliverable(w, JobId(Validation, a))
    requires w.media[a].asset.status != Deleted && ObjectStored(w, a)
    ensures var w' := Run(cfg, w, more); a in w'.media && w'.media[a].asset.status == Ready
  {
    hide Inv, Step;
    var start := Start(TaskOf(TheJob(w, JobId(Validation, a))));
    var work := StartValidationStep(cfg, w, a);
    StepKeeps(cfg, w, start);
    var w1 := Step(cfg, w, start);
    assert work.job == JobId(Validation, a) by { MediaIn(cfg, w1, a); JobIdOf(w1.media[a], Validation); }
    ReadStep(cfg, w1, a, work);
    StepKeeps(cfg, w1, ReadMetadata(work, None));
    var w2 := Step(cfg, w1, ReadMetadata(work, None));
    var result := HashStep(cfg, w2, a, work);
    StepKeeps(cfg, w2, HashObject(work, None));
    var w3 := Step(cfg, w2, HashObject(work, None));
    CompleteStep(cfg, w3, a, result);
    more := [start, ReadMetadata(work, None), HashObject(work, None), CompleteValidation(result)];
    assert more[1..] == [ReadMetadata(work, None), HashObject(work, None), CompleteValidation(result)];
    assert more[1..][1..] == [HashObject(work, None), CompleteValidation(result)];
    assert more[1..][1..][1..] == [CompleteValidation(result)];
    RunOne(cfg, w3, CompleteValidation(result));
    assert Run(cfg, w2, more[1..][1..]) == Run(cfg, w3, [CompleteValidation(result)]);
    assert Run(cfg, w1, more[1..]) == Run(cfg, w2, more[1..][1..]);
  }

  ghost predicate CanReach(cfg: Config, w: World, a: AssetId, status: AssetStatus) {
    exists more: seq<Action> :: a in Run(cfg, w, more).media && Run(cfg, w, more).media[a].asset.status == status
  }

  /**
   While its pinned object is stored, an uploaded asset can still become READY from any
   reachable state exactly when it has not been deleted.
   */
  lemma ReadyReachableIff(cfg: Config, actions: seq<Action>, a: AssetId)
    requires var w := After(cfg, actions); a in w.media && w.media[a].validation.Some? && ObjectStored(w, a)
    ensures CanReach(cfg, After(cfg, actions), a, Ready) <==> After(cfg, actions).media[a].asset.status != Deleted
  {
    hide Inv;
    Reachable(cfg, actions);
    var w := After(cfg, actions);
    var id := JobId(Validation, a);
    if w.media[a].asset.status == Deleted {
      forall more: seq<Action> | a in Run(cfg, w, more).media
        ensures Run(cfg, w, more).media[a].asset.status != Ready
      {
        DeletedIsAbsorbing(cfg, actions, more, a);
      }
    } else if TheJob(w, id).status == Succeeded {
      MediaIn(cfg, w, a);
      assert Run(cfg, w, []).media[a].asset.status == Ready;
    } else {
      var back := ReachWorker(cfg, w, id);
      RunKeeps(cfg, w, back);
      var finish := FinishValidation(cfg, Run(cfg, w, back), a);
      RunAppend(cfg, w, back, finish);
      assert Run(cfg, w, back + finish).media[a].asset.status == Ready;
    }
  }

  // --------------------------------------------------------------- deletion

  lemma StartDeletionStep(cfg: Config, w: World, a: AssetId)
    requires Inv(cfg, w) && Deliverable(w, JobId(Deletion, a))
    ensures var id := JobId(Deletion, a);
            var w' := Step(cfg, w, Start(TaskOf(TheJob(w, id))));
            && HasJob(w', id) && TheJob(w', id).status == Running && TheJob(w', id).id == id
            && ToDelete(WorkOfDeletion(TheJob(w', id))) in w'.messages
            && SameObject(w, w', id)
  {
    hide Inv;
    MediaIn(cfg, w, a);
    JobIdOf(w.media[a], Deletion);
    hide Joint, Backed;
  }

  lemma EraseStep(cfg: Config, w: World, id: JobId)
    requires Inv(cfg, w) && HasJob(w, id) && TheJob(w, id).id == id && ToDelete(WorkOfDeletion(TheJob(w, id))) in w.messages
    ensures var w' := Step(cfg, w, EraseObject(WorkOfDeletion(TheJob(w, id)), None, true));
            w'.media == w.media && DeletionEnded(Erased(id, TheJob(w, id).attempt)) in w'.messages
  {
    hide Inv;
    var work := WorkOfDeletion(TheJob(w, id));
    MessageIn(cfg, w, ToDelete(work));
    EraseEffect(cfg, w, work);
    hide DeleteObject;
  }

  lemma FinishDeletion(cfg: Config, w: World, a: AssetId) returns (more: seq<Action>)
    requires Inv(cfg, w) && Deliverable(w, JobId(Deletion, a))
    ensures var w' := Run(cfg, w, more); HasJob(w', JobId(Deletion, a)) && TheJob(w', JobId(Deletion, a)).status == Succeeded
  {
    hide Inv, Step;
    var id := JobId(Deletion, a);
    var start := Start(TaskOf(TheJob(w, id)));
    var w1 := Step(cfg, w, start);
    StartDeletionStep(cfg, w, a);
    StepKeeps(cfg, w, start);
    var erase := EraseObject(WorkOfDeletion(TheJob(w1, id)), None, true);
    var w2 := Step(cfg, w1, erase);
    EraseStep(cfg, w1, id);
    var complete := CompleteDeletion(Erased(id, TheJob(w1, id).attempt));
    CompleteDeletionStep(cfg, w2, id);
    more := [start, erase, complete];
    assert more[1..] == [erase, complete];
    assert more[1..][1..] == [complete];
    RunOne(cfg, w2, complete);
    assert Run(cfg, w1, more[1..]) == Run(cfg, w2, more[1..][1..]);
  }

  lemma CompleteDeletionStep(cfg: Config, w: World, id: JobId)
    requires HasJob(w, id) && TheJob(w, id).id == id && id.kind == Deletion && TheJob(w, id).status == Running
    requires DeletionEnded(Erased(id, TheJob(w, id).attempt)) in w.messages
    ensures var w' := Step(cfg, w, CompleteDeletion(Erased(id, TheJob(w, id).attempt)));
            && HasJob(w', id) && TheJob(w', id).status == Succeeded
            && w'.media[id.asset].asset.status == Deleted
            && w'.media[id.asset].validation == w.media[id.asset].validation
  {
  }

  /** Every recorded deletion can still be carried out, from any reachable state. */
  lemma DeletionReachable(cfg: Config, actions: seq<Action>, a: AssetId)
    requires var w := After(cfg, actions); a in w.media && w.media[a].deletion.Some?
    ensures CanReach(cfg, After(cfg, actions), a, Deleted)
  {
    hide Inv;
    Reachable(cfg, actions);
    var w := After(cfg, actions);
    var id := JobId(Deletion, a);
    var more: seq<Action> := [];
    if TheJob(w, id).status != Succeeded {
      var back := ReachWorker(cfg, w, id);
      RunKeeps(cfg, w, back);
      var finish := FinishDeletion(cfg, Run(cfg, w, back), a);
      RunAppend(cfg, w, back, finish);
      more := back + finish;
    }
    RunKeeps(cfg, w, more);
    MediaIn(cfg, Run(cfg, w, more), a);
  }
}
