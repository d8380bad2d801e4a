/**
 Every action of the media protocol keeps the invariant and only advances the
 state. One lemma per action; the frame lemmas first.
 */
module MediaSteps {
  import opened Common
  import opened BackgroundJobs
  import opened Ports
  import opened MediaWorld
  import opened MediaInvariant
  import opened MediaRows

  // ---------------------------------------------------------------- frames

  lemma AdvancesReflexive(w: World)
    ensures Advances(w, w)
  {
  }

  lemma AdvancesTransitive(w: World, w1: World, w2: World)
    requires Advances(w, w1) && Advances(w1, w2)
    ensures Advances(w, w2)
  {
    forall a | a in w.media ensures a in w2.media && MediaAdvances(w.media[a], w2.media[a]) {
      assert MediaAdvances(w.media[a], w1.media[a]) && MediaAdvances(w1.media[a], w2.media[a]);
    }
    forall id ensures TokenKept(w, w2, id) {
      assert TokenKept(w, w1, id) && TokenKept(w1, w2, id);
    }
  }

  lemma JobStays(w: World, w': World, id: JobId)
    requires Advances(w, w') && HasJob(w, id)
    ensures HasJob(w', id) && JobAdvances(TheJob(w, id), TheJob(w', id))
  {
    assert MediaAdvances(w.media[id.asset], w'.media[id.asset]);
  }

  lemma LeaseStays(w: World, w': World, claim: Claim)
    requires Advances(w, w') && LeaseOk(w, claim)
    ensures LeaseOk(w', claim)
  {
    JobStays(w, w', claim.task.job);
    assert TokenKept(w, w', claim.task.job);
  }

  lemma MediaIn(cfg: Config, w: World, a: AssetId)
    requires Inv(cfg, w) && a in w.media
    ensures MediaOk(cfg, w, a, w.media[a])
  {
  }

  lemma MessageIn(cfg: Config, w: World, message: Message)
    requires Inv(cfg, w) && message in w.messages
    ensures MessageOk(cfg, w, message)
  {
  }

  /** The generation a job is pinned to has been written. */
  lemma TargetWritten(cfg: Config, w: World, id: JobId)
    requires Inv(cfg, w) && HasJob(w, id)
    ensures (TheJob(w, id).objectKey, TheJob(w, id).generation) in w.written
  {
    assert MediaOk(cfg, w, id.asset, w.media[id.asset]);
  }

  lemma TaskStays(w: World, w': World, task: Task)
    requires Advances(w, w') && TaskOk(w, task)
    ensures TaskOk(w', task)
  {
    JobStays(w, w', task.job);
  }

  lemma WorkStays(w: World, w': World, work: ValidationWork)
    requires Advances(w, w') && WorkOk(w, work)
    ensures WorkOk(w', work)
  {
    JobStays(w, w', work.job);
  }

  lemma ResultStays(cfg: Config, w: World, w': World, result: ValidationResult)
    requires Advances(w, w') && ResultOk(cfg, w, result)
    ensures ResultOk(cfg, w', result)
  {
    JobStays(w, w', result.job);
  }

  lemma EraseWorkStays(w: World, w': World, work: DeletionWork)
    requires Advances(w, w') && EraseWorkOk(w, work)
    ensures EraseWorkOk(w', work)
  {
    JobStays(w, w', work.job);
  }

  lemma EraseResultStays(cfg: Config, w: World, w': World, result: DeletionResult)
    requires Inv(cfg, w) && Advances(w, w') && EraseResultOk(w, result)
    ensures EraseResultOk(w', result)
  {
    JobStays(w, w', result.job);
    TargetWritten(cfg, w, result.job);
    hide Inv, Advances;
    if result.Erased? { GoneStays(w, w', TheJob(w, result.job).objectKey, TheJob(w, result.job).generation); }
  }

  lemma GoneStays(w: World, w': World, key: string, generation: string)
    requires Advances(w, w') && (key, generation) in w.written && Gone(w.store, key, generation)
    ensures Gone(w'.store, key, generation)
  {
    var pair := (key, generation);
    assert pair in w.written && Gone(w.store, pair.0, pair.1);
  }

  /** A message once sound stays sound. */
  lemma MessageStays(cfg: Config, w: World, w': World, message: Message)
    requires Inv(cfg, w) && Advances(w, w') && MessageOk(cfg, w, message)
    ensures MessageOk(cfg, w', message)
  {
    match message {
      case UploadSeen(_, _) =>
      case Leased(claim) => LeaseStays(w, w', claim);
      case Reported(claim, _) => LeaseStays(w, w', claim);
      case Delivered(task) => TaskStays(w, w', task);
      case ToValidate(work) => WorkStays(w, w', work);
      case MetadataMatched(work) => WorkStays(w, w', work);
      case ValidationEnded(result) => ResultStays(cfg, w, w', result);
      case ToDelete(work) => EraseWorkStays(w, w', work);
      case DeletionEnded(result) => EraseResultStays(cfg, w, w', result);
    }
  }

  /** An asset an action does not touch stays sound. */
  lemma MediaStays(cfg: Config, w: World, w': World, a: AssetId)
    requires Inv(cfg, w) && Advances(w, w') && a in w.media && a in w'.media && w'.media[a] == w.media[a]
    requires var e := MediaDeleted(w.media[a].asset.moveJob, JobId(Deletion, a)); w'.outbox[e] == w.outbox[e]
    requires a in w'.reviewed ==> a in w.reviewed || ReviewVideo(w.media[a].asset)
    ensures MediaOk(cfg, w', a, w'.media[a])
  {
    var m := w.media[a];
    assert MediaOk(cfg, w, a, m);
    if m.deletion.Some? && m.deletion.value.status == Succeeded {
      var pair := (m.asset.objectKey, m.deletion.value.generation);
      assert pair in w.written && Gone(w.store, pair.0, pair.1);
    }
  }

  /** The deletion requests the store remembers stay sound. */
  lemma DeleteRequestsStay(cfg: Config, w: World, w': World, key: IdempotencyKey)
    requires Inv(cfg, w) && Advances(w, w') && key in w.store.deleteRequests
    ensures key.DeleteKey? && key.job.kind == Deletion && HasJob(w', key.job)
    ensures w.store.deleteRequests[key] == (TheJob(w', key.job).objectKey, TheJob(w', key.job).generation)
    ensures Gone(w'.store, TheJob(w', key.job).objectKey, TheJob(w', key.job).generation)
  {
    JobStays(w, w', key.job);
    TargetWritten(cfg, w, key.job);
    var pair := (TheJob(w, key.job).objectKey, TheJob(w, key.job).generation);
    assert Gone(w.store, pair.0, pair.1);
  }

  lemma PortsStay(cfg: Config, w: World, w': World)
    requires Inv(cfg, w) && Advances(w, w')
    requires w'.store == w.store && w'.written == w.written && w'.queue == w.queue
    ensures StoreOk(w') && QueueOk(cfg, w')
  {
    forall key | key in w'.store.deleteRequests
      ensures key.DeleteKey? && key.job.kind == Deletion && HasJob(w', key.job)
      ensures w'.store.deleteRequests[key] == (TheJob(w', key.job).objectKey, TheJob(w', key.job).generation)
      ensures Gone(w'.store, TheJob(w', key.job).objectKey, TheJob(w', key.job).generation)
    {
      DeleteRequestsStay(cfg, w, w', key);
    }
    forall key | key in w'.queue.requests
      ensures key.AttemptKey? && HasJob(w', key.job)
      ensures w'.queue.requests[key] == RequestOf(cfg, Task(key.job, key.attempt, TheJob(w', key.job).trace))
    {
      JobStays(w, w', key.job);
    }
  }

  /** The tokens a transaction leaves on the rows of one asset: the old ones, or new ones. */
  ghost predicate TokensFrom(w: World, m: Media, m': Media) {
    forall kind :: JobOf(m', kind).Some? && JobOf(m', kind).value.token.Some? ==>
      || JobOf(m', kind).value.token.value !in w.usedTokens
      || (JobOf(m, kind).Some? && JobOf(m, kind).value.token == JobOf(m', kind).value.token
          && JobOf(m, kind).value.attempt == JobOf(m', kind).value.attempt)
  }

  lemma CommitAdvances(w: World, a: AssetId, m: Media, sent: set<Message>, tokens: set<Token>, events: multiset<Event>)
    requires a in w.media && MediaAdvances(w.media[a], m) && TokensFrom(w, w.media[a], m)
    ensures Advances(w, Commit(w, a, m, sent, tokens, events))
  {
    var w' := Commit(w, a, m, sent, tokens, events);
    hide MediaAdvances;
    forall b | b in w.media ensures MediaAdvances(w.media[b], w'.media[b]) {
      if b != a { SameMedia(w.media[b]); }
    }
    forall id ensures TokenKept(w, w', id) {
      assert id.asset == a && HasJob(w', id) ==> TheJob(w', id) == JobOf(m, id.kind).value;
    }
  }

  lemma SameMedia(m: Media)
    ensures MediaAdvances(m, m)
  {
  }

  lemma CommitKeeps(cfg: Config, w: World, a: AssetId, m: Media, sent: set<Message>, tokens: set<Token>, events: multiset<Event>)
    requires Inv(cfg, w) && a in w.media && KeepsRows(w.media[a], m) && TokensFrom(w, w.media[a], m)
    requires Backed(cfg, Commit(w, a, m, sent, tokens, events), m)
    requires forall msg :: msg in sent ==> MessageOk(cfg, Commit(w, a, m, sent, tokens, events), msg)
    requires forall e :: e in events ==> e.job == JobId(Deletion, a) && m.deletion.Some?
    ensures Inv(cfg, Commit(w, a, m, sent, tokens, events)) && Advances(w, Commit(w, a, m, sent, tokens, events))
  {
    hide Backed, MessageOk, StoreOk, QueueOk, MediaAdvances, Joint;
    var w' := Commit(w, a, m, sent, tokens, events);
    CommitAdvances(w, a, m, sent, tokens, events);
    PortsStay(cfg, w, w');
    forall b | b in w'.media ensures MediaOk(cfg, w', b, w'.media[b]) {
      if b != a {
        MediaStays(cfg, w, w', b);
      }
    }
    forall msg | msg in w'.messages ensures MessageOk(cfg, w', msg) {
      if msg in w.messages { MessageStays(cfg, w, w', msg); }
    }
    forall e | e in w'.outbox ensures HasJob(w', e.job) {
      if e in w.outbox { JobStays(w, w', e.job); }
    }
  }

  /** The shape of an action that touches no row: time, storage, queue, new messages. */
  ghost predicate NoRow(w: World, w': World) {
    w'.media == w.media && w'.outbox == w.outbox && Advances(w, w')
  }

  lemma NoRowKeeps(cfg: Config, w: World, w': World)
    requires Inv(cfg, w) && NoRow(w, w')
    requires StoreOk(w') && QueueOk(cfg, w')
    requires w'.moveJobs == w.moveJobs && w'.reviewed == w.reviewed
    requires forall m :: m in w'.messages && m !in w.messages ==> MessageOk(cfg, w', m)
    ensures Inv(cfg, w')
  {
    forall a | a in w'.media ensures MediaOk(cfg, w', a, w'.media[a]) {
      MediaStays(cfg, w, w', a);
    }
    forall m | m in w'.messages ensures MessageOk(cfg, w', m) {
      if m in w.messages { MessageStays(cfg, w, w', m); }
    }
  }

  lemma JobIdOf(m: Media, kind: JobKind)
    requires Joint(m) && JobOf(m, kind).Some?
    ensures JobOf(m, kind).value.id == JobId(kind, m.asset.id) && JobOf(m, kind).value.moveJob == m.asset.moveJob
    ensures JobOk(JobOf(m, kind).value)
    ensures JobOf(m, kind).value.token.Some? <==> JobOf(m, kind).value.status == Dispatching
    ensures JobOf(m, kind).value.lastAttemptAt.Some? <==> JobOf(m, kind).value.attempt >= 1
    ensures JobOf(m, kind).value.status != Pending ==> JobOf(m, kind).value.attempt >= 1
    ensures JobOf(m, kind).value.status in {Pending, Dispatching} ==> JobOf(m, kind).value.taskId.None?
    ensures kind == Validation ==> PinnedTo(JobOf(m, kind).value, m.asset)
    ensures kind == Deletion ==> DeletionTargets(JobOf(m, kind).value, m.asset)
  {
  }
}
