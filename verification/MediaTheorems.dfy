/**
 What holds of the media protocol over every run: any interleaving of any number
 of dispatchers, workers, clients and managers, with messages lost, delayed or
 repeated.
 */
module MediaTheorems {
  import opened Common
  import opened BackgroundJobs
  import opened Ports
  import opened MediaWorld
  import opened MediaInvariant
  import opened MediaSteps
  import opened MediaActions

  /** The state after a run of the whole system from its first moment. */
  function After(cfg: Config, actions: seq<Action>): World {
    Run(cfg, INITIAL, actions)
  }

  lemma Reachable(cfg: Config, actions: seq<Action>)
    ensures Inv(cfg, After(cfg, actions))
  {
    assert Inv(cfg, INITIAL);
    RunKeeps(cfg, INITIAL, actions);
  }

  // ------------------------------------------------- assets and their jobs

  /** The asset column and the job columns never disagree, whatever interleaves. */
  lemma AssetAndJobsAgree(cfg: Config, actions: seq<Action>, a: AssetId)
    requires a in After(cfg, actions).media
    ensures var m := After(cfg, actions).media[a];
            && (m.validation.Some? ==> RowOk(m.validation.value))
            && (m.deletion.Some? ==> RowOk(m.deletion.value))
            && (m.asset.status == Ready ==>
                  && m.validation.Some? && m.validation.value.status == Succeeded
                  && m.asset.sha256.Some? && m.asset.generation == Some(m.validation.value.generation))
            && (m.validation.Some? && m.validation.value.status == Succeeded ==> m.asset.status in {Ready, Deleted})
            && (m.asset.status == Processing ==> m.validation.Some? && m.validation.value.status == Running)
            && (m.validation.Some? && m.validation.value.status == Running ==> m.asset.status in {Processing, Deleted})
            && (m.asset.status == Deleted ==> m.deletion.Some?)
  {
    hide Inv, Backed;
    Reachable(cfg, actions);
    MediaIn(cfg, After(cfg, actions), a);
  }

  /**
   A READY asset's digest is the hash of the bytes the store was given for exactly
   the pinned generation, with the asset's type and size, even if the object was
   replaced between the two storage calls or afterwards.
   */
  lemma ReadyDigestIsOfPinnedBytes(cfg: Config, actions: seq<Action>, a: AssetId)
    requires a in After(cfg, actions).media && After(cfg, actions).media[a].asset.status == Ready
    ensures var w := After(cfg, actions);
            var asset := w.media[a].asset;
            && asset.generation.Some?
            && (asset.objectKey, asset.generation.value) in w.written
            && var write := w.written[(asset.objectKey, asset.generation.value)];
               && asset.sha256 == Some(cfg.sha(write.bytes))
               && write.metadata.contentType == asset.contentType
               && asset.actualSize == Some(|write.bytes|)
  {
    hide Inv;
    Reachable(cfg, actions);
    MediaIn(cfg, After(cfg, actions), a);
  }

  /** Deletion is final: the status and the digest of a deleted asset never change again. */
  lemma DeletedIsAbsorbing(cfg: Config, actions: seq<Action>, more: seq<Action>, a: AssetId)
    requires a in After(cfg, actions).media && After(cfg, actions).media[a].asset.status == Deleted
    ensures var w' := Run(cfg, After(cfg, actions), more);
            && a in w'.media && w'.media[a].asset.status == Deleted
            && w'.media[a].asset.sha256 == After(cfg, actions).media[a].asset.sha256
  {
    hide Inv;
    Reachable(cfg, actions);
    RunKeeps(cfg, After(cfg, actions), more);
  }

  // ------------------------------------------------------------------ epochs

  /** Rows never go backwards: over any run a job's epoch and status rank do not decrease. */
  lemma EpochsNeverDecrease(cfg: Config, actions: seq<Action>, more: seq<Action>, id: JobId)
    requires HasJob(After(cfg, actions), id)
    ensures var w := After(cfg, actions);
            var w' := Run(cfg, w, more);
            && HasJob(w', id)
            && SameTarget(TheJob(w, id), TheJob(w', id))
            && (SamePosition(TheJob(w, id), TheJob(w', id)) || LexLess(TheJob(w, id), TheJob(w', id)))
  {
    hide Inv;
    Reachable(cfg, actions);
    RunKeeps(cfg, After(cfg, actions), more);
    JobStays(After(cfg, actions), Run(cfg, After(cfg, actions), more), id);
  }

  /** The job and attempt an action of a dispatcher or worker speaks for. */
  function SpeaksFor(action: Action): Option<(JobId, nat)> {
    match action
    case FinalizeClaim(claim, _) => Some((claim.task.job, claim.task.attempt))
    case Start(task) => Some((task.job, task.attempt))
    case CompleteValidation(result) => Some((result.job, result.attempt))
    case CompleteDeletion(result) => Some((result.job, result.attempt))
    case _ => None
  }

  lemma StaleFinalize(cfg: Config, w: World, claim: Claim, outcome: DispatchOutcome)
    requires Inv(cfg, w) && HasJob(w, claim.task.job) && claim.task.attempt < Epoch(TheJob(w, claim.task.job))
    ensures DoFinalize(w, claim, outcome) == w
  {
    hide Inv, Backed;
    if Reported(claim, outcome) in w.messages {
      var id := claim.task.job;
      MediaIn(cfg, w, id.asset);
      MessageIn(cfg, w, Reported(claim, outcome));
      JobIdOf(w.media[id.asset], id.kind);
      assert Finalized(TheJob(w, id), claim, outcome, w.now).0 == TheJob(w, id);
      SameWrite(w, id);
    }
  }

  /** Writing back an unchanged row changes nothing. */
  lemma SameWrite(w: World, id: JobId)
    requires HasJob(w, id) && TheJob(w, id).id.kind == id.kind
    ensures Update(w, id.asset, WithJob(w.media[id.asset], TheJob(w, id))) == w
  {
    assert WithJob(w.media[id.asset], TheJob(w, id)) == w.media[id.asset];
    assert w.media[id.asset := w.media[id.asset]] == w.media;
  }

  lemma StaleStart(cfg: Config, w: World, task: Task)
    requires Inv(cfg, w) && HasJob(w, task.job) && task.attempt < Epoch(TheJob(w, task.job))
    ensures DoStart(cfg, w, task) == w
  {
    hide Inv, Backed;
    MediaIn(cfg, w, task.job.asset);
    JobIdOf(w.media[task.job.asset], task.job.kind);
  }

  lemma StaleValidationResult(w: World, result: ValidationResult)
    requires HasJob(w, result.job) && result.attempt < Epoch(TheJob(w, result.job))
    ensures DoCompleteValidation(w, result) == w
  {
  }

  lemma StaleDeletionResult(w: World, result: DeletionResult)
    requires HasJob(w, result.job) && result.attempt < Epoch(TheJob(w, result.job))
    ensures DoCompleteDeletion(w, result) == w
  {
  }

  /** A message from an earlier epoch has no effect on anything. */
  lemma StaleNow(cfg: Config, w: World, action: Action)
    requires Inv(cfg, w)
    requires SpeaksFor(action).Some?
    requires var (id, attempt) := SpeaksFor(action).value; HasJob(w, id) && attempt < Epoch(TheJob(w, id))
    ensures Step(cfg, w, action) == w
  {
    hide Inv, DoFinalize, DoStart, DoCompleteValidation, DoCompleteDeletion;
    match action {
      case FinalizeClaim(claim, outcome) => StaleFinalize(cfg, w, claim, outcome);
      case Start(task) => StaleStart(cfg, w, task);
      case CompleteValidation(result) => StaleValidationResult(w, result);
      case CompleteDeletion(result) => StaleDeletionResult(w, result);
    }
  }

  /**
   Stale actors are harmless: once the job a message speaks for has moved to a later
   epoch, using that message at any later moment of any run changes nothing.
   */
  lemma StaleActorsAreHarmless(cfg: Config, actions: seq<Action>, more: seq<Action>, action: Action)
    requires SpeaksFor(action).Some?
    requires var (id, attempt) := SpeaksFor(action).value;
             HasJob(After(cfg, actions), id) && attempt < Epoch(TheJob(After(cfg, actions), id))
    ensures var w' := Run(cfg, After(cfg, actions), more); Step(cfg, w', action) == w'
  {
    hide Inv, Step;
    Reachable(cfg, actions);
    var w := After(cfg, actions);
    RunKeeps(cfg, w, more);
    JobStays(w, Run(cfg, w, more), SpeaksFor(action).value.0);
    StaleNow(cfg, Run(cfg, w, more), action);
  }

  /** A reported queue error never overrides an attempt that got past its dispatch, not even later. */
  lemma AcceptedAttemptStands(cfg: Config, actions: seq<Action>, more: seq<Action>, claim: Claim, code: ErrorCode)
    requires var w := After(cfg, actions);
             && HasJob(w, claim.task.job)
             && TheJob(w, claim.task.job).attempt == claim.task.attempt
             && Rank(TheJob(w, claim.task.job).status) >= Rank(Queued)
    ensures var w' := Run(cfg, After(cfg, actions), more);
            Step(cfg, w', FinalizeClaim(claim, Refused(code))) == w'
  {
    hide Inv;
    Reachable(cfg, actions);
    var w := After(cfg, actions);
    var w' := Run(cfg, w, more);
    var id := claim.task.job;
    RunKeeps(cfg, w, more);
    JobStays(w, w', id);
    if claim.task.attempt < Epoch(TheJob(w', id)) {
      StaleFinalize(cfg, w', claim, Refused(code));
    } else {
      assert Finalized(TheJob(w', id), claim, Refused(code), w'.now).0 == TheJob(w', id);
      MediaIn(cfg, w', id.asset);
      SameWrite(w', id);
    }
  }

  // ------------------------------------------------- one task for an attempt

  /** The key of an attempt determines its request, so the queue never refuses one as a conflict. */
  lemma QueueNeverConflicts(cfg: Config, actions: seq<Action>, claim: Claim)
    requires Leased(claim) in After(cfg, actions).messages
    ensures Enqueue(After(cfg, actions).queue, KeyOf(claim.task), RequestOf(cfg, claim.task)).Ok?
  {
    Reachable(cfg, actions);
    var w := After(cfg, actions);
    MessageIn(cfg, w, Leased(claim));
    ClaimNeverConflicts(cfg, w, claim);
  }

  /**
   A stored task ID is the queue's answer for the row's current attempt; it is absent
   before acceptance and never replaced while the epoch lasts.
   */
  lemma OneTaskPerEpoch(cfg: Config, actions: seq<Action>, more: seq<Action>, id: JobId)
    requires HasJob(After(cfg, actions), id)
    ensures var w := After(cfg, actions);
            var job := TheJob(w, id);
            && (job.status in {Pending, Dispatching} ==> job.taskId.None?)
            && (job.taskId.Some? ==>
                  && AttemptKey(id, job.attempt) in w.queue.enqueued
                  && job.taskId == Some(w.queue.enqueued[AttemptKey(id, job.attempt)]))
    ensures var w := After(cfg, actions);
            var w' := Run(cfg, w, more);
            && HasJob(w', id)
            && (TheJob(w, id).taskId.Some? && Epoch(TheJob(w', id)) == Epoch(TheJob(w, id)) ==>
                  TheJob(w', id).taskId == TheJob(w, id).taskId)
  {
    hide Inv;
    Reachable(cfg, actions);
    var w := After(cfg, actions);
    MediaIn(cfg, w, id.asset);
    JobIdOf(w.media[id.asset], id.kind);
    RunKeeps(cfg, w, more);
    JobStays(w, Run(cfg, w, more), id);
  }

  // ------------------------------------------------------ retention, deletion

  /** The k-th action of a run is an accepted review that asks for the deletion of a READY analysis video. */
  predicate AskedByReview(cfg: Config, actions: seq<Action>, k: nat, a: AssetId) {
    && k < |actions| && actions[k].ConsumeReviewVideo? && actions[k].asset == a
    && var w := After(cfg, actions[..k]);
       && a in w.media && w.media[a].deletion.None?
       && ReviewVideo(w.media[a].asset) && w.media[a].asset.status == Ready
  }

  ghost predicate EverAskedByReview(cfg: Config, actions: seq<Action>, a: AssetId) {
    exists k: nat :: AskedByReview(cfg, actions, k, a)
  }

  lemma {:induction false} RunSplits(cfg: Config, w: World, actions: seq<Action>)
    requires actions != []
    ensures var n := |actions| - 1; Run(cfg, w, actions) == Step(cfg, Run(cfg, w, actions[..n]), actions[n])
    decreases |actions|
  {
    hide Step;
    var n := |actions| - 1;
    if n == 0 {
      assert actions[1..] == [];
    } else {
      RunSplits(cfg, Step(cfg, w, actions[0]), actions[1..]);
      assert actions[1..][..n - 1] == actions[..n][1..];
    }
  }

  lemma ReviewStep(cfg: Config, w: World, action: Action, a: AssetId)
    requires Inv(cfg, w)
    ensures a in Step(cfg, w, action).reviewed <==>
              || a in w.reviewed
              || (&& action.ConsumeReviewVideo? && action.asset == a && a in w.media && w.media[a].deletion.None?
                  && ReviewVideo(w.media[a].asset) && w.media[a].asset.status == Ready)
  {
    hide Inv, Backed, CompletionEvidence;
    if action.ConsumeReviewVideo? && action.asset in w.media {
      MediaIn(cfg, w, action.asset);
    } else if action.CompleteMoveJob? && Step(cfg, w, action) != w {
      RowsKeyed(cfg, w);
      EvidenceScheduled(w.(moveJobs := w.moveJobs[action.moveJob := Some(w.now)]), action.evidence, action.trace,
                        w.now + cfg.retention);
    }
  }

  lemma AskedBefore(cfg: Config, actions: seq<Action>, k: nat, a: AssetId)
    requires k < |actions| - 1
    ensures AskedByReview(cfg, actions[..|actions| - 1], k, a) <==> AskedByReview(cfg, actions, k, a)
  {
    hide After, ReviewVideo;
    assert actions[..|actions| - 1][..k] == actions[..k];
  }

  /** One more action asks, or an earlier one did. */
  lemma AskedSplits(cfg: Config, actions: seq<Action>, a: AssetId)
    requires actions != []
    ensures var n := |actions| - 1;
            EverAskedByReview(cfg, actions, a) <==>
              EverAskedByReview(cfg, actions[..n], a) || AskedByReview(cfg, actions, n, a)
  {
    var n := |actions| - 1;
    forall k: nat | k < n ensures AskedByReview(cfg, actions[..n], k, a) <==> AskedByReview(cfg, actions, k, a) {
      AskedBefore(cfg, actions, k, a);
    }
    AskedInRange(cfg, actions, a);
    AskedInRange(cfg, actions[..n], a);
    hide AskedByReview;
  }

  lemma AskedInRange(cfg: Config, actions: seq<Action>, a: AssetId)
    ensures forall k: nat :: AskedByReview(cfg, actions, k, a) ==> k < |actions|
  {
    hide After, ReviewVideo;
  }

  lemma {:induction false} ReviewedIff(cfg: Config, actions: seq<Action>, a: AssetId)
    ensures a in After(cfg, actions).reviewed <==> EverAskedByReview(cfg, actions, a)
    decreases |actions|
  {
    hide Inv, Step, EverAskedByReview, ReviewVideo, Run;
    if actions == [] {
      NeverAsked(cfg, a);
    } else {
      var n := |actions| - 1;
      ReviewedIff(cfg, actions[..n], a);
      RunSplits(cfg, INITIAL, actions);
      Reachable(cfg, actions[..n]);
      ReviewStep(cfg, After(cfg, actions[..n]), actions[n], a);
      AskedSplits(cfg, actions, a);
    }
  }

  lemma NeverAsked(cfg: Config, a: AssetId)
    ensures After(cfg, []).reviewed == {} && !EverAskedByReview(cfg, [], a)
  {
  }

  /**
   Unless an accepted review of an analysis video asked for it, no deletion attempt begins
   before the end of the retention period: the move job is completed, and the attempt is that late.
   */
  lemma RetentionIsKept(cfg: Config, actions: seq<Action>, a: AssetId)
    requires var w := After(cfg, actions); a in w.media && w.media[a].deletion.Some?
    requires !EverAskedByReview(cfg, actions, a)
    ensures var w := After(cfg, actions);
            var m := w.media[a];
            && m.asset.moveJob in w.moveJobs && w.moveJobs[m.asset.moveJob].Some?
            && var earliest := w.moveJobs[m.asset.moveJob].value + cfg.retention;
               && (m.deletion.value.attempt >= 1 ==>
                     && m.deletion.value.lastAttemptAt.Some?
                     && earliest <= m.deletion.value.lastAttemptAt.value <= w.now)
               && (m.deletion.value.attempt == 0 ==> earliest <= m.deletion.value.scheduledAt)
  {
    hide Inv;
    Reachable(cfg, actions);
    ReviewedIff(cfg, actions, a);
    MediaIn(cfg, After(cfg, actions), a);
  }

  /** A scheduled deletion is untouched before its time: a claim then does nothing. */
  lemma NoEarlyClaim(cfg: Config, actions: seq<Action>, a: AssetId, token: Token)
    requires var w := After(cfg, actions);
             && a in w.media && w.media[a].deletion.Some?
             && w.media[a].asset.moveJob in w.moveJobs
             && w.moveJobs[w.media[a].asset.moveJob].Some?
             && w.now < w.moveJobs[w.media[a].asset.moveJob].value + cfg.retention
    requires !EverAskedByReview(cfg, actions, a)
    ensures var w := After(cfg, actions); Step(cfg, w, ClaimJob(JobId(Deletion, a), token)) == w
  {
    hide Inv;
    Reachable(cfg, actions);
    ReviewedIff(cfg, actions, a);
    MediaIn(cfg, After(cfg, actions), a);
  }

  /** The media rows with a deletion intent added where there was none. */
  function WithIntent(m: Media, trace: string, scheduledAt: Time): Media {
    if m.deletion.Some? || m.asset.generation.None? then m
    else m.(deletion := Some(CreateDeletion(m.asset, None, trace, scheduledAt)))
  }

  ghost predicate KeyedRows(w: World) {
    forall a :: a in w.media ==>
      && w.media[a].asset.id == a
      && (w.media[a].deletion.Some? ==> w.media[a].deletion.value.id == JobId(Deletion, a))
  }

  lemma RowsKeyed(cfg: Config, w: World)
    requires Inv(cfg, w)
    ensures KeyedRows(w)
  {
    hide Inv, Backed;
    forall a | a in w.media
      ensures w.media[a].asset.id == a
      ensures w.media[a].deletion.Some? ==> w.media[a].deletion.value.id == JobId(Deletion, a)
    {
      MediaIn(cfg, w, a);
    }
  }

  lemma IntentOf(w: World, a: AssetId, trace: string, scheduledAt: Time)
    requires KeyedRows(w) && DoRetention(w, a, w.now, trace, scheduledAt).Ok?
    ensures DoRetention(w, a, w.now, trace, scheduledAt).value
            == w.(media := w.media[a := WithIntent(w.media[a], trace, scheduledAt)])
  {
    if w.media[a].deletion.Some? {
      SameWrite(w, JobId(Deletion, a));
    }
  }

  lemma {:induction false} EvidenceScheduled(w: World, evidence: seq<AssetId>, trace: string, scheduledAt: Time)
    requires KeyedRows(w) && ScheduleEvidence(w, evidence, trace, scheduledAt).Ok?
    ensures var w' := ScheduleEvidence(w, evidence, trace, scheduledAt).value;
            && w' == w.(media := w'.media)
            && w'.media.Keys == w.media.Keys
            && (forall a :: a in w.media ==>
                  w'.media[a] == if a in evidence then WithIntent(w.media[a], trace, scheduledAt) else w.media[a])
    decreases |evidence|
  {
    if evidence != [] {
      IntentOf(w, evidence[0], trace, scheduledAt);
      hide DoRetention, CreateDeletion;
      var w1 := DoRetention(w, evidence[0], w.now, trace, scheduledAt).value;
      assert KeyedRows(w1) by { IntentKeyed(w, w1, evidence[0], trace, scheduledAt); }
      EvidenceScheduled(w1, evidence[1..], trace, scheduledAt);
      IntentTwice(w.media[evidence[0]], trace, scheduledAt);
      assert forall a :: a in evidence <==> a == evidence[0] || a in evidence[1..];
    }
  }

  lemma IntentKeyed(w: World, w1: World, a: AssetId, trace: string, scheduledAt: Time)
    requires KeyedRows(w) && a in w.media && w1 == w.(media := w.media[a := WithIntent(w.media[a], trace, scheduledAt)])
    ensures KeyedRows(w1)
  {
  }

  lemma IntentTwice(m: Media, trace: string, scheduledAt: Time)
    ensures WithIntent(WithIntent(m, trace, scheduledAt), trace, scheduledAt) == WithIntent(m, trace, scheduledAt)
  {
  }

  /**
   Completing a move job creates one intent for each evidence asset, due exactly one
   retention period after the completion, and touches no other row.
   */
  lemma CompletionSchedulesEvidence(cfg: Config, actions: seq<Action>, moveJob: MoveJobId, evidence: seq<AssetId>, trace: string)
    requires var w := After(cfg, actions); DoCompleteMoveJob(cfg, w, moveJob, evidence, trace) != w
    ensures var w := After(cfg, actions);
            var w' := Step(cfg, w, CompleteMoveJob(moveJob, evidence, trace));
            && moveJob in w'.moveJobs && w'.moveJobs[moveJob] == Some(w.now)
            && w'.media.Keys == w.media.Keys
            && (forall a :: a in w.media && a !in evidence ==> w'.media[a] == w.media[a])
            && (forall a :: a in evidence ==>
                  && a in w.media && w.media[a].deletion.None?
                  && w'.media[a].deletion.Some?
                  && w'.media[a] == w.media[a].(deletion := w'.media[a].deletion)
                  && w'.media[a].deletion.value.status == Pending
                  && w'.media[a].deletion.value.scheduledAt == w.now + cfg.retention
                  && Some(w'.media[a].deletion.value.generation) == w.media[a].asset.generation)
  {
    hide Inv, After, DoCompleteMoveJob;
    Reachable(cfg, actions);
    CompletionSchedules(cfg, After(cfg, actions), moveJob, evidence, trace);
  }

  lemma CompletionSchedules(cfg: Config, w: World, moveJob: MoveJobId, evidence: seq<AssetId>, trace: string)
    requires Inv(cfg, w) && DoCompleteMoveJob(cfg, w, moveJob, evidence, trace) != w
    ensures var w' := DoCompleteMoveJob(cfg, w, moveJob, evidence, trace);
            && moveJob in w'.moveJobs && w'.moveJobs[moveJob] == Some(w.now)
            && w'.media.Keys == w.media.Keys
            && (forall a :: a in w.media && a !in evidence ==> w'.media[a] == w.media[a])
            && (forall a :: a in evidence ==>
                  && a in w.media && w.media[a].deletion.None?
                  && w'.media[a].deletion.Some?
                  && w'.media[a] == w.media[a].(deletion := w'.media[a].deletion)
                  && w'.media[a].deletion.value.status == Pending
                  && w'.media[a].deletion.value.scheduledAt == w.now + cfg.retention
                  && Some(w'.media[a].deletion.value.generation) == w.media[a].asset.generation)
  {
    hide Inv, KeyedRows;
    var w1 := w.(moveJobs := w.moveJobs[moveJob := Some(w.now)]);
    RowsKeyed(cfg, w);
    assert KeyedRows(w1) by { SameKeyed(w, w1); }
    EvidenceScheduled(w1, evidence, trace, w.now + cfg.retention);
    forall a | a in evidence
      ensures a in w.media && w.media[a].deletion.None? && w.media[a].asset.generation.Some?
    {
      var i :| 0 <= i < |evidence| && evidence[i] == a;
      assert CompletionEvidence(w, moveJob, evidence[i]);
      EvidenceUnscheduled(cfg, w, a);
    }
    hide ScheduleEvidence, CompletionEvidence;
  }

  lemma SameKeyed(w: World, w1: World)
    requires KeyedRows(w) && w1.media == w.media
    ensures KeyedRows(w1)
  {
  }

  lemma EvidenceUnscheduled(cfg: Config, w: World, a: AssetId)
    requires Inv(cfg, w) && a in w.media && CompletionEvidence(w, w.media[a].asset.moveJob, a)
    requires w.media[a].asset.moveJob in w.moveJobs && w.moveJobs[w.media[a].asset.moveJob].None?
    ensures w.media[a].deletion.None? && w.media[a].asset.generation.Some?
  {
    hide Inv;
    MediaIn(cfg, w, a);
  }

  /**
   A succeeded deletion means the pinned generation is gone from the store, exactly one
   media-deleted event was appended for it, and both stay so over any further run.
   */
  lemma DeletionIsFinal(cfg: Config, actions: seq<Action>, more: seq<Action>, a: AssetId)
    requires var w := After(cfg, actions);
             a in w.media && w.media[a].deletion.Some? && w.media[a].deletion.value.status == Succeeded
    ensures var w' := Run(cfg, After(cfg, actions), more);
            && a in w'.media && w'.media[a].deletion.Some?
            && w'.media[a].asset.status == Deleted
            && Gone(w'.store, w'.media[a].asset.objectKey, w'.media[a].deletion.value.generation)
            && w'.media[a].asset.generation == Some(w'.media[a].deletion.value.generation)
            && w'.outbox[MediaDeleted(w'.media[a].asset.moveJob, JobId(Deletion, a))] == 1
  {
    hide Inv;
    Reachable(cfg, actions);
    RunKeeps(cfg, After(cfg, actions), more);
    MediaIn(cfg, Run(cfg, After(cfg, actions), more), a);
  }

  /** Before the deletion succeeded there is no event. */
  lemma NoEventBeforeDeletion(cfg: Config, actions: seq<Action>, a: AssetId)
    requires var w := After(cfg, actions);
             a in w.media && !(w.media[a].deletion.Some? && w.media[a].deletion.value.status == Succeeded)
    ensures var w := After(cfg, actions); w.outbox[MediaDeleted(w.media[a].asset.moveJob, JobId(Deletion, a))] == 0
  {
    hide Inv;
    Reachable(cfg, actions);
    MediaIn(cfg, After(cfg, actions), a);
  }

  /**
   Whatever a storage read answers is one whole write: metadata and hash describe the same
   bytes, and a hash is given for exactly the generation the metadata names.
   */
  lemma ReadsAreWholeWrites(cfg: Config, actions: seq<Action>, key: string, generation: string)
    ensures var w := After(cfg, actions);
            var seen := GetMetadata(w.store, key);
            var digest := CalculateSha256(w.store, cfg.sha, key, generation);
            && (seen.Ok? <==> key in w.store.metadata)
            && (digest.Ok? <==> seen.Ok? && seen.value.generation == generation)
            && (seen.Ok? ==>
                  && (key, seen.value.generation) in w.written
                  && w.written[(key, seen.value.generation)].metadata == seen.value
                  && seen.value.sizeBytes == |w.written[(key, seen.value.generation)].bytes|)
            && (digest.Ok? ==>
                  && (key, generation) in w.written
                  && digest.value == cfg.sha(w.written[(key, generation)].bytes))
  {
    hide Inv;
    Reachable(cfg, actions);
    if key in After(cfg, actions).store.metadata { StoredIsWritten(cfg, After(cfg, actions), key); }
  }

  /** Only writes and deletions reach the store. */
  lemma StoreUntouched(cfg: Config, w: World, action: Action)
    requires Inv(cfg, w) && !action.WriteObject? && !action.EraseObject?
    ensures Step(cfg, w, action).store == w.store
  {
    hide Inv, CompletionEvidence;
    if action.CompleteMoveJob? && DoCompleteMoveJob(cfg, w, action.moveJob, action.evidence, action.trace) != w {
      RowsKeyed(cfg, w);
      var w1 := w.(moveJobs := w.moveJobs[action.moveJob := Some(w.now)]);
      EvidenceScheduled(w1, action.evidence, action.trace, w.now + cfg.retention);
    }
  }

  /** A stored object only disappears by being overwritten, or by a deletion of exactly its generation. */
  lemma OnlyThePinnedGenerationIsRemoved(cfg: Config, actions: seq<Action>, action: Action, key: string)
    requires var w := After(cfg, actions);
             && key in w.store.metadata
             && (key !in Step(cfg, w, action).store.metadata
                 || Step(cfg, w, action).store.metadata[key] != w.store.metadata[key])
    ensures (action.WriteObject? && action.upload.objectKey == key)
            || (action.EraseObject? && var w := After(cfg, actions); var work := action.deletion;
                HasJob(w, work.job) && work.job.kind == Deletion
                && TheJob(w, work.job).objectKey == key
                && TheJob(w, work.job).generation == w.store.metadata[key].generation)
  {
    hide Inv, After;
    Reachable(cfg, actions);
    var w := After(cfg, actions);
    if action.WriteObject? {
    } else if action.EraseObject? {
      EraseRemovesPinned(cfg, w, action, key);
    } else {
      hide Step;
      StoreUntouched(cfg, w, action);
    }
  }

  lemma EraseRemovesPinned(cfg: Config, w: World, action: Action, key: string)
    requires Inv(cfg, w) && action.EraseObject? && key in w.store.metadata
    requires key !in Step(cfg, w, action).store.metadata || Step(cfg, w, action).store.metadata[key] != w.store.metadata[key]
    ensures var work := action.deletion;
            && HasJob(w, work.job) && work.job.kind == Deletion
            && TheJob(w, work.job).objectKey == key
            && TheJob(w, work.job).generation == w.store.metadata[key].generation
  {
    hide Inv;
    if ToDelete(action.deletion) in w.messages {
      MessageIn(cfg, w, ToDelete(action.deletion));
    }
  }
}
