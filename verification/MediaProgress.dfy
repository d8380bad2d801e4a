/**
 What one step may do to a row, where the protocol can get stuck, and that it
 can get stuck nowhere else: from every reachable state there is a way to finish.
 */
module MediaProgress {
  import opened Common
  import opened BackgroundJobs
  import opened Ports
  import opened MediaWorld
  import opened MediaInvariant
  import opened MediaRows
  import opened MediaSteps
  import opened MediaActions
  import opened MediaTheorems

  // --------------------------------------------------------------- one step

  ghost predicate AllMove(w: World, w': World) {
    forall a :: a in w.media ==> a in w'.media && RowsMove(w.media[a], w'.media[a])
  }

  lemma UploadMoves(cfg: Config, w: World, a: AssetId, seen: Metadata, trace: string)
    requires Inv(cfg, w)
    ensures AllMove(w, DoCompleteUpload(w, a, seen, trace))
  {
    hide Inv, Backed, JobOk;
    if a in w.media { MediaIn(cfg, w, a); }
  }

  lemma ConsumeMoves(cfg: Config, w: World, a: AssetId, trace: string)
    requires Inv(cfg, w)
    ensures AllMove(w, DoConsumeReviewVideo(w, a, trace))
  {
    hide Inv, Backed, JobOk;
    if a in w.media { MediaIn(cfg, w, a); }
  }

  lemma RetentionMoves(cfg: Config, w: World, a: AssetId, trace: string)
    requires Inv(cfg, w)
    ensures AllMove(w, DoRequestRetention(cfg, w, a, trace))
  {
    hide Inv, Backed, JobOk;
    if a in w.media { MediaIn(cfg, w, a); }
  }

  lemma DispatchMoves(cfg: Config, w: World, action: Action)
    requires Inv(cfg, w) && (action.ClaimJob? || action.FinalizeClaim? || action.Retry?)
    ensures AllMove(w, Step(cfg, w, action))
  {
    hide Inv, Backed, Joint, Moves, MediaAdvances, Claimed, Finalized, Retried;
    var id := match action
      case ClaimJob(job, _) => job
      case FinalizeClaim(claim, _) => claim.task.job
      case Retry(job) => job;
    if HasJob(w, id) {
      var m := w.media[id.asset];
      MediaIn(cfg, w, id.asset);
      JobIdOf(m, id.kind);
      match action {
        case ClaimJob(_, token) =>
          if Due(TheJob(w, id), w.now) { ClaimRows(m, id.kind, w.now, cfg.leaseSeconds, token); }
        case FinalizeClaim(claim, outcome) => FinalizeRows(m, id.kind, claim, outcome, w.now);
        case Retry(_) => RetryRows(m, id.kind, w.now);
      }
    }
    SameRows(w);
  }

  lemma WorkerMoves(cfg: Config, w: World, action: Action)
    requires Inv(cfg, w) && (action.Start? || action.CompleteValidation? || action.CompleteDeletion?)
    ensures AllMove(w, Step(cfg, w, action))
  {
    hide Inv, Backed, Joint, Moves, MediaAdvances, StartedValidation, StartedDeletion, CompletedValidation, CompletedDeletion;
    var id := match action
      case Start(task) => task.job
      case CompleteValidation(result) => result.job
      case CompleteDeletion(result) => result.job;
    if HasJob(w, id) {
      var m := w.media[id.asset];
      MediaIn(cfg, w, id.asset);
      JobIdOf(m, id.kind);
      match action {
        case Start(task) =>
          if id.kind == Validation { StartValidationRows(m, task, w.now, cfg.executionTimeout); }
          else { StartDeletionRows(m, task, w.now, cfg.executionTimeout); }
        case CompleteValidation(result) =>
          if ValidationEnded(result) in w.messages {
            MessageIn(cfg, w, ValidationEnded(result));
            CompleteValidationRows(m, result, w.now);
          }
        case CompleteDeletion(result) =>
          if DeletionEnded(result) in w.messages {
            MessageIn(cfg, w, DeletionEnded(result));
            CompleteDeletionRows(m, result, w.now);
          }
      }
    }
    SameRows(w);
  }

  lemma SameRows(w: World)
    ensures AllMove(w, w)
  {
  }

  lemma StepMoves(cfg: Config, w: World, action: Action)
    requires Inv(cfg, w)
    ensures AllMove(w, Step(cfg, w, action))
  {
    hide Inv, AllMove;
    SameRows(w);
    if action.ClaimJob? || action.FinalizeClaim? || action.Retry? {
      hide Step;
      DispatchMoves(cfg, w, action);
    } else if action.Start? || action.CompleteValidation? || action.CompleteDeletion? {
      hide Step;
      WorkerMoves(cfg, w, action);
    } else if action.CompleteMoveJob? {
      CompletionMoves(cfg, w, action.moveJob, action.evidence, action.trace);
    } else if action.CompleteUpload? {
      UploadMoves(cfg, w, action.asset, action.seen, action.trace);
    } else if action.ConsumeReviewVideo? {
      ConsumeMoves(cfg, w, action.asset, action.trace);
    } else if action.RequestRetention? {
      RetentionMoves(cfg, w, action.asset, action.trace);
    } else {
      OtherMoves(cfg, w, action);
    }
  }

  lemma OtherMoves(cfg: Config, w: World, action: Action)
    requires !action.ClaimJob? && !action.FinalizeClaim? && !action.Retry? && !action.Start? && !action.CompleteValidation?
    requires !action.CompleteDeletion? && !action.CompleteMoveJob? && !action.CompleteUpload?
    requires !action.ConsumeReviewVideo? && !action.RequestRetention?
    ensures AllMove(w, Step(cfg, w, action))
  {
    hide Moves;
    SameRows(w);
    assert forall a :: a in w.media ==> RowsMove(w.media[a], w.media[a]);
  }

  /**
   In one step a job row keeps its target, and either it is unchanged, or its epoch
   or rank grew, or only an expired lease was renewed or an absent task ID filled in.
   */
  lemma EveryStepMoves(cfg: Config, actions: seq<Action>, action: Action, id: JobId)
    requires HasJob(After(cfg, actions), id)
    ensures var w := After(cfg, actions);
            var w' := Step(cfg, w, action);
            HasJob(w', id) && Moves(TheJob(w, id), TheJob(w', id))
  {
    hide Inv, Moves, After, Step;
    Reachable(cfg, actions);
    var w := After(cfg, actions);
    StepMoves(cfg, w, action);
    assert RowsMove(w.media[id.asset], Step(cfg, w, action).media[id.asset]);
  }

  lemma CompletionMoves(cfg: Config, w: World, moveJob: MoveJobId, evidence: seq<AssetId>, trace: string)
    requires Inv(cfg, w)
    ensures AllMove(w, DoCompleteMoveJob(cfg, w, moveJob, evidence, trace))
  {
    hide Inv, CompletionEvidence, Moves;
    SameRows(w);
    if DoCompleteMoveJob(cfg, w, moveJob, evidence, trace) != w {
      RowsKeyed(cfg, w);
      EvidenceScheduled(w.(moveJobs := w.moveJobs[moveJob := Some(w.now)]), evidence, trace, w.now + cfg.retention);
      assert forall a :: a in w.media ==> RowsMove(w.media[a], WithIntent(w.media[a], trace, w.now + cfg.retention));
    }
  }

  // ------------------------------------------------------------ getting stuck

  /** A validation that was running when its asset was deleted. */
  predicate Orphaned(w: World, a: AssetId) {
    && a in w.media
    && w.media[a].asset.status == Deleted
    && w.media[a].validation.Some?
    && w.media[a].validation.value.status == Running
  }

  /** What a step leaves of an orphaned validation: at most its task ID changes. */
  predicate StillOrphaned(w: World, w': World, a: AssetId)
    requires Orphaned(w, a)
  {
    Orphaned(w', a) && w'.media[a].validation.value.attempt == w.media[a].validation.value.attempt
  }

  lemma OrphanedRow(m: Media)
    requires Joint(m) && m.validation.Some? && m.validation.value.status == Running
    ensures var job := m.validation.value;
            job.id == JobId(Validation, m.asset.id) && job.contentType.Some? && job.sizeBytes.Some? && job.token.None?
    ensures m.deletion.Some? ==> m.deletion.value.id == JobId(Deletion, m.asset.id)
  {
  }

  lemma OrphanedDispatch(cfg: Config, w: World, action: Action, a: AssetId)
    requires Orphaned(w, a) && w.media[a].asset.id == a && Joint(w.media[a])
    requires action.ClaimJob? || action.FinalizeClaim?
    ensures StillOrphaned(w, Step(cfg, w, action), a)
  {
    OrphanedRow(w.media[a]);
    hide Joint;
  }

  lemma OrphanedRetry(w: World, id: JobId, a: AssetId)
    requires Orphaned(w, a) && w.media[a].asset.id == a && Joint(w.media[a])
    ensures StillOrphaned(w, DoRetry(w, id), a)
  {
    OrphanedRow(w.media[a]);
    hide Joint;
  }

  lemma OrphanedWorkers(cfg: Config, w: World, action: Action, a: AssetId)
    requires Orphaned(w, a) && w.media[a].asset.id == a && Joint(w.media[a])
    requires action.Start? || action.CompleteValidation? || action.CompleteDeletion?
    ensures StillOrphaned(w, Step(cfg, w, action), a)
  {
    OrphanedRow(w.media[a]);
    hide Joint;
  }

  lemma OrphanedElse(cfg: Config, w: World, action: Action, a: AssetId)
    requires Inv(cfg, w) && Orphaned(w, a)
    requires action.CompleteUpload? || action.ConsumeReviewVideo? || action.RequestRetention? || action.CompleteMoveJob?
    ensures StillOrphaned(w, Step(cfg, w, action), a)
  {
    hide Inv, Backed, CompletionEvidence;
    MediaIn(cfg, w, a);
    OrphanedRow(w.media[a]);
    hide Joint;
    if action.CompleteMoveJob? && DoCompleteMoveJob(cfg, w, action.moveJob, action.evidence, action.trace) != w {
      RowsKeyed(cfg, w);
      var w1 := w.(moveJobs := w.moveJobs[action.moveJob := Some(w.now)]);
      EvidenceScheduled(w1, action.evidence, action.trace, w.now + cfg.retention);
    }
  }

  lemma OrphanedStep(cfg: Config, w: World, action: Action, a: AssetId)
    requires Inv(cfg, w) && Orphaned(w, a)
    ensures StillOrphaned(w, Step(cfg, w, action), a)
  {
    hide Inv, Joint, Backed;
    MediaIn(cfg, w, a);
    match action {
      case ClaimJob(_, _) => hide Step; OrphanedDispatch(cfg, w, action, a);
      case FinalizeClaim(_, _) => hide Step; OrphanedDispatch(cfg, w, action, a);
      case Retry(id) => hide DoRetry; OrphanedRetry(w, id, a);
      case Start(_) => hide Step; OrphanedWorkers(cfg, w, action, a);
      case CompleteValidation(_) => hide Step; OrphanedWorkers(cfg, w, action, a);
      case CompleteDeletion(_) => hide Step; OrphanedWorkers(cfg, w, action, a);
      case CompleteUpload(_, _, _) => hide Step; OrphanedElse(cfg, w, action, a);
      case ConsumeReviewVideo(_, _) => hide Step; OrphanedElse(cfg, w, action, a);
      case RequestRetention(_, _) => hide Step; OrphanedElse(cfg, w, action, a);
      case CompleteMoveJob(_, _, _) => hide Step; OrphanedElse(cfg, w, action, a);
      case _ =>
    }
  }

  lemma {:induction false} OrphanedRun(cfg: Config, w: World, more: seq<Action>, a: AssetId)
    requires Inv(cfg, w) && Orphaned(w, a)
    ensures StillOrphaned(w, Run(cfg, w, more), a)
    decreases |more|
  {
    hide Inv, Step;
    if more != [] {
      StepKeeps(cfg, w, more[0]);
      OrphanedStep(cfg, w, more[0], a);
      OrphanedRun(cfg, Step(cfg, w, more[0]), more[1..], a);
    }
  }

  /**
   A validation that is running when its asset gets deleted never ends: in every later
   state it is still running in the same attempt, and no retry is accepted.
   */
  lemma OrphanedForever(cfg: Config, actions: seq<Action>, more: seq<Action>, a: AssetId)
    requires Orphaned(After(cfg, actions), a)
    ensures var w' := Run(cfg, After(cfg, actions), more);
            && StillOrphaned(After(cfg, actions), w', a)
            && Step(cfg, w', Retry(JobId(Validation, a))) == w'
  {
    hide Inv;
    Reachable(cfg, actions);
    OrphanedRun(cfg, After(cfg, actions), more, a);
    RunKeeps(cfg, After(cfg, actions), more);
    MediaIn(cfg, Run(cfg, After(cfg, actions), more), a);
  }

  lemma RetryIff(w: World, a: AssetId)
    requires a in w.media && w.media[a].asset.id == a && Joint(w.media[a])
    requires w.media[a].validation.Some? && ExecutionExpired(w.media[a].validation.value, w.now)
    ensures DoRetry(w, JobId(Validation, a)) != w <==> w.media[a].asset.status != Deleted
  {
    if w.media[a].asset.status != Deleted {
      assert DoRetry(w, JobId(Validation, a)).media[a].validation.value.status == Pending;
    }
  }

  /** A manager's retry of an expired validation is accepted exactly when the asset is not deleted. */
  lemma ExpiredRetryAcceptedIff(cfg: Config, actions: seq<Action>, a: AssetId)
    requires var w := After(cfg, actions);
             a in w.media && w.media[a].validation.Some? && ExecutionExpired(w.media[a].validation.value, w.now)
    ensures var w := After(cfg, actions);
            Step(cfg, w, Retry(JobId(Validation, a))) != w <==> w.media[a].asset.status != Deleted
  {
    hide Inv, After, Joint, DoRetry;
    Reachable(cfg, actions);
    MediaIn(cfg, After(cfg, actions), a);
    RetryIff(After(cfg, actions), a);
  }
}
