/**
 How long a claim, an execution and a wait last: over every run a lease excludes
 every other claim until it ends and no longer, a running attempt can be retried
 from its deadline on and not before, and what is pending need not wait.
 */
module MediaLeases {
  import opened Common
  import opened BackgroundJobs
  import opened Ports
  import opened MediaWorld
  import opened MediaInvariant
  import opened MediaSteps
  import opened MediaActions
  import opened MediaTheorems

  // ------------------------------------------------ which action writes what

  /** A leased row changes into another one by a claim only, a running one by a start, a pending one by a retry. */
  predicate Settles(job: Job, job': Job, action: Action) {
    && (job'.status == Dispatching && job' != job ==> action.ClaimJob? && action.job == job.id)
    && (job'.status == Running && job' != job.(taskId := job'.taskId) ==> action.Start? && action.task.job == job.id)
    && (job'.status == Pending && job' != job ==> action == Retry(job.id))
  }

  /** A row that is new: never attempted, and due at once if it is a validation. */
  predicate Untouched(kind: JobKind, job: Job, now: Time) {
    job.status == Pending && job.attempt == 0 && (kind == Validation ==> job.scheduledAt == now)
  }

  /** The row of a job after a step: settled, or new. */
  ghost predicate RowSettles(w: World, w': World, id: JobId, action: Action) {
    && (HasJob(w, id) ==> HasJob(w', id) && Settles(TheJob(w, id), TheJob(w', id), action))
    && (HasJob(w', id) && !HasJob(w, id) ==> Untouched(id.kind, TheJob(w', id), w.now))
  }

  lemma SameSettles(w: World, id: JobId, action: Action)
    ensures RowSettles(w, w, id, action)
  {
  }

  /** Only the row that a transaction writes has to be looked at. */
  lemma FrameSettles(w: World, w': World, written: JobId, job': Job, asset: Asset, id: JobId, action: Action)
    requires HasJob(w, written) && job'.id.kind == written.kind
    requires w'.media == w.media[written.asset := WithJob(w.media[written.asset], job').(asset := asset)]
    requires Settles(TheJob(w, written), job', action)
    ensures RowSettles(w, w', id, action)
  {
    hide Settles;
    SameSettles(w, id, action);
  }

  lemma ClaimSettles(cfg: Config, w: World, claimed: JobId, token: Token, id: JobId)
    requires Inv(cfg, w)
    ensures RowSettles(w, DoClaim(cfg, w, claimed, token), id, ClaimJob(claimed, token))
  {
    SameSettles(w, id, ClaimJob(claimed, token));
    RowId(cfg, w, claimed);
    hide Inv, Due, RowSettles;
    if DoClaim(cfg, w, claimed, token) != w {
      var m := w.media[claimed.asset];
      FrameSettles(w, DoClaim(cfg, w, claimed, token), claimed, Claimed(TheJob(w, claimed), w.now, cfg.leaseSeconds, token),
                   m.asset, id, ClaimJob(claimed, token));
    }
  }

  lemma FinalizedSettles(job: Job, claim: Claim, outcome: DispatchOutcome, now: Time)
    ensures var job' := Finalized(job, claim, outcome, now).0;
            job'.id == job.id && Settles(job, job', FinalizeClaim(claim, outcome))
  {
  }

  /** A finalization that changes anything writes the one row of its task. */
  lemma FinalizeWrites(w: World, claim: Claim, outcome: DispatchOutcome)
    ensures var w', id := DoFinalize(w, claim, outcome), claim.task.job;
            w' != w ==>
              && HasJob(w, id)
              && var m := w.media[id.asset];
                 w'.media == w.media[id.asset := WithJob(m, Finalized(TheJob(w, id), claim, outcome, w.now).0).(asset := m.asset)]
  {
    hide Finalized;
  }

  lemma FinalizeSettles(cfg: Config, w: World, claim: Claim, outcome: DispatchOutcome, id: JobId)
    requires Inv(cfg, w)
    ensures RowSettles(w, DoFinalize(w, claim, outcome), id, FinalizeClaim(claim, outcome))
  {
    hide Inv, RowSettles, Finalized, Settles, DoFinalize;
    SameSettles(w, id, FinalizeClaim(claim, outcome));
    FinalizeWrites(w, claim, outcome);
    var written := claim.task.job;
    if DoFinalize(w, claim, outcome) != w {
      var m := w.media[written.asset];
      var job' := Finalized(TheJob(w, written), claim, outcome, w.now).0;
      RowId(cfg, w, written);
      FinalizedSettles(TheJob(w, written), claim, outcome, w.now);
      FrameSettles(w, DoFinalize(w, claim, outcome), written, job', m.asset, id, FinalizeClaim(claim, outcome));
    }
  }

  lemma RetrySettles(cfg: Config, w: World, retried: JobId, id: JobId)
    requires Inv(cfg, w)
    ensures RowSettles(w, DoRetry(w, retried), id, Retry(retried))
  {
    SameSettles(w, id, Retry(retried));
    RowId(cfg, w, retried);
    hide Inv, RowSettles;
    if DoRetry(w, retried) != w {
      var (job', asset) := Retried(TheJob(w, retried), w.media[retried.asset].asset, w.now).value;
      assert Settles(TheJob(w, retried), job', Retry(retried));
      hide Retried, Settles;
      FrameSettles(w, DoRetry(w, retried), retried, job', asset, id, Retry(retried));
    }
  }

  /** A start writes at most the rows of its task, as the row commands compute them. */
  lemma StartWrites(cfg: Config, w: World, task: Task)
    requires Delivered(task) in w.messages && HasJob(w, task.job)
    ensures var w', id := DoStart(cfg, w, task), task.job;
            var m, job := w.media[id.asset], TheJob(w, id);
            && (id.kind == Validation && TargetShape(job) ==>
                  var r := StartedValidation(job, m.asset, task, w.now, cfg.executionTimeout);
                  w'.media == if r.Ok? && r.value.2.Some? then w.media[id.asset := WithJob(m, r.value.0).(asset := r.value.1)]
                              else w.media)
            && (id.kind == Deletion ==>
                  var r := StartedDeletion(job, task, w.now, cfg.executionTimeout);
                  w'.media == if r.Ok? && r.value.1.Some? then w.media[id.asset := WithJob(m, r.value.0)] else w.media)
  {
    hide StartedValidation, StartedDeletion, TargetShape;
  }

  lemma StartedSettles(job: Job, asset: Asset, task: Task, now: Time, timeout: nat)
    requires TargetShape(job) && task.job == job.id
    ensures var r := StartedValidation(job, asset, task, now, timeout);
            r.Ok? ==> r.value.0.id == job.id && Settles(job, r.value.0, Start(task))
    ensures var r := StartedDeletion(job, task, now, timeout);
            r.Ok? ==> r.value.0.id == job.id && Settles(job, r.value.0, Start(task))
  {
    hide PinnedTo;
  }

  lemma StartSettles(cfg: Config, w: World, task: Task, id: JobId)
    requires Inv(cfg, w)
    ensures RowSettles(w, DoStart(cfg, w, task), id, Start(task))
  {
    SameSettles(w, id, Start(task));
    RowId(cfg, w, task.job);
    hide Inv, RowSettles, StartedValidation, StartedDeletion, Settles;
    var w' := DoStart(cfg, w, task);
    if w' != w {
      var asset, job := w.media[task.job.asset].asset, TheJob(w, task.job);
      StartWrites(cfg, w, task);
      StartedSettles(job, asset, task, w.now, cfg.executionTimeout);
      if task.job.kind == Validation {
        var (job', asset', _) := StartedValidation(job, asset, task, w.now, cfg.executionTimeout).value;
        hide DoStart;
        FrameSettles(w, w', task.job, job', asset', id, Start(task));
      } else {
        var (job', _) := StartedDeletion(job, task, w.now, cfg.executionTimeout).value;
        hide DoStart;
        FrameSettles(w, w', task.job, job', asset, id, Start(task));
      }
    }
  }

  lemma ValidationSettles(cfg: Config, w: World, result: ValidationResult, id: JobId)
    requires Inv(cfg, w)
    ensures RowSettles(w, DoCompleteValidation(w, result), id, CompleteValidation(result))
  {
    SameSettles(w, id, CompleteValidation(result));
    RowId(cfg, w, result.job);
    hide Inv, RowSettles, PinnedTo;
    if DoCompleteValidation(w, result) != w {
      var (job', asset) := CompletedValidation(TheJob(w, result.job), w.media[result.job.asset].asset, result, w.now).value;
      assert Settles(TheJob(w, result.job), job', CompleteValidation(result));
      hide CompletedValidation, Settles;
      FrameSettles(w, DoCompleteValidation(w, result), result.job, job', asset, id, CompleteValidation(result));
    }
  }

  lemma DeletionSettles(cfg: Config, w: World, result: DeletionResult, id: JobId)
    requires Inv(cfg, w)
    ensures RowSettles(w, DoCompleteDeletion(w, result), id, CompleteDeletion(result))
  {
    SameSettles(w, id, CompleteDeletion(result));
    RowId(cfg, w, result.job);
    hide Inv, RowSettles;
    if DoCompleteDeletion(w, result) != w {
      var (job', asset, _) := CompletedDeletion(TheJob(w, result.job), w.media[result.job.asset].asset, result, w.now).value;
      assert Settles(TheJob(w, result.job), job', CompleteDeletion(result));
      hide CompletedDeletion, Settles;
      FrameSettles(w, DoCompleteDeletion(w, result), result.job, job', asset, id, CompleteDeletion(result));
    }
  }

  /** A stored intent stays. */
  predicate IntentAdded(kind: JobKind, job: Option<Job>, job': Option<Job>, now: Time) {
    if job.Some? then job' == job else job'.Some? ==> Untouched(kind, job'.value, now)
  }

  lemma IntentSettles(w: World, w': World, id: JobId, action: Action)
    requires forall a :: a in w.media ==>
               && a in w'.media
               && IntentAdded(Validation, w.media[a].validation, w'.media[a].validation, w.now)
               && IntentAdded(Deletion, w.media[a].deletion, w'.media[a].deletion, w.now)
    requires forall a :: a in w'.media ==> a in w.media
    ensures RowSettles(w, w', id, action)
  {
    assert id.asset in w.media ==> IntentAdded(Validation, w.media[id.asset].validation, w'.media[id.asset].validation, w.now);
  }

  /** Only the asset that a transaction writes has to be looked at. */
  lemma FrameIntents(w: World, w': World, a: AssetId, m: Media, id: JobId, action: Action)
    requires a in w.media && w'.media == w.media[a := m]
    requires IntentAdded(Validation, w.media[a].validation, m.validation, w.now)
    requires IntentAdded(Deletion, w.media[a].deletion, m.deletion, w.now)
    ensures RowSettles(w, w', id, action)
  {
    IntentSettles(w, w', id, action);
  }

  lemma DeletionAdded(cfg: Config, w: World, a: AssetId, trace: string, scheduledAt: Time)
    requires Inv(cfg, w) && a in w.media && w.media[a].asset.generation.Some?
    ensures var m := w.media[a];
            var m' := WithJob(m, CreateDeletion(m.asset, m.deletion, trace, scheduledAt));
            m'.validation == m.validation && IntentAdded(Deletion, m.deletion, m'.deletion, w.now)
  {
    RowId(cfg, w, JobId(Deletion, a));
  }

  lemma UploadAdds(cfg: Config, w: World, a: AssetId, seen: Metadata, trace: string, id: JobId)
    requires Inv(cfg, w)
    ensures RowSettles(w, DoCompleteUpload(w, a, seen, trace), id, CompleteUpload(a, seen, trace))
  {
    SameSettles(w, id, CompleteUpload(a, seen, trace));
    RowId(cfg, w, JobId(Validation, a));
    hide Inv, UploadMatches, Pinnable, RowSettles;
    var w' := DoCompleteUpload(w, a, seen, trace);
    if w' != w { FrameIntents(w, w', a, w'.media[a], id, CompleteUpload(a, seen, trace)); }
  }

  lemma ReviewAdds(cfg: Config, w: World, a: AssetId, trace: string, id: JobId)
    requires Inv(cfg, w)
    ensures RowSettles(w, DoConsumeReviewVideo(w, a, trace), id, ConsumeReviewVideo(a, trace))
  {
    SameSettles(w, id, ConsumeReviewVideo(a, trace));
    hide Inv, ReviewVideo, RowSettles, CreateDeletion, IntentAdded;
    var w' := DoConsumeReviewVideo(w, a, trace);
    if w' != w {
      DeletionAdded(cfg, w, a, trace, w.now);
      FrameIntents(w, w', a, w'.media[a], id, ConsumeReviewVideo(a, trace));
    }
  }

  lemma RetentionAdds(cfg: Config, w: World, a: AssetId, trace: string, id: JobId)
    requires Inv(cfg, w)
    ensures RowSettles(w, DoRequestRetention(cfg, w, a, trace), id, RequestRetention(a, trace))
  {
    SameSettles(w, id, RequestRetention(a, trace));
    RowId(cfg, w, JobId(Deletion, a));
    hide Inv, Pinnable, RowSettles;
    var w' := DoRequestRetention(cfg, w, a, trace);
    if w' != w { FrameIntents(w, w', a, w'.media[a], id, RequestRetention(a, trace)); }
  }

  lemma EvidenceSettles(cfg: Config, w: World, action: Action, id: JobId)
    requires Inv(cfg, w) && action.CompleteMoveJob?
    ensures RowSettles(w, Step(cfg, w, action), id, action)
  {
    SameSettles(w, id, action);
    hide Inv, RowSettles, CompletionEvidence;
    if Step(cfg, w, action) != w {
      RowsKeyed(cfg, w);
      EvidenceScheduled(w.(moveJobs := w.moveJobs[action.moveJob := Some(w.now)]), action.evidence, action.trace,
                        w.now + cfg.retention);
      IntentSettles(w, Step(cfg, w, action), id, action);
    }
  }

  lemma StepSettles(cfg: Config, w: World, action: Action, id: JobId)
    requires Inv(cfg, w)
    ensures RowSettles(w, Step(cfg, w, action), id, action)
  {
    hide Inv, RowSettles, DoStart;
    SameSettles(w, id, action);
    match action {
      case ClaimJob(job, token) => hide DoClaim; ClaimSettles(cfg, w, job, token, id);
      case FinalizeClaim(claim, outcome) => hide DoFinalize; FinalizeSettles(cfg, w, claim, outcome, id);
      case Retry(job) => hide DoRetry; RetrySettles(cfg, w, job, id);
      case Start(task) => StartSettles(cfg, w, task, id);
      case CompleteValidation(result) => hide DoCompleteValidation; ValidationSettles(cfg, w, result, id);
      case CompleteDeletion(result) => hide DoCompleteDeletion; DeletionSettles(cfg, w, result, id);
      case CompleteUpload(a, seen, trace) => hide DoCompleteUpload; UploadAdds(cfg, w, a, seen, trace, id);
      case ConsumeReviewVideo(a, trace) => hide DoConsumeReviewVideo; ReviewAdds(cfg, w, a, trace, id);
      case RequestRetention(a, trace) => hide DoRequestRetention; RetentionAdds(cfg, w, a, trace, id);
      case CompleteMoveJob(_, _, _) => hide Step; EvidenceSettles(cfg, w, action, id);
      case _ => hide Settles; OtherSettles(cfg, w, action, id);
    }
  }

  lemma OtherSettles(cfg: Config, w: World, action: Action, id: JobId)
    requires !action.ClaimJob? && !action.FinalizeClaim? && !action.Retry? && !action.Start? && !action.CompleteValidation?
    requires !action.CompleteDeletion? && !action.CompleteMoveJob? && !action.CompleteUpload?
    requires !action.ConsumeReviewVideo? && !action.RequestRetention?
    ensures RowSettles(w, Step(cfg, w, action), id, action)
  {
  }

  // ------------------------------------------------------------------ claims

  /** A claim is open: the row waits and its time has come, or its lease is over. */
  predicate Claimable(job: Job, now: Time) {
    || (job.status == Pending && job.scheduledAt <= now)
    || (job.status == Dispatching && job.lockedUntil.Some? && job.lockedUntil.value <= now)
  }

  /** The row of a claim that took effect: leased for the lease time, in a new attempt unless a lease was taken over. */
  predicate LeasedRow(job: Job, job': Job, now: Time, lease: nat, token: Token) {
    && job'.status == Dispatching && job'.token == Some(token) && job'.lockedUntil == Some(now + lease)
    && job'.attempt == job.attempt + (if job.status == Pending then 1 else 0)
    && job'.lastAttemptAt == (if job.status == Pending then Some(now) else job.lastAttemptAt)
    && job' == job.(status := Dispatching, token := job'.token, lockedUntil := job'.lockedUntil,
                    attempt := job'.attempt, lastAttemptAt := job'.lastAttemptAt)
  }

  lemma ClaimEffect(cfg: Config, w: World, id: JobId, token: Token)
    requires Inv(cfg, w)
    ensures var w' := Step(cfg, w, ClaimJob(id, token));
            && (w' != w <==> HasJob(w, id) && Claimable(TheJob(w, id), w.now) && token !in w.usedTokens)
            && (w' != w ==>
                  && HasJob(w', id) && LeasedRow(TheJob(w, id), TheJob(w', id), w.now, cfg.leaseSeconds, token)
                  && w'.now == w.now && token in w'.usedTokens)
  {
    hide Inv, Backed;
    if id.asset in w.media && HasJob(w, id) {
      MediaIn(cfg, w, id.asset);
      JobIdOf(w.media[id.asset], id.kind);
    }
    hide Joint;
    assert token !in w.usedTokens && HasJob(w, id) && Claimable(TheJob(w, id), w.now) ==>
             token in Step(cfg, w, ClaimJob(id, token)).usedTokens;
  }

  /** Every later lease of the row lasts at least until this one ended. */
  ghost predicate LeasedUntil(w: World, id: JobId, lease: nat, until: Time) {
    && HasJob(w, id) && w.now + lease >= until
    && (TheJob(w, id).status == Dispatching ==>
          TheJob(w, id).lockedUntil.Some? && TheJob(w, id).lockedUntil.value >= until)
  }

  /** The token of this lease is spent; while the row has it, the lease ends then. */
  ghost predicate HeldUntil(w: World, id: JobId, token: Token, until: Time) {
    && HasJob(w, id) && token in w.usedTokens
    && (TheJob(w, id).token == Some(token) ==> TheJob(w, id).status == Dispatching && TheJob(w, id).lockedUntil == Some(until))
  }

  lemma StepLeased(cfg: Config, w: World, action: Action, id: JobId, token: Token, until: Time)
    requires Inv(cfg, w) && LeasedUntil(w, id, cfg.leaseSeconds, until) && HeldUntil(w, id, token, until)
    ensures var w' := Step(cfg, w, action);
            LeasedUntil(w', id, cfg.leaseSeconds, until) && HeldUntil(w', id, token, until)
  {
    var w' := Step(cfg, w, action);
    StepSettles(cfg, w, action, id);
    StepKeeps(cfg, w, action);
    RowId(cfg, w, id);
    RowId(cfg, w', id);
    if action.ClaimJob? { ClaimEffect(cfg, w, action.job, action.token); }
    hide Inv, Step, MediaAdvances, TokenKept;
  }

  lemma RowId(cfg: Config, w: World, id: JobId)
    requires Inv(cfg, w)
    ensures HasJob(w, id) ==>
              TheJob(w, id).id == id && (TheJob(w, id).token.Some? <==> TheJob(w, id).status == Dispatching)
  {
    hide Inv;
    if HasJob(w, id) {
      MediaIn(cfg, w, id.asset);
      JobIdOf(w.media[id.asset], id.kind);
    }
  }

  lemma {:induction false} RunLeased(cfg: Config, w: World, more: seq<Action>, id: JobId, token: Token, until: Time)
    requires Inv(cfg, w) && LeasedUntil(w, id, cfg.leaseSeconds, until) && HeldUntil(w, id, token, until)
    ensures var w' := Run(cfg, w, more);
            Inv(cfg, w') && LeasedUntil(w', id, cfg.leaseSeconds, until) && HeldUntil(w', id, token, until)
    decreases |more|
  {
    hide Inv, Step, LeasedUntil, HeldUntil;
    if more != [] {
      StepLeased(cfg, w, more[0], id, token, until);
      StepKeeps(cfg, w, more[0]);
      RunLeased(cfg, Step(cfg, w, more[0]), more[1..], id, token, until);
    }
  }

  lemma LeaseBegins(cfg: Config, w: World, id: JobId, token: Token)
    requires Inv(cfg, w) && Step(cfg, w, ClaimJob(id, token)) != w
    ensures var w' := Step(cfg, w, ClaimJob(id, token));
            && Inv(cfg, w') && LeasedUntil(w', id, cfg.leaseSeconds, w.now + cfg.leaseSeconds)
            && HeldUntil(w', id, token, w.now + cfg.leaseSeconds)
  {
    hide Inv, Step;
    ClaimEffect(cfg, w, id, token);
    StepKeeps(cfg, w, ClaimJob(id, token));
    hide Advances;
  }

  lemma ClaimedUntil(cfg: Config, actions: seq<Action>, id: JobId, token: Token)
    requires var w := After(cfg, actions); Step(cfg, w, ClaimJob(id, token)) != w
    ensures var w := After(cfg, actions);
            var w' := Step(cfg, w, ClaimJob(id, token));
            && Inv(cfg, w') && LeasedUntil(w', id, cfg.leaseSeconds, w.now + cfg.leaseSeconds)
            && HeldUntil(w', id, token, w.now + cfg.leaseSeconds)
  {
    hide Inv, Step, After, LeasedUntil, HeldUntil;
    Reachable(cfg, actions);
    LeaseBegins(cfg, After(cfg, actions), id, token);
  }

  /**
   A lease excludes every other dispatcher for its whole time: once a claim took effect, whatever happens
   afterwards, no claim of that row has an effect on it while it is leased and the lease time is not over.
   */
  lemma LeaseExcludes(cfg: Config, actions: seq<Action>, more: seq<Action>, id: JobId, token: Token, other: Token)
    requires var w := After(cfg, actions); Step(cfg, w, ClaimJob(id, token)) != w
    requires var w := After(cfg, actions);
             var w' := Run(cfg, Step(cfg, w, ClaimJob(id, token)), more);
             HasJob(w', id) && TheJob(w', id).status == Dispatching && w'.now < w.now + cfg.leaseSeconds
    ensures var w' := Run(cfg, Step(cfg, After(cfg, actions), ClaimJob(id, token)), more);
            Step(cfg, w', ClaimJob(id, other)) == w'
  {
    hide Inv, Step, After;
    var w := After(cfg, actions);
    ClaimedUntil(cfg, actions, id, token);
    RunLeased(cfg, Step(cfg, w, ClaimJob(id, token)), more, id, token, w.now + cfg.leaseSeconds);
    ClaimEffect(cfg, Run(cfg, Step(cfg, w, ClaimJob(id, token)), more), id, other);
  }

  /**
   And for no longer: while the row still has the token of that claim, another claim with an unused token
   takes effect exactly from the end of the lease time on.
   */
  lemma LeaseEndsIff(cfg: Config, actions: seq<Action>, more: seq<Action>, id: JobId, token: Token, other: Token)
    requires var w := After(cfg, actions); Step(cfg, w, ClaimJob(id, token)) != w
    requires var w' := Run(cfg, Step(cfg, After(cfg, actions), ClaimJob(id, token)), more);
             HasJob(w', id) && TheJob(w', id).token == Some(token) && other !in w'.usedTokens
    ensures var w := After(cfg, actions);
            var w' := Run(cfg, Step(cfg, w, ClaimJob(id, token)), more);
            Step(cfg, w', ClaimJob(id, other)) != w' <==> w'.now >= w.now + cfg.leaseSeconds
  {
    hide Inv, Step, After;
    var w := After(cfg, actions);
    ClaimedUntil(cfg, actions, id, token);
    RunLeased(cfg, Step(cfg, w, ClaimJob(id, token)), more, id, token, w.now + cfg.leaseSeconds);
    ClaimEffect(cfg, Run(cfg, Step(cfg, w, ClaimJob(id, token)), more), id, other);
  }

  /** A claim takes effect exactly on a waiting row that is due or on a row whose lease is over, under an unused token. */
  lemma ClaimTakesEffectIff(cfg: Config, actions: seq<Action>, id: JobId, token: Token)
    ensures var w := After(cfg, actions);
            var w' := Step(cfg, w, ClaimJob(id, token));
            && (w' != w <==> HasJob(w, id) && Claimable(TheJob(w, id), w.now) && token !in w.usedTokens)
            && (w' != w ==>
                  HasJob(w', id) && LeasedRow(TheJob(w, id), TheJob(w', id), w.now, cfg.leaseSeconds, token))
  {
    hide Inv, Step, After;
    Reachable(cfg, actions);
    ClaimEffect(cfg, After(cfg, actions), id, token);
  }
}
