/**
 The commands on the rows of one asset: each keeps the joint state of the asset
 and its jobs, and none takes a row backwards.
 */
module MediaRows {
  import opened Common
  import opened BackgroundJobs
  import opened Ports
  import opened MediaWorld
  import opened MediaInvariant

  /** What a command on one asset's rows must establish. */
  predicate KeepsRows(m: Media, m': Media) {
    Joint(m') && MediaAdvances(m, m') && RowsMove(m, m') && m'.asset.id == m.asset.id
  }

  /** Each job row moved on, or only its lease or its absent task ID changed. */
  predicate RowsMove(m: Media, m': Media) {
    && (m.validation.Some? ==> m'.validation.Some? && Moves(m.validation.value, m'.validation.value))
    && (m.deletion.Some? ==> m'.deletion.Some? && Moves(m.deletion.value, m'.deletion.value))
  }

  lemma UploadRows(m: Media, seen: Metadata, trace: string, now: Time)
    requires Joint(m) && m.asset.status == PendingUpload && UploadMatches(m.asset, seen)
    requires Pinnable(Some(seen.generation))
    ensures m.validation.None? && m.deletion.None?
    ensures var asset := m.asset.(status := Uploaded, actualSize := Some(seen.sizeBytes), sha256 := None,
                                  generation := Some(seen.generation));
            var job := CreateValidation(asset, m.validation, trace, now);
            job.Ok? ==> KeepsRows(m, WithJob(m.(asset := asset), job.value)) && job.value.token.None? && job.value.taskId.None?
  {
  }

  lemma ValidationIntentRows(m: Media, trace: string, now: Time)
    requires Joint(m) && m.asset.status == Uploaded
    ensures var job := CreateValidation(m.asset, m.validation, trace, now);
            job.Ok? ==>
              && KeepsRows(m, WithJob(m, job.value))
              && (m.validation.Some? ==> job.value == m.validation.value)
              && (m.validation.None? ==> job.value.token.None? && job.value.taskId.None? && job.value.lastAttemptAt.None?)
  {
  }

  lemma DeletionIntentRows(m: Media, trace: string, scheduledAt: Time)
    requires Joint(m) && m.asset.generation.Some?
    ensures var job := CreateDeletion(m.asset, m.deletion, trace, scheduledAt);
            KeepsRows(m, WithJob(m, job))
  {
  }

  lemma ReviewRows(m: Media, trace: string, scheduledAt: Time)
    requires Joint(m) && m.asset.status in {Ready, Deleted}
    ensures var job := CreateDeletion(m.asset, m.deletion, trace, scheduledAt);
            KeepsRows(m, WithJob(m, job).(asset := m.asset.(status := Deleted)))
  {
  }

  lemma ClaimRows(m: Media, kind: JobKind, now: Time, leaseSeconds: nat, token: Token)
    requires Joint(m) && JobOf(m, kind).Some? && Due(JobOf(m, kind).value, now)
    ensures KeepsRows(m, WithJob(m, Claimed(JobOf(m, kind).value, now, leaseSeconds, token)))
  {
  }

  /** A lease pins its attempt, so the outcome is recorded for the attempt it reports on. */
  lemma FinalizeRows(m: Media, kind: JobKind, claim: Claim, outcome: DispatchOutcome, now: Time)
    requires Joint(m) && JobOf(m, kind).Some?
    ensures KeepsRows(m, WithJob(m, Finalized(JobOf(m, kind).value, claim, outcome, now).0))
  {
    FinalizedJob(JobOf(m, kind).value, claim, outcome, now);
    hide Finalized, JobOk, JobAdvances, Moves;
    if m.validation.Some? { SameJob(m.validation.value); }
    if m.deletion.Some? { SameJob(m.deletion.value); }
  }

  lemma FinalizedJob(job: Job, claim: Claim, outcome: DispatchOutcome, now: Time)
    requires JobOk(job)
    ensures var job' := Finalized(job, claim, outcome, now).0;
            && JobOk(job') && JobAdvances(job, job') && Moves(job, job')
            && job'.id == job.id && job'.moveJob == job.moveJob && job'.objectKey == job.objectKey
            && job'.generation == job.generation && job'.contentType == job.contentType && job'.sizeBytes == job.sizeBytes
            && (job'.status in {Running, Succeeded} <==> job.status in {Running, Succeeded})
            && (job'.status == Running <==> job.status == Running)
  {
  }

  lemma SameJob(job: Job)
    ensures JobAdvances(job, job) && Moves(job, job)
  {
  }

  lemma RetryRows(m: Media, kind: JobKind, now: Time)
    requires Joint(m) && JobOf(m, kind).Some?
    ensures var r := Retried(JobOf(m, kind).value, m.asset, now);
            r.Ok? ==> KeepsRows(m, WithJob(m, r.value.0).(asset := r.value.1))
  {
  }

  lemma StartValidationRows(m: Media, task: Task, now: Time, timeoutSeconds: nat)
    requires Joint(m) && m.validation.Some?
    ensures TargetShape(m.validation.value)
    ensures var r := StartedValidation(m.validation.value, m.asset, task, now, timeoutSeconds);
            r.Ok? && r.value.2.Some? ==>
              && r.value.0.contentType.Some? && r.value.0.sizeBytes.Some?
              && KeepsRows(m, WithJob(m, r.value.0).(asset := r.value.1))
              && r.value.2.value == WorkOfValidation(r.value.0)
  {
  }

  lemma CompleteValidationRows(m: Media, result: ValidationResult, now: Time)
    requires Joint(m) && m.validation.Some?
    ensures var r := CompletedValidation(m.validation.value, m.asset, result, now);
            r.Ok? ==>
              && KeepsRows(m, WithJob(m, r.value.0).(asset := r.value.1))
              && (r.value.1.sha256 == m.asset.sha256 || r.value.1.sha256.None?
                  || (result.Validated? && r.value.1.sha256 == Some(result.sha256)))
  {
  }

  lemma StartDeletionRows(m: Media, task: Task, now: Time, timeoutSeconds: nat)
    requires Joint(m) && m.deletion.Some?
    ensures var r := StartedDeletion(m.deletion.value, task, now, timeoutSeconds);
            r.Ok? && r.value.1.Some? ==>
              && KeepsRows(m, WithJob(m, r.value.0))
              && r.value.1.value == WorkOfDeletion(r.value.0)
  {
  }

  lemma CompleteDeletionRows(m: Media, result: DeletionResult, now: Time)
    requires Joint(m) && m.deletion.Some?
    ensures var r := CompletedDeletion(m.deletion.value, m.asset, result, now);
            r.Ok? ==>
              && KeepsRows(m, WithJob(m, r.value.0).(asset := r.value.1))
              && (r.value.2 <==> m.deletion.value.status != Succeeded && r.value.0.status == Succeeded)
              && (r.value.2 ==> result.Erased?)
  {
  }
}
