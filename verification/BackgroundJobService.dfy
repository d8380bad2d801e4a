/**
 The commands of the background-job service as they update their locked rows in
 place, each proved to commit exactly the rows its specification function gives.
 A raised error leaves the rows as they were.
 */
module BackgroundJobService {
  import opened Common
  import opened BackgroundJobs
  import opened Ports
  import opened JobTables
  import opened Fakes

  // ---------------------------------------------------------------- creation

  function Stored(row: JobRow?): Option<Job>
    reads row
  {
    if row == null then None else Some(row.Snapshot())
  }

  /** Exactly one validation row for an asset: a second request answers the stored row. */
  method CreateValidationJob(asset: AssetRow, existing: JobRow?, trace: string, now: Time)
    returns (outcome: Result<JobRow, CommandError>)
    ensures match CreateValidation(asset.Snapshot(), Stored(existing), trace, now)
            case Err(e) => outcome == Err(e)
            case Ok(job) => outcome.Ok? && outcome.value.Snapshot() == job
    ensures if existing != null then outcome == Ok(existing) else outcome.Ok? ==> fresh(outcome.value)
  {
    if existing != null {
      return Ok(existing);
    }
    if asset.status != Uploaded || !Pinnable(asset.generation) || asset.actualSize.None? {
      return Err(JobConflict);
    }
    var row := new JobRow(JobId(Validation, asset.id), asset.moveJob, asset.objectKey, asset.generation.value,
                          Some(asset.contentType), asset.actualSize, trace, now);
    outcome := Ok(row);
  }

  /** A deletion intent after the retention checks; a second request answers the stored row unchecked. */
  method CreateRetentionJob(asset: AssetRow, existing: JobRow?, moveCompletedAt: Option<Time>, cutoff: Time,
                            trace: string, scheduledAt: Time)
    returns (outcome: Result<JobRow, CommandError>)
    ensures match CreateRetention(asset.Snapshot(), Stored(existing), moveCompletedAt, cutoff, trace, scheduledAt)
            case Err(e) => outcome == Err(e)
            case Ok(job) => outcome.Ok? && outcome.value.Snapshot() == job
    ensures if existing != null then outcome == Ok(existing) else outcome.Ok? ==> fresh(outcome.value)
  {
    if existing != null {
      return Ok(existing);
    }
    if moveCompletedAt.None? || moveCompletedAt.value > cutoff || !Deletable(asset.status)
       || !Pinnable(asset.generation) {
      return Err(JobConflict);
    }
    var row := new JobRow(JobId(Deletion, asset.id), asset.moveJob, asset.objectKey, asset.generation.value,
                          None, None, trace, scheduledAt);
    outcome := Ok(row);
  }

  // ------------------------------------------------------------------- retry

  method Retry(row: JobRow?, asset: AssetRow, now: Time) returns (outcome: Result<Job, CommandError>)
    modifies row, asset
    ensures row == null ==> outcome == Err(JobNotFound) && asset.Snapshot() == old(asset.Snapshot())
    ensures row != null ==>
              match Retried(old(row.Snapshot()), old(asset.Snapshot()), now)
              case Err(e) =>
                outcome == Err(e) && row.Snapshot() == old(row.Snapshot()) && asset.Snapshot() == old(asset.Snapshot())
              case Ok((job, asset')) =>
                outcome == Ok(job) && row.Snapshot() == job && asset.Snapshot() == asset'
  {
    if row == null {
      return Err(JobNotFound);
    }
    var expired := row.status == Running && row.deadline.Some? && row.deadline.value <= now;
    if row.status != Failed && !expired {
      return Err(JobConflict);
    }
    if row.id.kind == Validation && expired {
      if asset.status != Processing {
        return Err(JobConflict);
      }
      asset.status := AssetFailed;
      asset.sha256 := None;
    }
    row.status := Pending;
    row.scheduledAt := now;
    row.taskId := None;
    row.errorCode := None;
    row.deadline := None;
    row.completedAt := None;
    outcome := Ok(row.Snapshot());
  }

  // ---------------------------------------------------------------- dispatch

  ghost predicate Distinct<T>(s: seq<T>) {
    forall i, j :: 0 <= i < j < |s| ==> s[i] != s[j]
  }

  /** Leases one selected row; only a pending row starts a new attempt. */
  method LeaseRow(row: JobRow, token: Token, now: Time, leaseSeconds: nat) returns (claim: Claim)
    modifies row
    ensures row.Snapshot() == Claimed(old(row.Snapshot()), now, leaseSeconds, token)
    ensures claim == ClaimOf(row.Snapshot(), token)
  {
    if row.status == Pending {
      row.attempt := row.attempt + 1;
      row.lastAttemptAt := Some(now);
    }
    row.status := Dispatching;
    row.token := Some(token);
    row.lockedUntil := Some(now + leaseSeconds);
    claim := Claim(Task(row.id, row.attempt, row.trace), token);
  }

  /** Leases every selected row, in the order of the query, each with its own token. */
  method ClaimDue(rows: seq<JobRow>, tokens: seq<Token>, now: Time, leaseSeconds: nat) returns (claims: seq<Claim>)
    requires Distinct(rows) && |tokens| == |rows|
    requires forall row :: row in rows ==> Due(row.Snapshot(), now)
    modifies rows
    ensures |claims| == |rows|
    ensures forall i :: 0 <= i < |rows| ==>
              && rows[i].Snapshot() == Claimed(old(rows[i].Snapshot()), now, leaseSeconds, tokens[i])
              && claims[i] == ClaimOf(rows[i].Snapshot(), tokens[i])
              && HoldsLease(rows[i].Snapshot(), claims[i])
  {
    claims := [];
    for i := 0 to |rows|
      invariant |claims| == i
      invariant forall k :: i <= k < |rows| ==> rows[k].Snapshot() == old(rows[k].Snapshot())
      invariant forall k :: 0 <= k < i ==>
                  && rows[k].Snapshot() == Claimed(old(rows[k].Snapshot()), now, leaseSeconds, tokens[k])
                  && claims[k] == ClaimOf(rows[k].Snapshot(), tokens[k])
    {
      hide Claimed, ClaimOf, HoldsLease;
      var claim := LeaseRow(rows[i], tokens[i], now, leaseSeconds);
      claims := claims + [claim];
    }
  }

  method FinalizeDispatch(row: JobRow?, claim: Claim, outcome: DispatchOutcome, now: Time) returns (recorded: bool)
    modifies row
    ensures row == null ==> !recorded
    ensures row != null ==> (row.Snapshot(), recorded) == Finalized(old(row.Snapshot()), claim, outcome, now)
  {
    if row == null {
      return false;
    }
    if !(row.status == Dispatching && row.token == Some(claim.token)) {
      var alreadyAccepted :=
        && outcome.Accepted?
        && row.attempt == claim.task.attempt
        && row.trace == claim.task.trace
        && row.status in {Queued, Running, Succeeded, Failed}
        && row.token == None
        && row.taskId in {None, Some(outcome.taskId)};
      if !alreadyAccepted {
        return false;
      }
      row.taskId := Some(outcome.taskId);
      return true;
    }
    row.token := None;
    row.lockedUntil := None;
    match outcome {
      case Accepted(taskId) =>
        row.status := Queued;
        row.taskId := Some(taskId);
      case Refused(code) =>
        row.status := Failed;
        row.errorCode := Some(code);
        row.completedAt := Some(now);
    }
    recorded := true;
  }

  /** How many of the first n outcomes of one kind the rows, as they were found, accept. */
  function Recorded(found: seq<Option<Job>>, claims: seq<Claim>, outcomes: seq<DispatchOutcome>, now: Time,
                    accepted: bool, n: nat): nat
    requires n <= |found| == |claims| == |outcomes|
  {
    if n == 0 then 0
    else
      var i := n - 1;
      Recorded(found, claims, outcomes, now, accepted, i)
      + if found[i].Some? && outcomes[i].Accepted? == accepted
           && Finalized(found[i].value, claims[i], outcomes[i], now).1 then 1 else 0
  }

  /** What a lookup of each job finds. */
  function Found(rows: seq<JobRow?>): (found: seq<Option<Job>>)
    reads rows
    ensures |found| == |rows|
  {
    seq(|rows|, i requires 0 <= i < |rows| reads rows => if rows[i] == null then None else Some(rows[i].Snapshot()))
  }

  /**
   The second transaction of a dispatch pass. The rows are looked up again, so they may
   be gone, retried, or taken over since the claim; every outcome is applied to the row as
   found, and the counters count exactly the recorded outcomes of each kind.
   */
  method RecordOutcomes(rows: seq<JobRow?>, claims: seq<Claim>, outcomes: seq<DispatchOutcome>, now: Time)
    returns (queued: nat, failed: nat)
    requires |rows| == |claims| == |outcomes|
    requires forall i, j :: 0 <= i < j < |rows| && rows[i] != null ==> rows[i] != rows[j]
    modifies set row | row in rows && row != null
    ensures forall i :: 0 <= i < |rows| && rows[i] != null ==>
              rows[i].Snapshot() == Finalized(old(rows[i].Snapshot()), claims[i], outcomes[i], now).0
    ensures queued == Recorded(old(Found(rows)), claims, outcomes, now, true, |rows|)
    ensures failed == Recorded(old(Found(rows)), claims, outcomes, now, false, |rows|)
  {
    hide Finalized;
    ghost var found := Found(rows);
    queued, failed := 0, 0;
    for i := 0 to |rows|
      invariant forall k :: i <= k < |rows| && rows[k] != null ==> rows[k].Snapshot() == old(rows[k].Snapshot())
      invariant forall k :: 0 <= k < i && rows[k] != null ==>
                  rows[k].Snapshot() == Finalized(old(rows[k].Snapshot()), claims[k], outcomes[k], now).0
      invariant queued == Recorded(found, claims, outcomes, now, true, i)
      invariant failed == Recorded(found, claims, outcomes, now, false, i)
    {
      var recorded := FinalizeDispatch(rows[i], claims[i], outcomes[i], now);
      if recorded {
        if outcomes[i].Accepted? {
          queued := queued + 1;
        } else {
          failed := failed + 1;
        }
      }
    }
  }

  // -------------------------------------------------------------- validation

  method StartValidation(row: JobRow?, asset: AssetRow, task: Task, now: Time, timeoutSeconds: nat)
    returns (outcome: Result<Option<ValidationWork>, CommandError>)
    requires row != null ==> TargetShape(row.Snapshot())
    modifies row, asset
    ensures row == null ==> outcome == Err(JobNotFound) && asset.Snapshot() == old(asset.Snapshot())
    ensures row != null ==>
              match StartedValidation(old(row.Snapshot()), old(asset.Snapshot()), task, now, timeoutSeconds)
              case Err(e) =>
                outcome == Err(e) && row.Snapshot() == old(row.Snapshot()) && asset.Snapshot() == old(asset.Snapshot())
              case Ok((job, asset', work)) =>
                outcome == Ok(work) && row.Snapshot() == job && asset.Snapshot() == asset'
  {
    if row == null || row.id.kind != Validation || row.attempt != task.attempt || row.trace != task.trace {
      return Err(JobNotFound);
    }
    if row.status in {Succeeded, Failed} {
      return Ok(None);
    }
    if row.status == Running {
      if asset.status != Processing {
        return Err(JobConflict);
      }
      return Ok(Some(WorkOfValidation(row.Snapshot())));
    }
    if row.status !in {Dispatching, Queued} {
      return Err(JobConflict);
    }
    if asset.status !in {Uploaded, AssetFailed} || !PinnedTo(row.Snapshot(), asset.Snapshot()) {
      return Err(JobConflict);
    }
    row.token := None;
    row.lockedUntil := None;
    row.status := Running;
    row.deadline := Some(now + timeoutSeconds);
    asset.status := Processing;
    asset.sha256 := None;
    outcome := Ok(Some(WorkOfValidation(row.Snapshot())));
  }

  method CompleteValidation(row: JobRow?, asset: AssetRow, result: ValidationResult, now: Time)
    returns (outcome: Result<Job, CommandError>)
    modifies row, asset
    ensures row == null ==> outcome == Err(JobNotFound) && asset.Snapshot() == old(asset.Snapshot())
    ensures row != null ==>
              match CompletedValidation(old(row.Snapshot()), old(asset.Snapshot()), result, now)
              case Err(e) =>
                outcome == Err(e) && row.Snapshot() == old(row.Snapshot()) && asset.Snapshot() == old(asset.Snapshot())
              case Ok((job, asset')) =>
                outcome == Ok(job) && row.Snapshot() == job && asset.Snapshot() == asset'
  {
    if row == null {
      return Err(JobNotFound);
    }
    if row.id.kind != Validation || row.attempt != result.attempt || row.generation != result.generation
       || !PinnedTo(row.Snapshot(), asset.Snapshot()) {
      return Err(JobConflict);
    }
    if result.Validated? && (Some(result.contentType) != row.contentType || Some(result.sizeBytes) != row.sizeBytes) {
      return Err(JobConflict);
    }
    if row.status in {Succeeded, Failed} {
      if !SameValidationResult(row.Snapshot(), asset.Snapshot(), result) {
        return Err(JobConflict);
      }
      return Ok(row.Snapshot());
    }
    if row.status != Running || asset.status != Processing {
      return Err(JobConflict);
    }
    row.completedAt := Some(now);
    row.deadline := None;
    match result {
      case ValidationFailed(_, _, _, kind) =>
        row.status := Failed;
        row.errorCode := Some(kind);
        asset.status := AssetFailed;
        asset.sha256 := None;
      case Validated(_, _, generation, _, sizeBytes, sha256) =>
        row.status := Succeeded;
        asset.status := Ready;
        asset.generation := Some(generation);
        asset.actualSize := Some(sizeBytes);
        asset.sha256 := Some(sha256);
    }
    outcome := Ok(row.Snapshot());
  }

  /** What the two storage calls of one validation find when nothing happens in between. */
  function Inspected(store: ObjectStore, sha: Bytes -> Digest, work: ValidationWork): ValidationResult {
    match GetMetadata(store, work.objectKey)
    case Err(kind) => ValidationFailed(work.job, work.attempt, work.generation, kind)
    case Ok(seen) =>
      if seen != Metadata(work.objectKey, work.contentType, work.sizeBytes, work.generation) then
        ValidationFailed(work.job, work.attempt, work.generation, InvalidInput)
      else
        match CalculateSha256(store, sha, work.objectKey, work.generation)
        case Err(kind) => ValidationFailed(work.job, work.attempt, work.generation, kind)
        case Ok(digest) =>
          Validated(work.job, work.attempt, work.generation, seen.contentType, seen.sizeBytes, digest)
  }

  /** The two storage calls between the start and the completion of a validation. */
  method Inspect(storage: FakeObjectStorage, work: ValidationWork) returns (result: ValidationResult)
    ensures result == Inspected(storage.Stored(), storage.sha, work)
    ensures result.job == work.job && result.attempt == work.attempt && result.generation == work.generation
    ensures result.Validated? <==>
              && work.objectKey in storage.contents && work.objectKey in storage.metadata
              && storage.metadata[work.objectKey]
                 == Metadata(work.objectKey, work.contentType, work.sizeBytes, work.generation)
    ensures result.Validated? ==>
              && result.contentType == work.contentType && result.sizeBytes == work.sizeBytes
              && result.sha256 == storage.sha(storage.contents[work.objectKey])
  {
    var seen := storage.ReadMetadata(work.objectKey);
    if seen.Err? {
      return ValidationFailed(work.job, work.attempt, work.generation, seen.error);
    }
    if seen.value.objectKey != work.objectKey || seen.value.generation != work.generation
       || seen.value.contentType != work.contentType || seen.value.sizeBytes != work.sizeBytes {
      return ValidationFailed(work.job, work.attempt, work.generation, InvalidInput);
    }
    var digest := storage.Hash(work.objectKey, work.generation);
    match digest {
      case Err(kind) => result := ValidationFailed(work.job, work.attempt, work.generation, kind);
      case Ok(sha256) =>
        result := Validated(work.job, work.attempt, work.generation, seen.value.contentType, seen.value.sizeBytes, sha256);
    }
  }

  /**
   One uninterrupted delivery of a validation task. A delivery for an attempt that ended has no
   effect, and one whose asset is no longer the pinned object is a conflict without effect; any other
   delivery that gets work ends the attempt, and then the asset is READY with the hash of the stored
   bytes exactly when the stored object is the pinned one.
   */
  method HandleValidation(row: JobRow?, asset: AssetRow, storage: FakeObjectStorage, task: Task, now: Time,
                          timeoutSeconds: nat)
    returns (outcome: Result<Option<ValidationResult>, CommandError>)
    requires row != null ==> TargetShape(row.Snapshot())
    modifies row, asset
    ensures !outcome.Ok? || outcome.value.None? ==>
              && asset.Snapshot() == old(asset.Snapshot())
              && (row != null ==> row.Snapshot() == old(row.Snapshot()))
    ensures outcome.Ok? && outcome.value.Some? ==>
              && row != null && row.id.kind == Validation
              && outcome.value == Some(Inspected(storage.Stored(), storage.sha, WorkOfValidation(row.Snapshot())))
              && (outcome.value.value.Validated? ==>
                    row.status == Succeeded && asset.status == Ready && asset.sha256 == Some(outcome.value.value.sha256))
              && (outcome.value.value.ValidationFailed? ==>
                    row.status == Failed && asset.status == AssetFailed && asset.sha256 == None
                    && row.errorCode == Some(outcome.value.value.kind))
    ensures row == null ==> outcome == Err(JobNotFound)
    ensures row != null ==>
              match StartedValidation(old(row.Snapshot()), old(asset.Snapshot()), task, now, timeoutSeconds)
              case Err(e) => outcome == Err(e)
              case Ok((_, _, work)) =>
                && (work.None? ==> outcome == Ok(None))
                && (work.Some? && !old(PinnedTo(row.Snapshot(), asset.Snapshot())) ==> outcome == Err(JobConflict))
                && (work.Some? && old(PinnedTo(row.Snapshot(), asset.Snapshot())) ==> outcome.Ok? && outcome.value.Some?)
  {
    var started := StartValidation(row, asset, task, now, timeoutSeconds);
    if started.Err? {
      return Err(started.error);
    }
    if started.value.None? {
      return Ok(None);
    }
    var result := Inspect(storage, started.value.value);
    var completed := CompleteValidation(row, asset, result, now);
    if completed.Err? {
      return Err(completed.error);
    }
    outcome := Ok(Some(result));
  }

  // ---------------------------------------------------------------- deletion

  method StartDeletion(row: JobRow?, task: Task, now: Time, timeoutSeconds: nat)
    returns (outcome: Result<Option<DeletionWork>, CommandError>)
    modifies row
    ensures row == null ==> outcome == Err(JobNotFound)
    ensures row != null ==>
              match StartedDeletion(old(row.Snapshot()), task, now, timeoutSeconds)
              case Err(e) => outcome == Err(e) && row.Snapshot() == old(row.Snapshot())
              case Ok((job, work)) => outcome == Ok(work) && row.Snapshot() == job
  {
    if row == null || row.id.kind != Deletion || row.attempt != task.attempt || row.trace != task.trace {
      return Err(JobNotFound);
    }
    if row.status in {Succeeded, Failed} {
      return Ok(None);
    }
    if row.status == Running {
      return Ok(Some(WorkOfDeletion(row.Snapshot())));
    }
    if row.status !in {Dispatching, Queued} {
      return Err(JobConflict);
    }
    row.token := None;
    row.lockedUntil := None;
    row.status := Running;
    row.deadline := Some(now + timeoutSeconds);
    outcome := Ok(Some(WorkOfDeletion(row.Snapshot())));
  }

  method CompleteDeletion(row: JobRow?, asset: AssetRow, result: DeletionResult, now: Time)
    returns (outcome: Result<Job, CommandError>, emitted: bool)
    modifies row, asset
    ensures row == null ==> outcome == Err(JobNotFound) && !emitted && asset.Snapshot() == old(asset.Snapshot())
    ensures row != null ==>
              match CompletedDeletion(old(row.Snapshot()), old(asset.Snapshot()), result, now)
              case Err(e) =>
                && outcome == Err(e) && !emitted
                && row.Snapshot() == old(row.Snapshot()) && asset.Snapshot() == old(asset.Snapshot())
              case Ok((job, asset', event)) =>
                outcome == Ok(job) && emitted == event && row.Snapshot() == job && asset.Snapshot() == asset'
  {
    emitted := false;
    if row == null {
      return Err(JobNotFound), false;
    }
    if row.id.kind != Deletion || row.attempt != result.attempt {
      return Err(JobConflict), false;
    }
    if row.status in {Succeeded, Failed} {
      if !SameDeletionResult(row.Snapshot(), result) {
        return Err(JobConflict), false;
      }
      return Ok(row.Snapshot()), false;
    }
    if row.status != Running {
      return Err(JobConflict), false;
    }
    row.completedAt := Some(now);
    row.deadline := None;
    match result {
      case EraseFailed(_, _, kind) =>
        row.status := Failed;
        row.errorCode := Some(kind);
      case Erased(_, _) =>
        row.status := Succeeded;
        asset.status := Deleted;
        emitted := true;
    }
    outcome := Ok(row.Snapshot());
  }

  /**
   One uninterrupted delivery of a deletion task. When it reports an erasure the asset is DELETED, the
   event was appended, and the job's key is used for exactly the pinned generation; unless that key was
   used before, the pinned generation is gone from the store.
   */
  method HandleDeletion(row: JobRow?, asset: AssetRow, storage: FakeObjectStorage, task: Task, now: Time,
                        timeoutSeconds: nat)
    returns (outcome: Result<Option<DeletionResult>, CommandError>, emitted: bool)
    modifies row, asset, storage
    ensures !outcome.Ok? || outcome.value.None? ==>
              && !emitted && asset.Snapshot() == old(asset.Snapshot()) && storage.Stored() == old(storage.Stored())
              && (row != null ==> row.Snapshot() == old(row.Snapshot()))
    ensures outcome.Ok? && outcome.value.Some? ==>
              && row != null
              && emitted == outcome.value.value.Erased?
              && match DeleteObject(old(storage.Stored()), row.objectKey, row.generation, DeleteKey(row.id)) {
                   case Ok(store) =>
                     && outcome.value == Some(Erased(row.id, row.attempt)) && storage.Stored() == store
                     && row.status == Succeeded && asset.status == Deleted
                   case Err(code) =>
                     && outcome.value == Some(EraseFailed(row.id, row.attempt, code))
                     && storage.Stored() == old(storage.Stored())
                     && row.status == Failed && row.errorCode == Some(code)
                     && asset.Snapshot() == old(asset.Snapshot())
                 }
    ensures outcome.Ok? <==> row != null && StartedDeletion(old(row.Snapshot()), task, now, timeoutSeconds).Ok?
  {
    emitted := false;
    var started := StartDeletion(row, task, now, timeoutSeconds);
    if started.Err? {
      return Err(started.error), false;
    }
    if started.value.None? {
      return Ok(None), false;
    }
    var work := started.value.value;
    var failure := storage.Delete(work.objectKey, work.generation, DeleteKey(work.job));
    var result :=
      if failure.Some? then EraseFailed(work.job, work.attempt, failure.value) else Erased(work.job, work.attempt);
    var completed;
    completed, emitted := CompleteDeletion(row, asset, result, now);
    outcome := Ok(Some(result));
  }
}
