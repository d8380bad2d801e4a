/**
 The two commands of other services that touch media rows in place: finishing an
 upload, and hiding the analysis videos of an accepted review.
 */
module CaptureService {
  import opened Common
  import opened BackgroundJobs
  import opened Ports
  import opened JobTables
  import opened BackgroundJobService
  import MediaWorld

  /** What upload completion does once it holds its locks, given the metadata it read before. */
  function UploadCompleted(asset: Asset, existing: Option<Job>, seen: Metadata, moveOpen: bool, trace: string, now: Time)
    : Result<(Asset, Job), CommandError>
  {
    if asset.status == Uploaded then
      match CreateValidation(asset, existing, trace, now)
      case Err(e) => Err(e)
      case Ok(job) => Ok((asset, job))
    else if asset.status != PendingUpload || !MediaWorld.UploadMatches(asset, seen) || !moveOpen then Err(JobConflict)
    else
      var uploaded := asset.(status := Uploaded, actualSize := Some(seen.sizeBytes), sha256 := None,
                             generation := Some(seen.generation));
      match CreateValidation(uploaded, existing, trace, now)
      case Err(e) => Err(e)
      case Ok(job) => Ok((uploaded, job))
  }

  /** Pins the asset to the generation that was read and asks for its validation; a raise undoes both. */
  method CompleteUpload(asset: AssetRow, existing: JobRow?, seen: Metadata, moveOpen: bool, trace: string, now: Time)
    returns (outcome: Result<JobRow, CommandError>)
    modifies asset
    ensures match UploadCompleted(old(asset.Snapshot()), old(Stored(existing)), seen, moveOpen, trace, now)
            case Err(e) => outcome == Err(e) && asset.Snapshot() == old(asset.Snapshot())
            case Ok((uploaded, job)) =>
              outcome.Ok? && asset.Snapshot() == uploaded && outcome.value.Snapshot() == job
  {
    if asset.status == Uploaded {
      outcome := CreateValidationJob(asset, existing, trace, now);
      return;
    }
    if asset.status != PendingUpload || !MediaWorld.UploadMatches(asset.Snapshot(), seen) || !moveOpen {
      return Err(JobConflict);
    }
    var size, generation, digest := asset.actualSize, asset.generation, asset.sha256;
    asset.status := Uploaded;
    asset.actualSize := Some(seen.sizeBytes);
    asset.sha256 := None;
    asset.generation := Some(seen.generation);
    outcome := CreateValidationJob(asset, existing, trace, now);
    if outcome.Err? {
      asset.status, asset.actualSize, asset.generation, asset.sha256 := PendingUpload, size, generation, digest;
    }
  }

  /** The protocol's upload action is this command on the stored rows. */
  lemma UploadActionIsTheCommand(w: MediaWorld.World, a: AssetId, seen: Metadata, trace: string)
    requires MediaWorld.UploadSeen(a, seen) in w.messages && a in w.media
    ensures var m := w.media[a];
            var open := m.asset.moveJob in w.moveJobs && w.moveJobs[m.asset.moveJob].None?;
            MediaWorld.DoCompleteUpload(w, a, seen, trace) ==
            match UploadCompleted(m.asset, m.validation, seen, open, trace, w.now) {
              case Err(_) => w
              case Ok((asset, job)) => MediaWorld.Update(w, a, MediaWorld.WithJob(m.(asset := asset), job))
            }
  {
    assert w.media[a].(asset := w.media[a].asset) == w.media[a];
  }

  /** The rows of one analysis video after its review was accepted. */
  function Consumed(asset: Asset, existing: Option<Job>, trace: string, now: Time): (Asset, Job)
    requires asset.generation.Some?
  {
    (asset.(status := Deleted), CreateDeletion(asset, existing, trace, now))
  }

  /** Hides every selected video and records its deletion intent; an intent that exists is kept. */
  method ConsumeReviewVideos(assets: seq<AssetRow>, existing: seq<JobRow?>, trace: string, now: Time)
    returns (jobs: seq<JobRow>)
    requires |existing| == |assets| && forall i, j :: 0 <= i < j < |assets| ==> assets[i] != assets[j]
    requires forall asset :: asset in assets ==> asset.status in {Ready, Deleted} && asset.generation.Some?
    modifies assets
    ensures |jobs| == |assets|
    ensures forall i :: 0 <= i < |assets| ==>
              && (assets[i].Snapshot(), jobs[i].Snapshot())
                 == Consumed(old(assets[i].Snapshot()), old(Stored(existing[i])), trace, now)
              && (existing[i] != null ==> jobs[i] == existing[i])
  {
    jobs := [];
    for i := 0 to |assets|
      invariant |jobs| == i
      invariant forall k :: i <= k < |assets| ==> assets[k].Snapshot() == old(assets[k].Snapshot())
      invariant forall k :: 0 <= k < i ==>
                  && assets[k].Snapshot() == old(assets[k].Snapshot()).(status := Deleted)
                  && jobs[k].Snapshot() == CreateDeletion(old(assets[k].Snapshot()), old(Stored(existing[k])), trace, now)
                  && (existing[k] != null ==> jobs[k] == existing[k])
    {
      hide CreateDeletion;
      var row := IntentFor(assets[i], existing[i], trace, now);
      jobs := jobs + [row];
      assets[i].status := Deleted;
    }
  }

  method IntentFor(asset: AssetRow, existing: JobRow?, trace: string, now: Time) returns (row: JobRow)
    requires asset.generation.Some?
    ensures row.Snapshot() == CreateDeletion(asset.Snapshot(), Stored(existing), trace, now)
    ensures if existing != null then row == existing else fresh(row)
  {
    if existing != null {
      return existing;
    }
    row := new JobRow(JobId(Deletion, asset.id), asset.moveJob, asset.objectKey, asset.generation.value,
                      None, None, trace, now);
  }
}
