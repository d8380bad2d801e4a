/**
 A validation that is running when its asset gets deleted is a state the protocol
 does reach: from every state in which both jobs are still open, and hence from the start.
 */
module MediaOrphans {
  import opened Common
  import opened BackgroundJobs
  import opened Ports
  import opened MediaWorld
  import opened MediaInvariant
  import opened MediaSteps
  import opened MediaActions
  import opened MediaTheorems
  import opened MediaProgress
  import opened MediaRecovery

  /** The provider call of the current deletion attempt was made, but its result was not yet committed. */
  predicate EraseDone(w: World, a: AssetId) {
    var id := JobId(Deletion, a);
    && HasJob(w, id) && TheJob(w, id).id == id && TheJob(w, id).status == Running
    && DeletionEnded(Erased(id, TheJob(w, id).attempt)) in w.messages
  }

  lemma ReachErased(cfg: Config, w: World, a: AssetId) returns (more: seq<Action>)
    requires Inv(cfg, w) && HasJob(w, JobId(Deletion, a)) && w.media[a].asset.status != Deleted
    ensures var w' := Run(cfg, w, more);
            && EraseDone(w', a)
            && w'.media[a].validation == w.media[a].validation
            && w'.media[a].asset.status != Deleted
  {
    hide Inv, Step;
    var id := JobId(Deletion, a);
    assert TheJob(w, id).status != Succeeded by { MediaIn(cfg, w, a); }
    var back := ReachWorker(cfg, w, id);
    RunKeeps(cfg, w, back);
    var w1 := Run(cfg, w, back);
    var start := Start(TaskOf(TheJob(w1, id)));
    StartDeletionStep(cfg, w1, a);
    StepKeeps(cfg, w1, start);
    var w2 := Step(cfg, w1, start);
    var erase := EraseObject(WorkOfDeletion(TheJob(w2, id)), None, true);
    EraseStep(cfg, w2, id);
    RunOne(cfg, w2, erase);
    assert [start, erase][1..] == [erase];
    RunAppend(cfg, w, back, [start, erase]);
    more := back + [start, erase];
  }

  lemma OrphanByErase(cfg: Config, w: World, a: AssetId) returns (more: seq<Action>)
    requires Inv(cfg, w) && EraseDone(w, a) && HasJob(w, JobId(Validation, a)) && w.media[a].asset.status != Deleted
    requires TheJob(w, JobId(Validation, a)).status != Succeeded
    ensures Orphaned(Run(cfg, w, more), a)
  {
    hide Inv, Step;
    var id := JobId(Validation, a);
    var back := ReachWorker(cfg, w, id);
    RunKeeps(cfg, w, back);
    var w1 := Run(cfg, w, back);
    var start := Start(TaskOf(TheJob(w1, id)));
    var _ := StartValidationStep(cfg, w1, a);
    var w2 := Step(cfg, w1, start);
    assert TheJob(w2, JobId(Deletion, a)) == TheJob(w, JobId(Deletion, a));
    var complete := CompleteDeletion(Erased(JobId(Deletion, a), TheJob(w2, JobId(Deletion, a)).attempt));
    CompleteDeletionStep(cfg, w2, JobId(Deletion, a));
    RunOne(cfg, w2, complete);
    assert [start, complete][1..] == [complete];
    RunAppend(cfg, w, back, [start, complete]);
    more := back + [start, complete];
  }

  /** While both jobs of an asset are open, its validation can still become orphaned. */
  lemma OpenJobsCanOrphan(cfg: Config, actions: seq<Action>, a: AssetId) returns (more: seq<Action>)
    requires var w := After(cfg, actions);
             && a in w.media && w.media[a].validation.Some? && w.media[a].deletion.Some?
             && w.media[a].asset.status != Deleted && w.media[a].validation.value.status != Succeeded
    ensures Orphaned(After(cfg, actions + more), a)
  {
    hide Inv;
    Reachable(cfg, actions);
    var w := After(cfg, actions);
    var erase := ReachErased(cfg, w, a);
    RunKeeps(cfg, w, erase);
    var orphan := OrphanByErase(cfg, Run(cfg, w, erase), a);
    RunAppend(cfg, w, erase, orphan);
    RunAppend(cfg, INITIAL, actions, erase + orphan);
    more := erase + orphan;
  }

  const UPLOAD := Metadata("plan", "image/png", 1, "1")

  const OPEN_JOB := [OpenMoveJob(0), WriteObject(UPLOAD, [0]), CreateAsset(0, 0, Completion, "plan", "image/png", 1)]

  const FINISH_JOB := [ReadUpload(0), CompleteUpload(0, UPLOAD, ""), CompleteMoveJob(0, [0], "")]

  lemma AssetCreated(cfg: Config)
    ensures var w := After(cfg, OPEN_JOB);
            && w.moveJobs == map[0 := None] && 0 in w.media
            && w.media[0] == Media(PLAN, None, None)
            && "plan" in w.store.metadata && w.store.metadata["plan"] == UPLOAD
  {
    var w1 := Step(cfg, INITIAL, OPEN_JOB[0]);
    var w2 := Step(cfg, w1, OPEN_JOB[1]);
    var w3 := Step(cfg, w2, OPEN_JOB[2]);
    assert w3 == Run(cfg, w3, []) == Run(cfg, w2, OPEN_JOB[2..]) == Run(cfg, w1, OPEN_JOB[1..]) by {
      assert OPEN_JOB[1..][1..] == OPEN_JOB[2..] && OPEN_JOB[2..][1..] == [];
    }
  }

  const PLAN := Asset(0, 0, Completion, PendingUpload, "plan", "image/png", 1, None, None, None)
  const STORED := PLAN.(status := Uploaded, actualSize := Some(1), generation := Some("1"))

  lemma UploadRecorded(cfg: Config, w: World)
    requires w.moveJobs == map[0 := None] && 0 in w.media && w.media[0] == Media(PLAN, None, None)
    requires "plan" in w.store.metadata && w.store.metadata["plan"] == UPLOAD
    ensures var w' := Step(cfg, Step(cfg, w, FINISH_JOB[0]), FINISH_JOB[1]);
            && w'.moveJobs == map[0 := None] && 0 in w'.media
            && w'.media[0].asset == STORED && w'.media[0].deletion.None?
            && w'.media[0].validation.Some? && w'.media[0].validation.value.status == Pending
  {
  }

  lemma IntentRecorded(cfg: Config, w: World)
    requires w.moveJobs == map[0 := None] && 0 in w.media && w.media[0].asset == STORED && w.media[0].deletion.None?
    ensures var w' := Step(cfg, w, FINISH_JOB[2]);
            && 0 in w'.media && w'.media[0].asset == STORED && w'.media[0].deletion.Some?
            && w'.media[0].validation == w.media[0].validation
  {
    assert CompletionEvidence(w, 0, 0);
  }

  lemma IntentsRecorded(cfg: Config, w: World)
    requires w.moveJobs == map[0 := None] && 0 in w.media && w.media[0] == Media(PLAN, None, None)
    requires "plan" in w.store.metadata && w.store.metadata["plan"] == UPLOAD
    ensures var w' := Run(cfg, w, FINISH_JOB);
            && 0 in w'.media && w'.media[0].asset.status == Uploaded
            && w'.media[0].validation.Some? && w'.media[0].validation.value.status == Pending && w'.media[0].deletion.Some?
  {
    hide Step;
    UploadRecorded(cfg, w);
    var w1 := Step(cfg, w, FINISH_JOB[0]);
    var w2 := Step(cfg, w1, FINISH_JOB[1]);
    IntentRecorded(cfg, w2);
    var w3 := Step(cfg, w2, FINISH_JOB[2]);
    assert w3 == Run(cfg, w3, []) == Run(cfg, w2, FINISH_JOB[2..]) == Run(cfg, w1, FINISH_JOB[1..]) by {
      assert FINISH_JOB[1..][1..] == FINISH_JOB[2..] && FINISH_JOB[2..][1..] == [];
    }
  }

  /** A run of the whole system from its first moment that ends with an orphaned validation. */
  lemma OrphanReachable(cfg: Config) returns (actions: seq<Action>, a: AssetId)
    ensures Orphaned(After(cfg, actions), a)
  {
    hide Step, CompletionEvidence;
    AssetCreated(cfg);
    IntentsRecorded(cfg, After(cfg, OPEN_JOB));
    RunAppend(cfg, INITIAL, OPEN_JOB, FINISH_JOB);
    var more := OpenJobsCanOrphan(cfg, OPEN_JOB + FINISH_JOB, 0);
    actions, a := OPEN_JOB + FINISH_JOB + more, 0;
  }
}
