# Verification of the move-job backend

This project models the parts of the backend whose correctness depends on more than one
transaction, and proves what holds over every run of them. It is written in Dafny 4.11;
`dafny verify dfyconfig.toml` checks all of it.

A transaction that locks its rows is one atomic step. Between any two steps any other step may
happen, so dispatchers, workers, clients and managers interleave freely. What one transaction
learns and a later one uses (a lease, a queue answer, a task, a storage reading, a provider
outcome) is a message. Messages are never removed from the state: a step may use one late, more
than once, or never, which covers duplicates, delays, crashes and lost replies.

## How it is organised

The same commands appear twice. The service files update rows in place: rows and ports are
classes with the source's columns and dictionaries as fields, loops are loops, and each method is
proved to commit exactly the rows that a specification function computes from the old ones. The
world files put those functions together into a state machine, and the theorem files prove
properties of every run. The command files say, for each command in a reachable state, exactly when it
has an effect and which one, in stored columns and plain numbers; guards that the invariants make
redundant are gone there.

| part | rows and specification | in-place commands | state machine | results |
|---|---|---|---|---|
| media jobs | `BackgroundJobs`, `Ports`, `PortRuns` | `JobTables`, `Fakes`, `BackgroundJobService`, `CaptureService` | `MediaWorld`, `MediaInvariant` | `MediaTheorems`, `MediaCommands`, `MediaOutcomes`, `MediaLeases`, `MediaProgress`, `MediaRecovery`, `MediaOrphans` |
| analysis | `AnalysisContracts`, `AnalysisRows`, `AnalysisResults` | `AnalysisTables`, `AnalysisService`, `AnalysisHandlers` | `AnalysisWorld`, `AnalysisInvariant` | `AnalysisTheorems`, `AnalysisCommands`, `AnalysisWaits`, `AnalysisProgress` |
| completion and field changes | `JobRecords` | `CompletionService` | `CompletionWorld` | `CompletionTheorems`, `CompletionCommands`, `CompletionLifecycle`, `ScopePrices` |
| delegated access | `Delegation` | `DelegationService` | `DelegationTheorems` | `DelegationCommands`, `DelegationRuns` |
| dispatch | `DispatchChecks` | | `DispatchRuns` | `DispatchStaffing`, `DispatchRuns` |
| request quota, documents, migration | `RateLimit`, `PdfText`, `PdfDocument`, `LadderMigration` | in the same files | | in the same files, `PdfReader` |

`MediaRows`, `MediaSteps`, `MediaActions`, `AnalysisSteps` and `AnalysisActions` hold the proofs that
every action keeps the invariants.

## Where the code does less than one might expect

Six statements a reader might take for granted are false of the code. Each has a concrete run or
input that breaks it, and the exact condition under which it holds.

- A validation whose asset is deleted while it runs never ends, and its retry is refused forever
  (`MediaProgress.OrphanedForever`). The system gets there from its first moment
  (`MediaOrphans.OrphanReachable`), and from every state in which both jobs of an asset are open
  (`MediaOrphans.OpenJobsCanOrphan`). A retry of an expired validation is accepted exactly when the
  asset is not deleted (`MediaProgress.ExpiredRetryAcceptedIff`).
- A failed analysis intent may leave its provider run running (`AnalysisProgress.FailedWhileRunning`).
  It cannot exactly for failures reported as retryable under the general attempt bound
  (`AnalysisProgress.FailedMeansStoppedIff`).
- Two completion requests can be live at once when rows get equal timestamps, because the newest row
  is then chosen by a random identifier (`CompletionLifecycle.TieLeavesTwoLive`). After a request at
  most one stays live exactly when its time and identifier sort last
  (`CompletionLifecycle.AskKeepsOneLiveIff`); a submission that does not sort last can never be put to
  the customer (`CompletionLifecycle.SubmissionCanBeAskedIff`).
- An invitation request that is overtaken between its authentication and its transaction can leave a
  worker with a live link although its company has none (`DelegationRuns.OvertakenInviteOrphans`); a
  step keeps the delegation rules exactly when its actor is still accepted at that moment
  (`DelegationRuns.StepKeepsDelegationIff`).
- All dispatch checks can pass although no selection would be accepted, because skills are pooled over
  everyone (`DispatchStaffing.PassingChecksMayHaveNoSelection`) and because nobody looks for the field
  worker (`DispatchStaffing.ChecksIgnoreTheFieldWorker`). A setup has an acceptable selection exactly
  when a search over its options succeeds (`DispatchStaffing.SelectionExistsIff`); where there is room
  for everyone who is needed, exactly when the checks pass and the field worker is available
  (`DispatchStaffing.ChecksSufficeIff`).
- Undoing the ladder downgrade is exact exactly when every entry is unknown
  (`LadderMigration.DowngradeThenUpgradeIff`). For documents of the request schema the guard of the
  downgrade is exactly that condition (`LadderMigration.GuardIsExactIff`); a null entry, which the
  schema never stores, gets past it and comes back as unknown
  (`LadderMigration.NullLadderPassesTheGuard`).

Two branches can never be taken: a capture is never completed with a scope version that was imported
earlier (`AnalysisTheorems.ImportIsAlwaysNew`), and the 300-second cap on the dispatch back-off never limits it
(`AnalysisRows.RetryDelayDoubles`).

## Model

| member | source | states |
|---|---|---|
| Fakes.FakeTaskQueue.Add | app/contracts/fakes.py:158-184 | Equal keys are answered with the first task ID, and a key reused for another request is a conflict that changes nothing. |
| Fakes.FakeObjectStorage.Hash | app/contracts/fakes.py:91-118 | Hashes the stored bytes only while the requested generation is the stored one. |
| Fakes.FakeObjectStorage.Delete | app/contracts/fakes.py:120-146 | One key deletes one generation at most once; a repeated call is a no-op and a reused key a conflict. |
| PortRuns.KeyDeletesOnce | app/contracts/fakes.py:120-146 | Whatever is written or deleted in between, repeating a deletion under its key has no effect, and any other use of the key is a conflict. |
| PortRuns.StoreChangesIff | app/contracts/fakes.py:120-146 | The first use of a key removes exactly the generation it names. |
| PortRuns.AnswerStands | app/contracts/fakes.py:158-184 | Over every sequence of calls a key names one task: the same request is answered with it, any other is a conflict. |
| PortRuns.TasksAreNumbered | app/contracts/fakes.py:158-184 | Tasks get the numbers from one on, each once, and keep them. |
| BackgroundJobService.CreateValidationJob | app/modules/background_job/service.py:202-253 | At most one validation row for an asset, pinned to the uploaded generation, type and size; a second request answers the stored row. |
| BackgroundJobService.CreateRetentionJob | app/modules/background_job/service.py:102-199 | A deletion intent outside the review path needs a completed job past the cutoff and a deletable, pinned asset; an existing intent is answered unchecked. |
| BackgroundJobService.Retry | app/modules/background_job/service.py:270-315 | Only a failed or expired attempt goes back to pending; an expired validation first needs its asset to be processing and fails it. |
| BackgroundJobService.ClaimDue | app/modules/background_job/service.py:318-374 | Every selected row is leased under its own token; only a pending row starts a new attempt, and the claim names the row's attempt. |
| BackgroundJobService.FinalizeDispatch | app/modules/background_job/service.py:377-426 | A queue outcome is recorded only under the current lease, or as the task ID of an attempt a worker has accepted. |
| BackgroundJobService.RecordOutcomes | app/modules/background_job/service.py:471-494 | Every outcome of a batch is applied to its row as found, and the counters count exactly the recorded ones of each kind. |
| BackgroundJobService.StartValidation | app/modules/background_job/service.py:519-571 | One delivery takes the attempt and the asset over together; a repeated one gets the same work, and one for an ended attempt gets none. |
| BackgroundJobService.CompleteValidation | app/modules/background_job/service.py:574-644 | Job and asset end together, a repeated result is accepted only if it says the same, and any mismatch changes nothing. |
| BackgroundJobService.StartDeletion | app/modules/background_job/service.py:647-680 | One delivery takes the attempt over; a repeated one gets the same work. |
| BackgroundJobService.CompleteDeletion | app/modules/background_job/service.py:683-743 | A first successful result deletes the asset and appends one event; a repeated one appends nothing. |
| BackgroundJobService.Inspect | app/modules/media_processing/validation.py:46-84 | The two storage calls find a digest exactly for an object that is the pinned one; the digest is of the stored bytes. |
| BackgroundJobService.HandleValidation | app/modules/media_processing/validation.py:21-71 | An uninterrupted delivery ends its attempt, with the asset ready under the stored bytes' hash exactly when the stored object is the pinned one; a row whose asset is no longer the pinned object is a conflict without effect. |
| BackgroundJobService.HandleDeletion | app/modules/media_processing/deletion.py:27-71 | An uninterrupted delivery ends its attempt with what the provider call did under the job's attempt-independent key. |
| CaptureService.CompleteUpload | app/modules/capture/service.py:381-418 | Pins the asset to the generation that was read and creates its validation, or raises and changes nothing. |
| CaptureService.UploadActionIsTheCommand | app/modules/capture/service.py:381-418 | The upload step of the protocol is this command on the stored rows. |
| CaptureService.ConsumeReviewVideos | app/modules/analysis_review/service.py:256-285 | Every selected video is hidden and has one deletion intent; an existing intent is kept. |
| MediaActions.StepKeeps | app/modules/background_job/service.py:102-743 | Every action, from any state that satisfies the invariant, keeps it and only advances the state. |
| MediaTheorems.AssetAndJobsAgree | app/modules/background_job/models.py:51-95 | Over every run the rows satisfy their checks and agree: ready means validated with the pinned generation, processing means running, deleted means there is a deletion row. |
| MediaTheorems.ReadyDigestIsOfPinnedBytes | app/modules/media_processing/validation.py:34-71 | A ready asset's digest is the hash of the bytes of exactly its pinned generation, with its type and size, even if the object was replaced between the two storage calls. |
| MediaTheorems.ReadsAreWholeWrites | app/contracts/fakes.py:75-118 | Over every run whatever a storage read answers is one whole write: a hash is given exactly for the generation the metadata names, and both describe that write's bytes. |
| MediaTheorems.DeletedIsAbsorbing | app/modules/background_job/service.py:728-730 | A deleted asset stays deleted with the same digest over every further run. |
| MediaTheorems.EpochsNeverDecrease | app/modules/background_job/service.py:270-426 | Over every run a job's epoch and status rank never decrease, and its target never changes. |
| MediaTheorems.StaleActorsAreHarmless | app/modules/background_job/service.py:377-743 | A finalize, start or complete message from an earlier epoch changes nothing at all, whenever it is used. |
| MediaTheorems.AcceptedAttemptStands | app/modules/background_job/service.py:392-426 | A reported queue error never overrides an attempt that got past its dispatch. |
| MediaTheorems.QueueNeverConflicts | app/modules/background_job/service.py:455-467 | The key of an attempt determines its whole request, so a deduplicating queue never answers conflict. |
| MediaTheorems.OneTaskPerEpoch | app/modules/background_job/service.py:392-426 | A stored task ID is the queue's answer for the current attempt, absent before acceptance and never replaced within an epoch. |
| MediaTheorems.RetentionIsKept | app/modules/background_job/service.py:102-157 | Unless an accepted review of an analysis video asked for it, no deletion attempt begins before completion plus the retention period. |
| MediaTheorems.NoEarlyClaim | app/modules/background_job/service.py:330-345 | A claim of such a deletion before that time does nothing. |
| MediaTheorems.ReviewedIff | app/modules/analysis_review/service.py:256-285 | The exempted assets are exactly those for which some step of the run was a review that asked for the deletion of a ready analysis video without an intent. |
| MediaTheorems.CompletionSchedulesEvidence | app/modules/completion/service.py:296-307 | Completing a job creates one intent for each evidence asset, due exactly one retention period later, and touches no other row. |
| MediaTheorems.DeletionIsFinal | app/modules/background_job/service.py:721-741 | A succeeded deletion means the pinned generation is gone and exactly one event was appended, and both stay so. |
| MediaTheorems.NoEventBeforeDeletion | app/modules/background_job/service.py:724-741 | Before a deletion succeeded there is no event for it. |
| MediaTheorems.OnlyThePinnedGenerationIsRemoved | app/modules/media_processing/deletion.py:48-54 | A stored object only disappears by being overwritten or by the deletion job pinned to its generation. |
| MediaProgress.EveryStepMoves | app/modules/background_job/service.py:270-743 | In one step a row is unchanged, or its epoch or rank grows, or only an expired lease is renewed or an absent task ID filled in. |
| MediaProgress.OrphanedForever | app/modules/background_job/service.py:296-306 | A validation running when its asset is deleted stays running in the same attempt forever, and no retry of it is accepted. |
| MediaProgress.ExpiredRetryAcceptedIff | app/modules/background_job/service.py:296-306 | A retry of an expired validation is accepted exactly when the asset is not deleted. |
| MediaOrphans.OpenJobsCanOrphan | app/modules/background_job/service.py:296-306 | From every reachable state in which an asset is not deleted and both its jobs are open, a run leaves its validation running with the asset deleted. |
| MediaOrphans.OrphanReachable | app/modules/background_job/service.py:296-306 | A run of the whole system from its first moment that ends with such a validation. |
| MediaLeases.ClaimTakesEffectIff | app/modules/background_job/service.py:330-374 | In every reachable state a claim takes effect exactly on a waiting row that is due or a row whose lease is over, under an unused token; it leases the row for the lease time and begins an attempt only if the row was waiting. |
| MediaLeases.LeaseExcludes | app/modules/background_job/service.py:330-374 | Once a claim took effect, no other claim of that row does while it is leased and the lease time is not over, whatever else happens. |
| MediaLeases.LeaseEndsIff | app/modules/background_job/service.py:335-374 | While the row has that claim's token, another claim takes effect exactly from the end of the lease time on. |
| MediaCommands.QueueAnswersEndTheirLease | app/modules/background_job/service.py:377-426 | A queue answer ends the lease it was asked for under; later it only ever adds the task ID of an attempt that got past its dispatch, and an error then changes nothing. |
| MediaCommands.AnswerIsCountedIff | app/modules/background_job/service.py:471-494 | An answer is counted exactly if it ended its lease, or is the task ID of an attempt that got past its dispatch. |
| MediaCommands.StartTakesEffectIff | app/modules/background_job/service.py:519-571 | A delivery takes over exactly the current attempt before it was taken over; a repeated or late one leaves the rows alone. |
| MediaCommands.DeliveryRejections | app/modules/background_job/service.py:535-560 | A delivery of another attempt finds nothing, one before its dispatch or for an asset elsewhere is a conflict, and every other one is answered: with the work while the attempt runs, with nothing once it ended. |
| MediaCommands.RetryEffect | app/modules/background_job/service.py:270-315 | A retry takes effect exactly for a failed attempt, or one past its time limit whose object was not deleted; it clears the attempt's outcome and is due at once. |
| MediaCommands.ExecutionTimesOutIff | app/modules/background_job/service.py:287-315 | A running attempt can be retried exactly from its time limit on, and for a validation only while its asset is not deleted. |
| MediaOutcomes.ValidationCountsIff | app/modules/background_job/service.py:574-644 | A validation result counts exactly once, for the running attempt on an object that was not deleted; any other changes nothing. |
| MediaOutcomes.ValidationAnsweredIff | app/modules/background_job/service.py:582-623 | A result is accepted exactly for the running attempt, or if the ended attempt holds that same result. |
| MediaOutcomes.DeletionCountsIff | app/modules/background_job/service.py:683-743 | A deletion result counts exactly once, for the running attempt. |
| MediaOutcomes.DeletionAnsweredIff | app/modules/background_job/service.py:689-718 | The same holds of deletion results. |
| MediaOutcomes.MetadataFound | app/modules/media_processing/validation.py:39-50 | The first storage call tells the pinned object, no object and another object apart. |
| MediaOutcomes.DigestFound | app/modules/media_processing/validation.py:52-68 | The second one hashes the stored bytes exactly if the pinned generation still is the stored one. |
| MediaOutcomes.DeclarationTakesEffectIff | app/modules/capture/service.py:260-322 | An asset is declared exactly once, in an open job and with a positive size. |
| MediaOutcomes.UploadEffect | app/modules/capture/service.py:381-418 | An upload is finished exactly for the declared object in an open job; it is pinned, and its validation is due at once. |
| MediaOutcomes.PinnableIff | app/modules/background_job/service.py:140-148 | A generation can be pinned exactly if it is there, is not empty and is what stripping it leaves. |
| MediaOutcomes.RetentionEffect | app/modules/background_job/service.py:102-199 | A retention request adds an intent exactly for a completed job past its retention time on an object that is there; it is due at once. |
| MediaOutcomes.ReviewEffect | app/modules/analysis_review/service.py:256-285 | An accepted review hides exactly a ready analysis video; its deletion is due at once unless there was an intent. |
| MediaOutcomes.PendingIsDue | app/modules/background_job/service.py:330-345 | A pending validation, and a pending job that was attempted before, can be claimed at once, in every reachable state. |
| MediaRecovery.ReadyReachableIff | app/modules/background_job/service.py:270-644 | While the pinned object is stored, an uploaded asset can still become ready from any reachable state exactly when it is not deleted. |
| MediaRecovery.DeletionReachable | app/modules/background_job/service.py:270-743 | Every recorded deletion can still be carried out from any reachable state. |
| AnalysisRows.RetryDelayDoubles | app/modules/analysis_workflow/service.py:293-300 | The back-off doubles up to the eighth attempt and stays at 256 seconds, below its cap. |
| AnalysisRows.RetriesConverge | app/modules/analysis/service.py:415-451 | Any number of retry preparations of one failed attempt opens at most one further attempt; a caller is told to retry exactly when it or an earlier one was below its bound. |
| AnalysisRows.ReplayLeavesReported | app/modules/analysis/service.py:237-253 | An accepted replay of a failure leaves exactly the reported diagnostics, so accepting it again changes nothing. |
| AnalysisResults.FetchInOrder | app/modules/analysis/service.py:276-282 | The rows of one run, in the order of their ordinals. |
| AnalysisResults.FetchIsUnique | app/modules/analysis/models.py:159-163 | With unique ordinals an ordered selection has one answer. |
| AnalysisResults.DecodeOfEncoded | app/modules/analysis/service.py:265-347 | Decoding the rows written for a result gives an equal result: item order and the split are rebuilt from ordinals and flags. |
| AnalysisResults.RoundTrip | app/modules/analysis/service.py:170-217 | Whatever else the tables hold, storing a result and reading its run's rows back in order gives an equal result. |
| AnalysisResults.ValidResultsAreStorable | app/modules/analysis/models.py:138-163 | Every row of a valid result satisfies the checks and unique constraints of its table. |
| AnalysisResults.StoredShapeIsTheVersion | app/modules/analysis/models.py:145-158 | The table checks alone fix the schema version of a stored result and which items have names. |
| AnalysisResults.ValidatedIff | app/contracts/ai.py:76-202 | A result is valid exactly when its rows satisfy the checks, widths and unique constraints of the tables, nothing in it is named twice, its version is 1 without locations or 2, and in version 2 everything has its sources. |
| AnalysisTables.ResultTables.Store | app/modules/analysis/service.py:170-217 | The two loops add exactly the rows of the result, numbered through, and keep the rows of every other run. |
| AnalysisTables.ResultTables.Load | app/modules/analysis/service.py:265-347 | Splitting the ordered rows in a loop rebuilds exactly the stored result, or none for a run that is not completed. |
| AnalysisService.SubmitCapture | app/modules/analysis_workflow/service.py:78-158 | One intent for a capture whose inventory is ready; a second submission answers the stored one. |
| AnalysisService.ClaimDue | app/modules/analysis_workflow/service.py:183-241 | Every selected row is leased under its own token, and every attempt carries the same task. |
| AnalysisService.FinalizeDispatch | app/modules/analysis_workflow/service.py:244-303 | A refused dispatch goes back to pending with its delay; a late answer only fills in the task ID. |
| AnalysisService.StartCapture | app/modules/analysis_workflow/service.py:375-407 | A delivery is accepted from every state that is not terminal. |
| AnalysisService.CompleteCapture | app/modules/analysis_workflow/service.py:446-519 | A running intent is completed with the imported version, or failed when the draft is rejected. |
| AnalysisService.FailCapture | app/modules/analysis_workflow/service.py:552-597 | A failure is recorded once; a replay may only fill in absent diagnostics. |
| AnalysisService.StartRun | app/modules/analysis/service.py:98-133 | The first delivery creates the run; later ones of the same capture find it. |
| AnalysisService.CompleteRun | app/modules/analysis/service.py:136-217 | The first result of a running run is stored; the same result again is a no-op, any other a conflict, and no other run's rows change. |
| AnalysisService.FailRun | app/modules/analysis/service.py:220-262 | Only a running run fails; a replay may only fill in absent diagnostics. |
| AnalysisService.PrepareRetry | app/modules/analysis/service.py:415-451 | Terminal is answered only for an absent run or a failed run at the caller's bound; a failed run below it opens its next attempt. |
| AnalysisHandlers.HandleTask | app/modules/analysis/handler.py:57-125 | A stored outcome is replayed without a provider call, with its retryability recovered from the stored kind; otherwise the run ends with the provider's answer. |
| AnalysisHandlers.HandleDelivery | app/entrypoints/worker.py:166-262 | An uninterrupted delivery ends the intent, or schedules a retry with the run open in its next attempt, which is at most the fifth; it never reports a server error. |
| AnalysisActions.StepKeeps | app/modules/analysis_workflow/service.py:78-597 | Every action, from any state that satisfies the invariant, keeps it and only advances the state. |
| AnalysisTheorems.AttemptsAreBounded | app/modules/analysis/service.py:430-451 | Over every run both rows satisfy their checks and a run is in one of five attempts. |
| AnalysisTheorems.CompletedRunIsFrozen | app/modules/analysis/service.py:149-158 | A completed run never changes again, whatever later deliveries report. |
| AnalysisTheorems.NeverClaimableAgain | app/modules/analysis_workflow/service.py:197-221 | Once accepted by the queue or a worker an intent is never dispatched again. |
| AnalysisTheorems.OneTaskPerCapture | app/modules/analysis/orchestration.py:90-116 | All dispatch attempts of a capture share one external task, and its ID is never replaced. |
| AnalysisTheorems.QueueNeverConflicts | app/modules/analysis/orchestration.py:101-116 | The key of a capture determines its request, so the queue never answers conflict. |
| AnalysisTheorems.OneIntentPerCapture | app/modules/analysis_workflow/service.py:107-158 | Two intents never share a capture, and two runs never share an imported version. |
| AnalysisTheorems.ExactlyOneOutcome | app/modules/analysis_workflow/service.py:410-443 | The outbox holds one submission for an intent, followed by exactly one outcome with the stored version or failure once it is terminal. |
| AnalysisTheorems.NoEventWithoutIntent | app/modules/analysis_workflow/service.py:145-157 | There is no event about a run that has no intent. |
| AnalysisTheorems.TerminalStands | app/modules/analysis_workflow/service.py:552-597 | A terminal intent keeps its status, version, time and reported failure. |
| AnalysisTheorems.CompletedMeansImported | app/modules/analysis_workflow/service.py:446-519 | An intent is completed exactly when its draft was imported, from exactly the result of its completed run. |
| AnalysisTheorems.ImportIsAlwaysNew | app/modules/analysis_workflow/service.py:466-519 | Over every run, finishing an intent has an effect only where no draft was imported before, so the lookup of an earlier import never hits. |
| AnalysisTheorems.ExhaustedForGood | app/entrypoints/worker.py:232-262 | A failure reported as retryable had used up its bound; under the general bound the run has stopped for good. |
| AnalysisWaits.LeaseExcludes | app/modules/analysis_workflow/service.py:183-241 | Once a claim of an intent took effect, no other one does while it is leased and the lease time is not over. |
| AnalysisWaits.LeaseEndsIff | app/modules/analysis_workflow/service.py:197-241 | While the intent has that claim's token, another claim takes effect exactly from the end of the lease time on. |
| AnalysisWaits.BackoffExcludes | app/modules/analysis_workflow/service.py:291-303 | A refused intent is not dispatched during its back-off, whatever happens: 2 seconds after the first refusal, twice as long after each further one, 256 from the eighth on. |
| AnalysisWaits.BackoffEndsIff | app/modules/analysis_workflow/service.py:291-303 | While it is pending in that attempt, a claim takes effect exactly from the end of the back-off on. |
| AnalysisCommands.SubmitTakesEffectIff | app/modules/analysis_workflow/service.py:78-158 | A submission has an effect exactly for a new, consented capture of an open job whose whole inventory is ready. |
| AnalysisCommands.FinalizeEffect | app/modules/analysis_workflow/service.py:244-303 | A queue answer ends the lease it was asked for under, with its back-off if it is a refusal; later it only adds the task ID of an accepted intent. |
| AnalysisCommands.AnswerIsCountedIff | app/modules/analysis_workflow/service.py:244-303 | An answer is counted exactly if it ended its lease, or is the task ID of an intent that got past its dispatch. |
| AnalysisCommands.OpenRunEffect | app/modules/analysis/service.py:98-133 | The first delivery opens the run; a later one finds it as it is. |
| AnalysisCommands.ReadRunEffect | app/modules/analysis/service.py:350-376 | A delivery learns exactly what its run holds: that it is running, its result, or its failure. |
| AnalysisCommands.RunAnsweredIff | app/modules/analysis/service.py:136-262 | An outcome is accepted exactly for the running run, or if the ended run can hold that same outcome. |
| AnalysisCommands.OutcomeRejections | app/modules/analysis_workflow/service.py:375-391 | Exactly a task that is not the intent's own finds nothing. |
| AnalysisCommands.RecordResultEffect | app/modules/analysis/service.py:136-217 | A result is stored exactly for the running run; the same one again is acknowledged, any other has no effect. |
| AnalysisCommands.RecordFailureEffect | app/modules/analysis/service.py:220-262 | A failure ends the running run; reported again it may only fill in what was absent. |
| AnalysisCommands.PrepareRetryEffect | app/modules/analysis/service.py:415-451 | A retry opens one more attempt exactly of a failed run with less than two attempts for unreadable output, five for anything else, and gives up exactly when it has none left. |
| AnalysisCommands.FinishEffect | app/modules/analysis_workflow/service.py:446-519 | Importing a draft completes a running intent, a rejected draft fails it; any other intent is left alone. |
| AnalysisCommands.FailEffect | app/modules/analysis_workflow/service.py:552-597 | Giving up fails an intent that is not terminal; reported again it may only fill in what was absent. |
| AnalysisProgress.CompletionReachable | app/entrypoints/worker.py:166-262 | From every reachable state an intent that is not terminal can still be completed, unless its run failed in a way no fresh delivery would retry. |
| AnalysisProgress.FailedWhileRunning | app/entrypoints/worker.py:226-262 | A run of three deliveries that ends with the intent failed and the provider run running, for every failure outside the condition. |
| AnalysisProgress.FailedMeansStoppedIff | app/entrypoints/worker.py:226-262 | A failed intent never has a running run exactly for failures that are retryable under the general bound. |
| CompletionService.JobRecord.Submit | app/modules/completion/service.py:561-727 | A replay is answered, and a submission is accepted only in the checked-in, fully assigned, unanswered state. |
| CompletionService.JobRecord.Ask | app/modules/completion/service.py:849-949 | A request is created only for the newest submission and only when no earlier one blocks it. |
| CompletionService.JobRecord.Revoke | app/modules/completion/service.py:952-979 | Only a live request is revoked; the same revocation again is a no-op. |
| CompletionService.JobRecord.Accept | app/modules/completion/service.py:1094-1137 | Both confirmations, the request, the job and the intents of the evidence change together or not at all. |
| CompletionService.JobRecord.Decide | app/modules/completion/service.py:1015-1178 | Only the newest live request is decided; the same decision again is a no-op. |
| CompletionService.JobRecord.Confirm | app/modules/completion/service.py:140-315 | Each side confirms the same scope and evidence once, and the second one completes the job. |
| CompletionTheorems.CompleteIffBothConfirmed | app/modules/completion/service.py:282-295 | A job is complete exactly when both sides have confirmed, with equal scope and evidence, by either path. |
| CompletionTheorems.CompletionIntents | app/modules/completion/service.py:1149-1158 | Completion records one intent for each evidence asset, due one retention period later, and no other. |
| CompletionTheorems.ConfirmationSettlesIssues | app/modules/field_change/service.py:107-120 | From the first confirmation on every field issue is resolved, none is added and none changes. |
| CompletionTheorems.CompletedIsFinal | app/modules/completion/service.py:151-154 | A completed job keeps its time, confirmations and intents. |
| CompletionTheorems.AnswersStand | app/modules/completion/service.py:1037-1046 | Decided and revoked requests never change, at most one is confirmed, and a report exists exactly for a reported request. |
| CompletionCommands.SubmissionAcceptedIff | app/modules/completion/service.py:561-727 | In every reachable state a submission under a new reference adds its row exactly for the checked-in lead of the plan for the current scope, with the required checks and workers, times between the check-in and five minutes from now, shifts from a day before it, and own, pinned photos, while nothing waits for an answer. |
| CompletionCommands.StoredReferenceStays | app/modules/completion/service.py:576-590 | A stored reference never gets a second row. |
| CompletionCommands.AskAcceptedIff | app/modules/completion/service.py:849-949 | A request is created exactly for the newest submission of the current scope while no earlier request stands; it lasts seven days. |
| CompletionCommands.RevokeAcceptedIff | app/modules/completion/service.py:952-979 | A request can be withdrawn exactly by a manager while it is open and has not expired. |
| CompletionCommands.ReportAcceptedIff | app/modules/completion/service.py:1015-1178 | The customer can report a problem exactly on the newest open request about the newest submission of the current scope. |
| CompletionCommands.AcceptanceCompletesIff | app/modules/completion/service.py:1015-1178 | An acceptance completes the job exactly if moreover all issues are settled, the photos are ready and nobody confirmed anything else; otherwise it changes nothing. |
| CompletionCommands.ConfirmAcceptedIff | app/modules/completion/service.py:140-315 | One side's confirmation is added exactly once, for the current scope without pending changes; the second one completes the job. |
| CompletionCommands.ReportIssueAcceptedIff | app/modules/field_change/service.py:243-314 | An issue is reported exactly by the company or its worker against the current scope before any confirmation. |
| CompletionCommands.ProposalAcceptedIff | app/modules/field_change/service.py:464-590 | A quote is accepted exactly from the company, once for an issue, starting from the price of the scope it changes. |
| CompletionCommands.JudgementAcceptedIff | app/modules/field_change/service.py:793-883 | A proposal under review is rejected, or approved exactly while its base scope is current; then its total is the price of the new scope. |
| CompletionCommands.ClarificationAcceptedIff | app/modules/field_change/service.py:793-920 | A proposal goes from review to clarification and back, exactly in turn. |
| CompletionCommands.LooseChangesMoveIff | app/modules/scope/service.py:633-964 | A change request without an issue is opened before any confirmation only, and closed once. |
| CompletionCommands.SubmitRejections | app/modules/completion/service.py:561-727 | Which of the three errors a rejected submission gets. |
| CompletionCommands.RequestRejections | app/modules/completion/service.py:849-949 | Which error a rejected request gets. |
| CompletionCommands.AnswerRejections | app/modules/completion/service.py:952-1178 | Which error a rejected answer gets. |
| CompletionCommands.ConfirmRejections | app/modules/completion/service.py:140-315 | Which error a rejected confirmation gets. |
| CompletionCommands.ChangeRejections | app/modules/field_change/service.py:243-590 | Which error a rejected field change gets. |
| CompletionCommands.RepeatedSubmissionIff | app/modules/completion/service.py:574-593 | A stored reference is answered again exactly for the same command of the same participant, and is a conflict otherwise. |
| CompletionCommands.RepeatedRequestIff | app/modules/completion/service.py:864-878 | The same holds of requests. |
| CompletionCommands.RepeatedAnswerIff | app/modules/completion/service.py:952-1050 | A second answer to a request is accepted, without effect, exactly if it repeats the first one. |
| CompletionCommands.ScopesMoveIff | app/modules/move_job/service.py:687-737 | A scope is edited until it is locked, a job gets at most one first price, and only an open job without a price is canceled. |
| CompletionLifecycle.OneLiveRequest | app/modules/completion/service.py:889-913 | At most one request is live; it is the newest and asks about the newest submission, so the decision's own check never fails. |
| CompletionLifecycle.OneDecisionPerSubmission | app/modules/completion/service.py:903-913 | Over every run each submission gets at most one customer decision, in whatever order the queries see the rows. |
| CompletionLifecycle.AskKeepsOneLiveIff | app/modules/completion/service.py:522-533 | After an accepted request at most one request stays live, however the run goes on, exactly when the new row sorts after the newest stored one. |
| CompletionLifecycle.SubmissionCanBeAskedIff | app/modules/completion/service.py:598-609 | The customer can ever be asked about an accepted submission exactly when its row sorts after the newest stored one. |
| CompletionLifecycle.TieLeavesTwoLive | app/modules/completion/service.py:522-533 | With equal timestamps two requests can be live at once. |
| ScopePrices.PriceTelescopes | app/modules/field_change/service.py:390-418 | The price of the current scope is the first agreed price plus the quoted adjustments of all approved changes, each counted once, whatever was rejected or went stale. |
| ScopePrices.QuotesAddUp | app/contracts/scope_review.py:29-39 | A quote for nothing asks for its base price, one adjustment adds itself, and lists of adjustments add up. |
| DelegationService.AccessRecords.RevokeTree | app/modules/access/invitations.py:341-362 | Revokes an invitation and everything below it, with their links, and nothing else; the mutual recursion ends because roles only go down. |
| DelegationService.AccessRecords.RevokeIssuedBy | app/modules/access/invitations.py:306-338 | Revokes every tree whose root one participant issued, and nothing else. |
| DelegationService.AccessRecords.RevokeTreeOfLink | app/modules/access/invitations.py:365-400 | Revokes one link and everything delegated from its participant. |
| DelegationService.AccessRecords.Create | app/modules/access/invitations.py:135-218 | Provisions the next role of the chain once, with a link that does not outlive its issuer's. |
| DelegationService.AccessRecords.Accept | app/modules/access/invitations.py:403-435 | Only the holder of the invitation's current secret accepts it. |
| DelegationService.AccessRecords.Decline | app/modules/access/invitations.py:438-459 | Declining a pending invitation revokes the invitee's own link. |
| DelegationService.AccessRecords.RevokeByIssuer | app/modules/access/invitations.py:462-480 | The issuer revokes the whole tree once. |
| DelegationService.AccessRecords.Reissue | app/modules/access/invitations.py:483-531 | Everything below the invitee and the old link are revoked before the new link is issued. |
| DelegationRuns.StepKeepsDelegationIff | app/modules/access/invitations.py:135-218 | From a state that keeps the delegation rules a step keeps them exactly when its actor is still accepted when its command runs. |
| DelegationRuns.DelegatedLinksAreBacked | app/modules/access/service.py:63-80 | An unrevoked delegated link has an unrevoked link of its issuer that lives at least as long. |
| DelegationRuns.NothingBelowUnaccepted | app/modules/access/invitations.py:438-459 | Whoever has not accepted has no unrevoked link below it. |
| DelegationRuns.RevocationStands | app/modules/access/service.py:376-398 | A revocation is never undone, and a link's participant and lifetime never change. |
| DelegationRuns.OneInvitationPerRole | app/modules/access/models.py:88-90 | Each role is invited at most once for a job. |
| DelegationRuns.TreeRevocationIsComplete | app/modules/access/invitations.py:365-400 | Revoking a link leaves nothing live at or below it and touches no other link. |
| DelegationRuns.OvertakenInviteOrphans | app/modules/access/invitations.py:135-218 | An overtaken invitation leaves a worker's link live although its company has none. |
| DelegationCommands.SecretIsGiven | app/modules/access/service.py:63-80 | Over every run a link's secret is the one it was issued with or the last one rotated in. |
| DelegationCommands.AcceptTakesEffectIff | app/modules/access/invitations.py:403-435 | Over every run an acceptance has an effect exactly for the invitee of a pending, unexpired invitation who shows the secret last given for its link. |
| DelegationCommands.DeclineTakesEffectIff | app/modules/access/invitations.py:438-459 | A refusal has an effect exactly then too, and revokes exactly the invitee's link. |
| DelegationCommands.InviteTakesEffectIff | app/modules/access/invitations.py:135-218 | An invitation has an effect exactly for the next role of the chain, while nobody has it and the issuer has a usable link; the new link lasts seven days or as long as the issuer's. |
| DelegationCommands.ReissueTakesEffectIff | app/modules/access/invitations.py:483-531 | A reissue has an effect exactly for the issuer with a usable link; the old link and everything below the invitee are revoked. |
| DelegationCommands.RevokeTakesEffectIff | app/modules/access/invitations.py:462-480 | An issuer's revocation has an effect exactly once. |
| DelegationCommands.RotateTakesEffectIff | app/modules/access/service.py:113-158 | A rotation needs the current secret of an unrevoked, unexpired link and changes that secret only. |
| DelegationCommands.LookExpiresIff | app/modules/access/invitations.py:91-97 | Reading an invitation marks it expired exactly when it is pending and its time is over. |
| DelegationCommands.AnswerRejections | app/modules/access/invitations.py:250-275 | A foreign invitation is unknown, then a wrong secret is told, and only then that it is too late. |
| DelegationCommands.IssueRejections | app/modules/access/invitations.py:135-218 | Issuing fails for a role out of turn, and otherwise exactly for a taken role or without a usable link. |
| RateLimit.LinkQuota.Enforce | app/modules/access/service.py:174-264 | A request is admitted only by both limits; a rejected one leaves the quota as it was and names when to come back. |
| RateLimit.CountWithinLimit | app/modules/access/service.py:174-241 | The committed count never exceeds the limit, and the columns keep their check. |
| RateLimit.AtMostTwiceTheLimit | app/modules/access/service.py:185-206 | Any interval as long as the window admits at most twice the limit. |
| RateLimit.TwiceTheLimitIsReached | app/modules/access/service.py:185-206 | Two full bursts a window apart are all admitted, so that bound is exact. |
| RateLimit.RetryAfterIsExact | app/modules/access/service.py:238-241 | Retry-After is the least whole number of seconds, between one and the window, after which the database admits the next request. |
| PdfText.Wrap | app/modules/completion/documents.py:14-25 | The loops cut every stripped line after each 72 characters and keep a blank line as one empty line. |
| PdfText.WrappedFits | app/modules/completion/documents.py:14-25 | No wrapped line is longer than 72 characters. |
| PdfText.PiecesCoverLine | app/modules/completion/documents.py:21-24 | The pieces of a line are its characters in order, at most 72 each, and only the last is shorter. |
| PdfText.WrappedIsTheText | app/modules/completion/documents.py:14-25 | Wrapping loses and reorders nothing. |
| PdfText.HexTextReadsBack | app/modules/completion/documents.py:28-29 | The digits drawn for a text decode to the text. |
| PdfText.PaddedReadsBack | app/modules/completion/documents.py:89-90 | A padded offset reads back and takes ten digits exactly below ten to the tenth. |
| PdfDocument.Write | app/modules/completion/documents.py:32-97 | The writer's loops produce exactly the file of the laid-out objects. |
| PdfDocument.Assemble | app/modules/completion/documents.py:78-97 | Every noted offset is where its object begins, and the table lists them in order. |
| PdfDocument.PagesAreTheBody | app/modules/completion/documents.py:35-39 | The pages are the wrapped lines in order, at most 42 each, and there is at least one. |
| PdfDocument.EntryIsTwentyBytesIff | app/modules/completion/documents.py:88-90 | A table entry has twenty bytes exactly for an offset below ten to the tenth. |
| PdfDocument.EveryObjectIsFound | app/modules/completion/documents.py:81-96 | A reader that follows startxref and the table lands on every object's own text. |
| PdfDocument.EveryObjectIsFoundIff | app/modules/completion/documents.py:81-96 | It finds every object exactly when every object begins below ten to the tenth. |
| PdfDocument.LengthIsExact | app/modules/completion/documents.py:74-75 | A content object states exactly the length of its stream. |
| PdfDocument.PagesAreLinked | app/modules/completion/documents.py:40-76 | Page k is object 5 + 2k and names its contents, which draw exactly the k-th group of lines; both are found through the table. |
| PdfDocument.KidsReadBack | app/modules/completion/documents.py:43-46 | The Kids array lists exactly the page objects in order. |
| PdfReader.DocumentReadsBack | app/modules/completion/documents.py:32-97 | Reading the file from startxref over the root, the page tree, each page's contents by their length and the drawn digits gives the title and the stripped text in order, in pages of at most 42 lines of at most 72 characters. |
| DispatchChecks.AcceptedSelectionNeedsAllChecks | app/modules/dispatch/service.py:565-595 | If any check before the assignment fails, every selection is rejected. |
| DispatchChecks.ConfirmedPlanPassesIff | app/modules/dispatch/service.py:438-479 | A selection is accepted exactly when the checks of its assignment would pass, it names only stored options, and exactly one chosen option is the field worker's. |
| DispatchRuns.ConfirmedPlanAlwaysPasses | app/modules/dispatch/service.py:388-479 | From its confirmation on a plan shows all checks passing over every further run of commands. |
| DispatchRuns.PlanReachableIff | app/modules/dispatch/service.py:612-689 | A stored setup can still get a plan exactly when its scope is still current and it can be staffed; once a check fails it never gets one. |
| DispatchRuns.CommandsTakeEffectIff | app/modules/dispatch/service.py:598-689 | A plan is confirmed exactly for the current scope and an acceptable selection, once; it records what was selected. |
| DispatchStaffing.SelectionExistsIff | app/modules/dispatch/service.py:565-595 | A stored setup has an acceptable selection exactly when there is a fitting vehicle and a search over its options succeeds. |
| DispatchStaffing.ChecksSufficeIff | app/modules/dispatch/service.py:394-436 | If everyone available is sent, or there is a place for the field worker and every requirement left, an acceptable selection exists exactly when the checks pass and the field worker is available. |
| DispatchStaffing.SelectionAcceptedIff | app/modules/dispatch/service.py:565-595 | A selection is accepted exactly when its vehicle is available and large enough, everyone chosen is available, the field worker is among them, and each required skill and certification is somebody's. |
| DispatchStaffing.MoreRoomIsNeverWorse | app/modules/dispatch/service.py:565-595 | Asking for less capacity, or larger vehicles, never turns an accepted selection into a rejected one. |
| DispatchStaffing.PassingChecksMayHaveNoSelection | app/modules/dispatch/service.py:394-436 | All checks can pass although every selection is rejected, because skills are pooled over everyone. |
| DispatchStaffing.ChecksIgnoreTheFieldWorker | app/modules/dispatch/service.py:394-436 | They can also pass although the field worker is not available and nobody needs any skill. |
| LadderMigration.RewriteDocument | alembic/versions/int_12_0001_move_list_contract.py:23-59 | The loop rewrites every snapshot of the expected shape, keeps the rest, and reports a change exactly when the document differs. |
| LadderMigration.RewriteIsIdempotent | alembic/versions/int_12_0001_move_list_contract.py:46-55 | Adding twice is adding once, and removing twice is removing once. |
| LadderMigration.UpgradeThenDowngrade | alembic/versions/int_12_0001_move_list_contract.py:186-208 | A document from before the migration survives an upgrade and a downgrade unchanged. |
| LadderMigration.DowngradeThenUpgradeIff | alembic/versions/int_12_0001_move_list_contract.py:197-208 | A downgrade is undone by upgrading again exactly when every entry still says unknown. |
| LadderMigration.GuardIsExactIff | alembic/versions/int_12_0001_move_list_contract.py:146-183 | Upgrading again undoes a downgrade exactly when the guard admits the document and no ladder entry is absent or null. |
| LadderMigration.UpgradeStatesLadders | alembic/versions/int_12_0001_move_list_contract.py:46-55 | An upgrade leaves no ladder entry absent, so only a null one gets past the guard unnoticed. |
| LadderMigration.NullLadderPassesTheGuard | alembic/versions/int_12_0001_move_list_contract.py:146-183 | Outside the schema, the guard admits a null entry, and the round trip is not exact for it. |
| LadderMigration.RewriteRows | alembic/versions/int_12_0001_move_list_contract.py:72-96 | Every rewritten row gets the hash of its new content, whatever its old hash was, and unchanged rows are left alone. |

## Left out

- SQL and SQLAlchemy: a row lock held to commit is one atomic step, skipped locked rows are rows no step selects, unique and check constraints are preconditions or proved invariants.
- Identifiers: a vehicle or worker option has its own generated one, a background job is named by its kind and asset, a queue key by the values it is built from, and rows of one job by their position; random identifiers only appear where a query orders by them.
- SHA-256, JSON canonicalisation and command hashing are parameters: a hash is a function of the bytes, a command carries its hash as a value.
- Real providers (object storage, task queue, AI provider, cache): the in-memory fakes give their meaning, and every call may also fail, or take effect and report a failure.
- AI provider answers: an answer is any result for the run and capture it was asked about, or any failure; its content is not modelled further.
- Selecting and ordering due rows, and the concurrent enqueue of one batch: a claim takes the selected rows in order, and enqueueing is one step for each claim.
- The scope service: importing a draft either answers one new version or rejects it, and a locked current version gets its only child from an approved change; content, approvals and scope review are not modelled, and a job's quote is confirmed once.
- Reopening a failed run by an explicit command, which nothing in the application calls.
- The general route for deciding a change request, which the customer or the manager may also use and which leaves the approved child scope unlocked; in the model only the customer decides a field change.
- Replays of field issues and proposals by client reference, and the evidence rules of field changes, which do not affect the completion state.
- Workspace accounts, sessions and memberships, contact points and notifications.
- Audit events, response mapping, previews and signed URLs, routers, settings, logging and tracing.
- The ZIP container and the manifest around the four documents.
- Cancellation of a move job beyond its effect on completion: the revocation of its invitations and the closing of its uploads.
- AnalysisHandlers.HandleDelivery: states what one delivery does when no other one interferes; the interleaving of deliveries is the subject of AnalysisWorld.
- BackgroundJobService.HandleValidation: states what one delivery does when no other one interferes; the interleaving of deliveries is the subject of MediaWorld.
- BackgroundJobService.HandleDeletion: states what one delivery does when no other one interferes; the interleaving of deliveries is the subject of MediaWorld.
- CompletionLifecycle.OneLiveRequest: holds for runs in which every created request sorts after the stored ones, because it is false without that; the exact condition is CompletionLifecycle.AskKeepsOneLiveIff.
- DelegationRuns.DelegatedLinksAreBacked: holds for runs in which no delegating command is overtaken, because it is false without that; the exact condition is DelegationRuns.StepKeepsDelegationIff.
- DelegationRuns.NothingBelowUnaccepted: holds for runs in which no delegating command is overtaken, for the same reason.
- PdfDocument.EveryObjectIsFound: holds for files whose objects begin below ten to the tenth, exactly as PdfDocument.EveryObjectIsFoundIff says, because a longer offset does not fit a table entry.
- PdfReader.DocumentReadsBack: holds for such files, for the same reason.
- PdfDocument.PagesAreLinked: holds for such files, for the same reason.
- DispatchChecks.AcceptedSelectionNeedsAllChecks: is stated for selections that name no worker twice, which the confirmation's schema guarantees (app/modules/dispatch/schemas.py:184-186).
