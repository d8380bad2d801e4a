/**
 The completion commands as they update the locked job and its rows in place, each
 proved to commit exactly the state its specification function gives; a raised
 error leaves everything as it was.
 */
module CompletionService {
  import opened Common
  import opened JobRecords

  class JobRecord {
    var status: JobStatus
    var completedAt: Option<Time>
    var participants: map<ParticipantId, Role>
    var scopes: seq<Scope>
    var issues: seq<Issue>
    var looseChange: bool
    var setup: Option<Setup>
    var assets: map<AssetId, EvidenceFacts>
    var submissions: seq<Submission>
    var requests: seq<Request>
    var confirmations: map<Role, Confirmation>
    var reports: set<nat>
    var intents: map<AssetId, Time>

    constructor ()
      ensures State() == JobFile(Open, None, map[], [], [], false, None, map[], [], [], map[], {}, map[])
    {
      status, completedAt, participants, scopes, issues := Open, None, map[], [], [];
      looseChange, setup, assets, submissions, requests := false, None, map[], [], [];
      confirmations, reports, intents := map[], {}, map[];
    }

    function State(): JobFile
      reads this
    {
      JobFile(status, completedAt, participants, scopes, issues, looseChange, setup, assets, submissions, requests,
              confirmations, reports, intents)
    }

    /** The state a command commits, or the old one when it raises. */
    ghost predicate Commits(was: JobFile, result: Result<JobFile, CommandError>, outcome: Result<(), CommandError>)
      reads this
    {
      match result
      case Ok(job) => outcome == Ok(()) && State() == job
      case Err(e) => outcome == Err(e) && State() == was
    }

    /** A replay of a stored submission is answered; a new one is appended. */
    method Submit(participant: ParticipantId, command: SubmitCommand, id: nat, now: Time)
      returns (outcome: Result<(), CommandError>)
      modifies this`submissions
      ensures Commits(old(State()), SubmitCompletion(old(State()), participant, command, id, now), outcome)
    {
      if !HasRole(State(), participant, Worker) || setup.None? {
        return Err(Missing);
      }
      var replay := SubmissionWith(submissions, command.reference);
      if replay.Some? {
        var stored := submissions[replay.value];
        return if stored.hash == command.hash && stored.actor == participant then Ok(()) else Err(Conflicted);
      }
      if status in {Completed, Canceled} || !IssuesResolved(State()) || AwaitsAnswer(State(), now) {
        return Err(Conflicted);
      }
      if setup.value.plan.None? || setup.value.plan.value.id != command.plan || scopes == [] {
        return Err(Missing);
      }
      var plan := setup.value.plan.value;
      if !IsCurrentScope(State(), command.scope) || plan.scope != command.scope || participant !in plan.checkIns {
        return Err(Conflicted);
      }
      if command.checkKeys != setup.value.checkKeys || command.shifts.Keys != plan.workers
         || plan.lead != Some(participant) || !TimesFit(command, plan.checkIns[participant], now) {
        return Err(Conflicted);
      }
      if !UsableEvidence(State(), participant, command.evidence) {
        return Err(Invalid);
      }
      submissions := submissions +
        [Submission(id, command.reference, command.hash, participant, command.scope, command.evidence, now)];
      outcome := Ok(());
    }

    method Ask(participant: ParticipantId, reference: nat, hash: string, submission: nat, id: nat, now: Time)
      returns (outcome: Result<(), CommandError>)
      modifies this`requests
      ensures Commits(old(State()), CreateRequest(old(State()), participant, reference, hash, submission, id, now), outcome)
    {
      if !HasRole(State(), participant, Manager) {
        return Err(Missing);
      }
      if status in {Completed, Canceled} {
        return Err(Conflicted);
      }
      var replay := RequestWith(requests, reference);
      if replay.Some? {
        var stored := requests[replay.value];
        return if stored.hash == hash && stored.actor == participant then Ok(()) else Err(Conflicted);
      }
      if !IssuesResolved(State()) {
        return Err(Conflicted);
      }
      if submission >= |submissions| {
        return Err(Missing);
      }
      if LatestSubmission(submissions) != Some(submission) || !IsCurrentScope(State(), submissions[submission].scope) {
        return Err(Conflicted);
      }
      var latest := LatestRequest(requests);
      if latest.Some? && Blocks(requests[latest.value], submission, now) {
        return Err(Conflicted);
      }
      if !exists p :: p in participants && participants[p] == Customer {
        return Err(Missing);
      }
      requests := requests + [NewRequest(id, reference, hash, submission, participant, now)];
      outcome := Ok(());
    }

    method Revoke(participant: ParticipantId, i: nat, reason: string, now: Time) returns (outcome: Result<(), CommandError>)
      modifies this`requests
      ensures Commits(old(State()), RevokeRequest(old(State()), participant, i, reason, now), outcome)
    {
      if !HasRole(State(), participant, Manager) || i >= |requests| {
        return Err(Missing);
      }
      var request := requests[i];
      if request.status == Revoked && request.revocation.Some? && request.revocation.value.reason == reason {
        return Ok(());
      }
      if request.status != Requested || request.expiresAt <= now {
        return Err(Conflicted);
      }
      requests := requests[i := request.(status := Revoked, revocation := Some(Revocation(now, reason)))];
      outcome := Ok(());
    }

    /** One intent for each evidence asset; an asset that has one keeps it. */
    method ScheduleEvidence(evidence: set<AssetId>, due: Time)
      modifies this`intents
      ensures intents == old(intents) + map a | a in evidence && a !in old(intents) :: due
    {
      var rest := evidence;
      while rest != {}
        invariant rest <= evidence
        invariant intents == old(intents) + map a | a in evidence - rest && a !in old(intents) :: due
        decreases |rest|
      {
        var asset :| asset in rest;
        if asset !in intents {
          intents := intents[asset := due];
        }
        rest := rest - {asset};
      }
      assert evidence - rest == evidence;
    }

    /** The job row and the retention intents of its evidence, in one transaction. */
    method Complete(evidence: set<AssetId>, retention: nat, now: Time)
      modifies this`status, this`completedAt, this`intents
      ensures State() == CompleteJob(old(State()), confirmations, evidence, retention, now)
    {
      status := Completed;
      completedAt := Some(now);
      ScheduleEvidence(evidence, now + retention);
    }

    /** Both confirmations are settled before anything is written, so a conflict leaves no half-confirmed job. */
    method Accept(i: nat, submission: Submission, decision: Decision, retention: nat, now: Time)
      returns (outcome: Result<(), CommandError>)
      requires i < |requests|
      modifies this`status, this`completedAt, this`intents, this`confirmations, this`requests
      ensures Commits(old(State()), AcceptRequest(old(State()), i, submission, decision, retention, now), outcome)
    {
      hide LatestRequest, LatestSubmission;
      if !IssuesResolved(State()) || !EvidenceReady(State(), submission.evidence) {
        return Err(Conflicted);
      }
      var request := requests[i];
      if !HasRole(State(), request.actor, Manager) {
        return Err(Missing);
      }
      var one := EnsureConfirmation(confirmations, Manager,
                                    Confirmation(request.actor, submission.scope, submission.evidence, now));
      if one.Err? {
        return Err(one.error);
      }
      var both := EnsureConfirmation(one.value, Customer,
                                     Confirmation(decision.actor, submission.scope, submission.evidence, now));
      if both.Err? {
        return Err(both.error);
      }
      hide EnsureConfirmation, IssuesResolved, EvidenceReady;
      confirmations := both.value;
      requests := requests[i := request.(status := Confirmed, decision := Some(decision))];
      Complete(submission.evidence, retention, now);
      outcome := Ok(());
    }

    method Decide(participant: ParticipantId, i: nat, confirm: bool, hash: string, retention: nat, now: Time)
      returns (outcome: Result<(), CommandError>)
      modifies this
      ensures Commits(old(State()), DecideRequest(old(State()), participant, i, confirm, hash, retention, now), outcome)
    {
      hide AcceptRequest;
      if !HasRole(State(), participant, Customer) || i >= |requests| {
        return Err(Missing);
      }
      var request := requests[i];
      if request.status in {Confirmed, IssueReported} {
        return if request.decision.Some? && request.decision.value.hash == hash then Ok(()) else Err(Conflicted);
      }
      if LatestRequest(requests) != Some(i) || request.status != Requested || request.expiresAt <= now
         || status in {Completed, Canceled} {
        return Err(Conflicted);
      }
      if request.submission >= |submissions| {
        return Err(Missing);
      }
      if LatestSubmission(submissions) != Some(request.submission)
         || !IsCurrentScope(State(), submissions[request.submission].scope) {
        return Err(Conflicted);
      }
      var decision := Decision(participant, hash, now);
      if confirm {
        outcome := Accept(i, submissions[request.submission], decision, retention, now);
      } else {
        requests := requests[i := request.(status := IssueReported, decision := Some(decision))];
        reports := reports + {i};
        outcome := Ok(());
      }
    }

    method Confirm(participant: ParticipantId, role: Role, scope: ScopeIndex, evidence: set<AssetId>, retention: nat, now: Time)
      returns (outcome: Result<(), CommandError>)
      modifies this
      ensures Commits(old(State()), ConfirmCompletion(old(State()), participant, role, scope, evidence, retention, now), outcome)
    {
      if status in {Completed, Canceled} {
        return Err(Conflicted);
      }
      if role == Worker || !HasRole(State(), participant, role) {
        return Err(Missing);
      }
      if !IssuesResolved(State()) {
        return Err(Conflicted);
      }
      if scope >= |scopes| {
        return Err(Missing);
      }
      if !IsCurrentScope(State(), scope) || UnderChange(State()) || role in confirmations {
        return Err(Conflicted);
      }
      if exists r :: r in confirmations && (confirmations[r].scope != scope || confirmations[r].evidence != evidence) {
        return Err(Conflicted);
      }
      if exists a :: a in evidence && !(a in assets && HasRole(State(), assets[a].actor, Worker)
                                        && assets[a].state in {Uploaded, Ready} && assets[a].pinned) {
        return Err(Invalid);
      }
      confirmations := confirmations[role := Confirmation(participant, scope, evidence, now)];
      if Customer in confirmations && Manager in confirmations {
        Complete(evidence, retention, now);
      }
      outcome := Ok(());
    }
  }
}
