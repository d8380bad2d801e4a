/**
 Requests one after another: what holds of live requests and customer decisions,
 and exactly when a new row keeps it, given that the queries for the newest row
 break ties between equal timestamps by a random identifier.
 */
module CompletionLifecycle {
  import opened Common
  import opened JobRecords
  import opened CompletionWorld
  import opened CompletionTheorems

  // -------------------------------------------------------- the newest row

  /** An answer leaves a request's time and identifier alone, so the newest request stays the newest. */
  lemma {:induction false} SameTimesSameLatest(rows: seq<Request>, rows': seq<Request>)
    requires |rows| == |rows'|
    requires forall k :: 0 <= k < |rows| ==> rows'[k].requestedAt == rows[k].requestedAt && rows'[k].id == rows[k].id
    ensures LatestRequest(rows') == LatestRequest(rows)
    decreases |rows|
  {
    if rows != [] {
      var n := |rows| - 1;
      SameTimesSameLatest(rows[..n], rows'[..n]);
    }
  }

  /** No submission sorts after the newest one. */
  lemma {:induction false} NothingAfterLatest(rows: seq<Submission>, k: nat)
    requires k < |rows|
    ensures var m := LatestSubmission(rows).value; !Earlier(rows[m].submittedAt, rows[m].id, rows[k].submittedAt, rows[k].id)
    decreases |rows|
  {
    var n := |rows| - 1;
    if n > 0 {
      NothingAfterLatest(rows[..n], LatestSubmission(rows[..n]).value);
      if k < n { NothingAfterLatest(rows[..n], k); }
    }
  }

  lemma AppendedRequest(rows: seq<Request>, row: Request)
    ensures var m := LatestRequest(rows);
            LatestRequest(rows + [row]) ==
            if m.None? || Earlier(rows[m.value].requestedAt, rows[m.value].id, row.requestedAt, row.id)
            then Some(|rows|) else m
  {
    var all, m := rows + [row], LatestRequest(rows);
    assert all[..|rows|] == rows && all[|rows|] == row;
    assert m.Some? ==> all[m.value] == rows[m.value];
    hide Earlier;
  }

  lemma AppendedSubmission(rows: seq<Submission>, row: Submission)
    ensures var m := LatestSubmission(rows);
            LatestSubmission(rows + [row]) ==
            if m.None? || Earlier(rows[m.value].submittedAt, rows[m.value].id, row.submittedAt, row.id)
            then Some(|rows|) else m
  {
    var all, m := rows + [row], LatestSubmission(rows);
    assert all[..|rows|] == rows && all[|rows|] == row;
    assert m.Some? ==> all[m.value] == rows[m.value];
    hide Earlier;
  }

  // --------------------------------------------- what the commands insert

  predicate Submits(w: World, w': World) {
    |w'.job.submissions| > |w.job.submissions|
  }

  predicate Creates(w: World, w': World) {
    |w'.job.requests| > |w.job.requests|
  }

  /** An accepted submission is one more row, and nothing was waiting for an answer. */
  lemma SubmitEffect(retention: nat, w: World, action: Action)
    requires action.Submit?
    ensures var w' := Step(retention, w, action);
            if Submits(w, w') then
              var row := w'.job.submissions[|w.job.submissions|];
              && w' == w.(job := w.job.(submissions := w.job.submissions + [row]))
              && row.submittedAt == w.now && row.id == action.id && FreshSubmission(w.job, row.id)
              && !Closed(w.job) && IssuesResolved(w.job) && !AwaitsAnswer(w.job, w.now) && IsCurrentScope(w.job, row.scope)
            else w' == w
  {
    hide TimesFit, UsableEvidence, IsCurrentScope, IssuesResolved, AwaitsAnswer;
  }

  /** Why a request is accepted. */
  predicate Askable(job: JobFile, participant: ParticipantId, submission: nat, now: Time) {
    && HasRole(job, participant, Manager) && !Closed(job) && IssuesResolved(job)
    && LatestSubmission(job.submissions) == Some(submission)
    && IsCurrentScope(job, job.submissions[submission].scope)
    && (LatestRequest(job.requests).Some? ==> !Blocks(job.requests[LatestRequest(job.requests).value], submission, now))
    && exists p :: p in job.participants && job.participants[p] == Customer
  }

  lemma AskEffect(retention: nat, w: World, action: Action)
    requires action.Ask?
    ensures var w' := Step(retention, w, action);
            if Creates(w, w') then
              && Askable(w.job, action.participant, action.submission, w.now)
              && w' == w.(job := w.job.(requests := w.job.requests +
                   [NewRequest(action.id, action.reference, action.hash, action.submission, action.participant, w.now)]))
            else w' == w
    ensures Askable(w.job, action.participant, action.submission, w.now) ==>
              FreshRequest(w.job, action.id) && RequestWith(w.job.requests, action.reference).None? ==>
                Creates(w, Step(retention, w, action))
  {
    hide IsCurrentScope, IssuesResolved, LatestRequest, LatestSubmission, RequestWith, Blocks;
  }

  /** What a revocation or decision does to the rows: one live request gets its answer. */
  predicate AnswersOne(w: World, w': World, i: nat) {
    && i < |w.job.requests| && w'.now == w.now && w'.job.submissions == w.job.submissions
    && |w'.job.requests| == |w.job.requests|
    && w'.job.requests == w.job.requests[i := w'.job.requests[i]]
    && Live(w.job.requests[i], w.now) && w'.job.requests[i].status != Requested
    && w'.job.requests[i].requestedAt == w.job.requests[i].requestedAt && w'.job.requests[i].id == w.job.requests[i].id
    && w'.job.requests[i].submission == w.job.requests[i].submission
    && (Decided(w'.job.requests[i]) ==>
          && LatestRequest(w.job.requests) == Some(i)
          && LatestSubmission(w.job.submissions) == Some(w.job.requests[i].submission))
  }

  lemma AnswerEffect(retention: nat, w: World, action: Action)
    requires Inv(retention, w.job) && (action.Revoke? || action.Decide?)
    ensures var w' := Step(retention, w, action); w' == w || AnswersOne(w, w', action.request)
  {
    hide RequestsOk, IssuesResolved, IntentsMatch, LatestRequest, LatestSubmission, AcceptRequest, Completes;
    var w' := Step(retention, w, action);
    if w'.job != w.job {
      if action.Decide? {
        DecisionEffect(retention, w.job, action.participant, action.request, action.confirm, action.hash, w.now);
        DecisionKeepsTime(retention, w.job, action, w.now);
      } else {
        RequestIn(w.job, action.request);
      }
    }
  }

  lemma DecisionKeepsTime(retention: nat, job: JobFile, action: Action, now: Time)
    requires action.Decide? && action.request < |job.requests|
    ensures var r := DecideRequest(job, action.participant, action.request, action.confirm, action.hash, retention, now);
            r.Ok? ==> action.request < |r.value.requests|
                      && r.value.requests[action.request].requestedAt == job.requests[action.request].requestedAt
  {
    hide LatestRequest, LatestSubmission, IsCurrentScope, IssuesResolved, EvidenceReady, EnsureConfirmation;
  }

  predicate Touches(action: Action) {
    action.Submit? || action.Ask? || action.Revoke? || action.Decide?
  }

  lemma RowsStay(retention: nat, w: World, action: Action)
    requires Inv(retention, w.job) && !Touches(action)
    ensures var w' := Step(retention, w, action);
            && w.now <= w'.now
            && w'.job.submissions == w.job.submissions && w'.job.requests == w.job.requests
  {
    if action.Confirm? {
      ConfirmEffect(retention, w.job, action.participant, action.role, action.scope, action.evidence, w.now);
      hide ConfirmCompletion, Inv;
    } else {
      ChangesAreSame(retention, w, action);
      hide Apply, Inv;
    }
  }

  // ----------------------------------------------- one decision a submission

  /** Decisions go to different submissions, and one about the newest submission was given to the newest request. */
  ghost predicate DecidedOnce(w: World) {
    var rows := w.job.requests;
    && (forall i :: 0 <= i < |rows| ==> rows[i].submission < |w.job.submissions|)
    && (forall i :: 0 <= i < |rows| && Decided(rows[i]) && LatestSubmission(w.job.submissions) == Some(rows[i].submission) ==>
          LatestRequest(rows) == Some(i))
    && (forall i, j :: 0 <= i < j < |rows| && Decided(rows[i]) && Decided(rows[j]) ==> rows[i].submission != rows[j].submission)
  }

  lemma AnswerDecidesOnce(w: World, w': World, i: nat)
    requires DecidedOnce(w) && AnswersOne(w, w', i)
    ensures DecidedOnce(w')
  {
    SameTimesSameLatest(w.job.requests, w'.job.requests);
    hide LatestRequest, LatestSubmission;
  }

  lemma SubmitDecidesOnce(w: World, w': World, row: Submission)
    requires DecidedOnce(w) && w' == w.(job := w.job.(submissions := w.job.submissions + [row]))
    ensures DecidedOnce(w')
  {
    AppendedSubmission(w.job.submissions, row);
    hide LatestRequest, LatestSubmission;
  }

  lemma StepDecidesOnce(retention: nat, w: World, action: Action)
    requires DecidedOnce(w) && Inv(retention, w.job)
    ensures DecidedOnce(Step(retention, w, action))
  {
    hide Inv, Step, Askable, AnswersOne, DecidedOnce, AwaitsAnswer, IsCurrentScope, IssuesResolved;
    var w' := Step(retention, w, action);
    if action.Submit? {
      SubmitEffect(retention, w, action);
      if w' != w { SubmitDecidesOnce(w, w', w'.job.submissions[|w.job.submissions|]); }
    } else if action.Ask? {
      AskEffect(retention, w, action);
      if w' != w { AskDecidesOnce(w, w', w'.job.requests[|w.job.requests|]); }
    } else if action.Revoke? || action.Decide? {
      AnswerEffect(retention, w, action);
      if w' != w { AnswerDecidesOnce(w, w', action.request); }
    } else {
      RowsStay(retention, w, action);
      SameDecidesOnce(w, w');
    }
  }

  lemma SameDecidesOnce(w: World, w': World)
    requires DecidedOnce(w) && w'.job.submissions == w.job.submissions && w'.job.requests == w.job.requests
    ensures DecidedOnce(w')
  {
  }

  lemma AskDecidesOnce(w: World, w': World, row: Request)
    requires DecidedOnce(w) && w' == w.(job := w.job.(requests := w.job.requests + [row]))
    requires Askable(w.job, row.actor, row.submission, w.now) && row.status == Requested
    ensures DecidedOnce(w')
  {
    hide IsCurrentScope, IssuesResolved, LatestRequest, LatestSubmission;
    var m := LatestRequest(w.job.requests);
    assert m.Some? && Decided(w.job.requests[m.value]) ==> w.job.requests[m.value].submission != row.submission;
    assert forall i :: 0 <= i < |w.job.requests| && Decided(w.job.requests[i]) ==>
             w.job.requests[i].submission != row.submission;
  }

  lemma {:induction false} RunDecidesOnce(retention: nat, w: World, actions: seq<Action>)
    requires DecidedOnce(w) && Inv(retention, w.job)
    ensures DecidedOnce(Run(retention, w, actions))
    decreases |actions|
  {
    hide DecidedOnce, Inv, Step;
    if actions != [] {
      StepDecidesOnce(retention, w, actions[0]);
      StepKeeps(retention, w, actions[0]);
      RunDecidesOnce(retention, Step(retention, w, actions[0]), actions[1..]);
    }
  }

  /** Each submission gets at most one customer decision, in whatever order the queries see the rows. */
  lemma OneDecisionPerSubmission(retention: nat, actions: seq<Action>, i: nat, j: nat)
    requires var w := After(retention, actions);
             && i < j < |w.job.requests|
             && w.job.requests[i].submission == w.job.requests[j].submission && Decided(w.job.requests[i])
    ensures !Decided(After(retention, actions).job.requests[j])
  {
    RunDecidesOnce(retention, INITIAL, actions);
  }

  // --------------------------------------------------------- one live request

  /** Only the newest request may be live, and it asks about the newest submission. */
  ghost predicate LiveIsNewest(w: World) {
    var rows := w.job.requests;
    && (forall i :: 0 <= i < |rows| ==> rows[i].requestedAt <= w.now && rows[i].submission < |w.job.submissions|)
    && (forall i :: 0 <= i < |rows| && Live(rows[i], w.now) ==>
          LatestRequest(rows) == Some(i) && LatestSubmission(w.job.submissions) == Some(rows[i].submission))
  }

  ghost predicate OneLive(w: World) {
    forall i, j :: 0 <= i < j < |w.job.requests| ==> !(Live(w.job.requests[i], w.now) && Live(w.job.requests[j], w.now))
  }

  /** A request row for now with this identifier sorts after the newest stored one; a caller can check it before inserting. */
  predicate SortsLast(w: World, id: nat) {
    var m := LatestRequest(w.job.requests);
    m.Some? ==> Earlier(w.job.requests[m.value].requestedAt, w.job.requests[m.value].id, w.now, id)
  }

  lemma SubmitKeepsLive(w: World, w': World, row: Submission)
    requires LiveIsNewest(w) && w' == w.(job := w.job.(submissions := w.job.submissions + [row]))
    requires !AwaitsAnswer(w.job, w.now)
    ensures LiveIsNewest(w')
  {
    forall i | 0 <= i < |w.job.requests| ensures !Live(w.job.requests[i], w.now) {
      assert LatestSubmission(w.job.submissions).Some?;
    }
  }

  lemma AskKeepsLive(w: World, w': World, row: Request)
    requires LiveIsNewest(w) && w' == w.(job := w.job.(requests := w.job.requests + [row]))
    requires Askable(w.job, row.actor, row.submission, w.now) && row.requestedAt == w.now && SortsLast(w, row.id)
    ensures LiveIsNewest(w')
  {
    hide IsCurrentScope, IssuesResolved, LatestRequest, LatestSubmission;
    AppendedRequest(w.job.requests, row);
    var m := LatestRequest(w.job.requests);
    assert m.Some? ==> !Live(w.job.requests[m.value], w.now);
    assert forall i :: 0 <= i < |w.job.requests| ==> !Live(w.job.requests[i], w.now);
  }

  lemma AnswerKeepsLive(w: World, w': World, i: nat)
    requires LiveIsNewest(w) && AnswersOne(w, w', i)
    ensures LiveIsNewest(w')
  {
    SameTimesSameLatest(w.job.requests, w'.job.requests);
    hide LatestRequest, LatestSubmission;
  }

  lemma StepKeepsLive(retention: nat, w: World, action: Action)
    requires LiveIsNewest(w) && Inv(retention, w.job)
    requires action.Ask? && Creates(w, Step(retention, w, action)) ==> SortsLast(w, action.id)
    ensures LiveIsNewest(Step(retention, w, action))
  {
    hide Inv, Step, Askable, AnswersOne, SortsLast, AwaitsAnswer, IsCurrentScope, IssuesResolved;
    var w' := Step(retention, w, action);
    if action.Submit? {
      SubmitEffect(retention, w, action);
      if w' != w { SubmitKeepsLive(w, w', w'.job.submissions[|w.job.submissions|]); }
    } else if action.Ask? {
      AskEffect(retention, w, action);
      if w' != w { AskKeepsLive(w, w', w'.job.requests[|w.job.requests|]); }
    } else if action.Revoke? || action.Decide? {
      AnswerEffect(retention, w, action);
      if w' != w { AnswerKeepsLive(w, w', action.request); }
    } else {
      RowsStay(retention, w, action);
    }
  }

  /** Along the run every request that is created sorts after the stored ones: the clock moved on, or its identifier is larger. */
  ghost predicate Sequenced(retention: nat, w: World, actions: seq<Action>)
    decreases |actions|
  {
    actions == [] ||
    (&& (actions[0].Ask? && Creates(w, Step(retention, w, actions[0])) ==> SortsLast(w, actions[0].id))
     && Sequenced(retention, Step(retention, w, actions[0]), actions[1..]))
  }

  lemma {:induction false} RunKeepsLive(retention: nat, w: World, actions: seq<Action>)
    requires LiveIsNewest(w) && Inv(retention, w.job) && Sequenced(retention, w, actions)
    ensures LiveIsNewest(Run(retention, w, actions)) && Inv(retention, Run(retention, w, actions).job)
    decreases |actions|
  {
    hide LiveIsNewest, Inv, Step, SortsLast, Creates;
    if actions != [] {
      StepKeepsLive(retention, w, actions[0]);
      StepKeeps(retention, w, actions[0]);
      RunKeepsLive(retention, Step(retention, w, actions[0]), actions[1..]);
    }
  }

  /**
   At any time at most one request is live; it is the newest request and asks about the newest
   submission, so the decision's own check of the newest submission never fails for it.
   */
  lemma OneLiveRequest(retention: nat, actions: seq<Action>, i: nat, j: nat)
    requires Sequenced(retention, INITIAL, actions)
    requires var w := After(retention, actions);
             i < |w.job.requests| && j < |w.job.requests| && Live(w.job.requests[i], w.now)
    ensures var w := After(retention, actions);
            && LatestRequest(w.job.requests) == Some(i)
            && LatestSubmission(w.job.submissions) == Some(w.job.requests[i].submission)
            && (Live(w.job.requests[j], w.now) ==> j == i)
  {
    hide Inv, Sequenced;
    Reachable(retention, []);
    RunKeepsLive(retention, INITIAL, actions);
  }

  // ------------------------------------------- exactly when it stays at one

  /** However the run goes on with requests that sort last, at most one is live. */
  ghost predicate StaysOneLive(retention: nat, w: World) {
    forall more: seq<Action> :: Sequenced(retention, w, more) ==> OneLive(Run(retention, w, more))
  }

  lemma LiveStays(retention: nat, w: World)
    requires LiveIsNewest(w) && Inv(retention, w.job)
    ensures StaysOneLive(retention, w)
  {
    hide Inv, Step;
    forall more: seq<Action> | Sequenced(retention, w, more) ensures OneLive(Run(retention, w, more)) {
      RunKeepsLive(retention, w, more);
    }
  }

  function RequestIds(rows: seq<Request>): set<nat> {
    set i | 0 <= i < |rows| :: rows[i].id
  }

  function RequestReferences(rows: seq<Request>): set<nat> {
    set i | 0 <= i < |rows| :: rows[i].reference
  }

  /** A request under a reference and an identifier that no row has, the identifier above all of them. */
  lemma FreshAsk(job: JobFile, participant: ParticipantId, submission: nat) returns (ask: Action)
    ensures ask.Ask? && ask.participant == participant && ask.submission == submission
    ensures FreshRequest(job, ask.id) && RequestWith(job.requests, ask.reference).None?
    ensures forall i :: 0 <= i < |job.requests| ==> job.requests[i].id < ask.id
  {
    var id := FreshNumber(RequestIds(job.requests));
    var reference := FreshNumber(RequestReferences(job.requests));
    assert forall i :: 0 <= i < |job.requests| ==>
             job.requests[i].id in RequestIds(job.requests) && job.requests[i].reference in RequestReferences(job.requests);
    ask := Ask(participant, reference, "", submission, id);
  }

  /** The newest request misses the new one, so it blocks no more than before, and a second one is accepted. */
  lemma SecondAsk(retention: nat, w: World, action: Action) returns (ask: Action)
    requires LiveIsNewest(w) && action.Ask? && Creates(w, Step(retention, w, action)) && !SortsLast(w, action.id)
    ensures var w' := Step(retention, w, action); Sequenced(retention, w', [ask]) && !OneLive(Run(retention, w', [ask]))
  {
    hide Step, IsCurrentScope, IssuesResolved, LatestRequest, LatestSubmission, RequestWith;
    var n := |w.job.requests|;
    var w' := Step(retention, w, action);
    AskEffect(retention, w, action);
    AppendedRequest(w.job.requests, w'.job.requests[n]);
    ask := FreshAsk(w'.job, action.participant, action.submission);
    assert Askable(w'.job, ask.participant, ask.submission, w'.now) by { StillAskable(w, w', w'.job.requests[n]); }
    hide Askable;
    AskEffect(retention, w', ask);
    var w2 := Step(retention, w', ask);
    assert [ask][1..] == [] && Run(retention, w', [ask]) == w2;
    assert Live(w2.job.requests[n], w2.now) && Live(w2.job.requests[n + 1], w2.now);
    assert Sequenced(retention, w', [ask]);
  }

  lemma StillAskable(w: World, w': World, row: Request)
    requires Askable(w.job, row.actor, row.submission, w.now)
    requires w' == w.(job := w.job.(requests := w.job.requests + [row]))
    requires LatestRequest(w'.job.requests) == LatestRequest(w.job.requests)
    ensures Askable(w'.job, row.actor, row.submission, w'.now)
  {
    hide LatestRequest, LatestSubmission;
  }

  /**
   After an accepted request at most one request stays live, however the run goes on, exactly
   when the new row sorts after the newest stored one by time and identifier.
   */
  lemma AskKeepsOneLiveIff(retention: nat, actions: seq<Action>, action: Action)
    requires Sequenced(retention, INITIAL, actions) && action.Ask?
    requires var w := After(retention, actions); Creates(w, Step(retention, w, action))
    ensures var w := After(retention, actions); StaysOneLive(retention, Step(retention, w, action)) <==> SortsLast(w, action.id)
  {
    hide Inv, Step, Sequenced, Creates, SortsLast, OneLive;
    Reachable(retention, []);
    RunKeepsLive(retention, INITIAL, actions);
    var w := After(retention, actions);
    if SortsLast(w, action.id) {
      StepKeepsLive(retention, w, action);
      StepKeeps(retention, w, action);
      LiveStays(retention, Step(retention, w, action));
    } else {
      var ask := SecondAsk(retention, w, action);
      assert !StaysOneLive(retention, Step(retention, w, action));
    }
  }

  // ------------------------------------- exactly when a submission is answered

  /** A submission row for now with this identifier sorts after the newest stored one. */
  predicate SubmissionSortsLast(w: World, id: nat) {
    var m := LatestSubmission(w.job.submissions);
    m.Some? ==> Earlier(w.job.submissions[m.value].submittedAt, w.job.submissions[m.value].id, w.now, id)
  }

  predicate AskedAbout(job: JobFile, s: nat) {
    exists i :: 0 <= i < |job.requests| && job.requests[i].submission == s
  }

  /** Some continuation asks the customer about the submission. */
  ghost predicate CanBeAsked(retention: nat, w: World, s: nat) {
    exists more: seq<Action> :: AskedAbout(Run(retention, w, more).job, s)
  }

  /** Another submission sorts after this one, and no request was made about it. */
  ghost predicate Overlooked(w: World, s: nat) {
    && s < |w.job.submissions|
    && (exists k :: 0 <= k < |w.job.submissions|
          && Earlier(w.job.submissions[s].submittedAt, w.job.submissions[s].id,
                     w.job.submissions[k].submittedAt, w.job.submissions[k].id))
    && !AskedAbout(w.job, s)
  }

  lemma OverlookedIsNotLatest(w: World, s: nat)
    requires Overlooked(w, s)
    ensures LatestSubmission(w.job.submissions) != Some(s)
  {
    var k :| 0 <= k < |w.job.submissions| && Earlier(w.job.submissions[s].submittedAt, w.job.submissions[s].id,
                                                     w.job.submissions[k].submittedAt, w.job.submissions[k].id);
    NothingAfterLatest(w.job.submissions, k);
  }

  lemma StepOverlooks(retention: nat, w: World, action: Action, s: nat)
    requires Inv(retention, w.job) && Overlooked(w, s)
    ensures Overlooked(Step(retention, w, action), s)
  {
    hide Inv, Step, LatestSubmission, LatestRequest, IsCurrentScope, IssuesResolved, AwaitsAnswer;
    var w' := Step(retention, w, action);
    var k :| 0 <= k < |w.job.submissions| && Earlier(w.job.submissions[s].submittedAt, w.job.submissions[s].id,
                                                     w.job.submissions[k].submittedAt, w.job.submissions[k].id);
    if action.Submit? {
      SubmitEffect(retention, w, action);
    } else if action.Ask? {
      OverlookedIsNotLatest(w, s);
      AskEffect(retention, w, action);
    } else if action.Revoke? || action.Decide? {
      AnswerEffect(retention, w, action);
    } else {
      RowsStay(retention, w, action);
    }
    assert w'.job.submissions[k] == w.job.submissions[k];
  }

  lemma {:induction false} RunOverlooks(retention: nat, w: World, actions: seq<Action>, s: nat)
    requires Inv(retention, w.job) && Overlooked(w, s)
    ensures Overlooked(Run(retention, w, actions), s)
    decreases |actions|
  {
    hide Inv, Step, Overlooked;
    if actions != [] {
      StepOverlooks(retention, w, actions[0], s);
      StepKeeps(retention, w, actions[0]);
      RunOverlooks(retention, Step(retention, w, actions[0]), actions[1..], s);
    }
  }

  /** A fresh manager asks a fresh customer about a submission that has just become the newest. */
  lemma AskAboutNewest(retention: nat, w: World, s: nat) returns (more: seq<Action>)
    requires !Closed(w.job) && IssuesResolved(w.job) && s < |w.job.submissions|
    requires LatestSubmission(w.job.submissions) == Some(s) && IsCurrentScope(w.job, w.job.submissions[s].scope)
    requires LatestRequest(w.job.requests).Some? ==>
               !Blocks(w.job.requests[LatestRequest(w.job.requests).value], s, w.now)
    ensures AskedAbout(Run(retention, w, more).job, s)
  {
    hide LatestRequest, LatestSubmission, IsCurrentScope, IssuesResolved, Blocks;
    var manager := FreshNumber(w.job.participants.Keys);
    var customer := manager + 1;
    var w1 := Step(retention, w, Join(manager, Manager));
    var w2 := Step(retention, w1, Join(customer, Customer));
    assert w2 == w.(job := w.job.(participants := w.job.participants[manager := Manager][customer := Customer]));
    var ask := FreshAsk(w2.job, manager, s);
    assert Askable(w2.job, manager, s, w2.now) by {
      assert w2.job.participants[customer] == Customer;
      SameForParticipants(w.job, w2.job);
    }
    hide Step, Askable;
    AskEffect(retention, w2, ask);
    var w3 := Step(retention, w2, ask);
    assert w3.job.requests[|w2.job.requests|].submission == s;
    more := [Join(manager, Manager), Join(customer, Customer), ask];
    RunFrom(retention, w, more, [w1, w2, w3]);
  }

  lemma SameForParticipants(job: JobFile, job': JobFile)
    requires job' == job.(participants := job'.participants)
    ensures IssuesResolved(job') == IssuesResolved(job)
    ensures forall scope :: IsCurrentScope(job', scope) == IsCurrentScope(job, scope)
  {
  }

  /**
   The customer can ever be asked about an accepted submission exactly when the new row sorts after the
   newest stored one; otherwise every query for the newest submission passes it over for good.
   */
  lemma SubmissionCanBeAskedIff(retention: nat, actions: seq<Action>, action: Action)
    requires action.Submit?
    requires var w := After(retention, actions); Submits(w, Step(retention, w, action))
    ensures var w := After(retention, actions);
            CanBeAsked(retention, Step(retention, w, action), |w.job.submissions|) <==> SubmissionSortsLast(w, action.id)
  {
    hide Inv, Step, Overlooked, IsCurrentScope, IssuesResolved;
    Reachable(retention, actions);
    var w := After(retention, actions);
    var w' := Step(retention, w, action);
    var s := |w.job.submissions|;
    SubmitEffect(retention, w, action);
    StepKeeps(retention, w, action);
    hide AwaitsAnswer, LatestSubmission, LatestRequest, SubmissionSortsLast, CanBeAsked;
    if SubmissionSortsLast(w, action.id) {
      NewestCanBeAsked(retention, w, w', s);
    } else {
      assert Overlooked(w', s) by { PassedOver(retention, w, w', s); }
      OverlookedForGood(retention, w', s);
    }
  }

  lemma NewestCanBeAsked(retention: nat, w: World, w': World, s: nat)
    requires Inv(retention, w.job) && s == |w.job.submissions| && s < |w'.job.submissions|
    requires w' == w.(job := w.job.(submissions := w.job.submissions + [w'.job.submissions[s]]))
    requires !Closed(w.job) && IssuesResolved(w.job) && !AwaitsAnswer(w.job, w.now)
    requires IsCurrentScope(w.job, w'.job.submissions[s].scope) && w'.job.submissions[s].submittedAt == w.now
    requires SubmissionSortsLast(w, w'.job.submissions[s].id)
    ensures CanBeAsked(retention, w', s)
  {
    AppendedSubmission(w.job.submissions, w'.job.submissions[s]);
    NewestUnblocked(retention, w, w', s);
    hide Inv, LatestSubmission, LatestRequest, IsCurrentScope, IssuesResolved;
    var more := AskAboutNewest(retention, w', s);
  }

  lemma OverlookedForGood(retention: nat, w: World, s: nat)
    requires Inv(retention, w.job) && Overlooked(w, s)
    ensures !CanBeAsked(retention, w, s)
  {
    hide Inv, Overlooked, AskedAbout;
    forall more: seq<Action> ensures !AskedAbout(Run(retention, w, more).job, s) {
      RunOverlooks(retention, w, more, s);
      NotAsked(Run(retention, w, more), s);
    }
  }

  lemma NotAsked(w: World, s: nat)
    requires Overlooked(w, s)
    ensures !AskedAbout(w.job, s)
  {
  }

  lemma NewestUnblocked(retention: nat, w: World, w': World, s: nat)
    requires Inv(retention, w.job) && s == |w.job.submissions| && !AwaitsAnswer(w.job, w.now)
    requires s < |w'.job.submissions|
    requires w' == w.(job := w.job.(submissions := w.job.submissions + [w'.job.submissions[s]]))
    requires IssuesResolved(w.job) && IsCurrentScope(w.job, w'.job.submissions[s].scope)
    ensures IssuesResolved(w'.job) && IsCurrentScope(w'.job, w'.job.submissions[s].scope)
    ensures LatestRequest(w'.job.requests).Some? ==> !Blocks(w'.job.requests[LatestRequest(w'.job.requests).value], s, w'.now)
  {
    hide Bilateral, IntentsMatch;
    var m := LatestRequest(w.job.requests);
    if m.Some? {
      assert RequestOk(w.job, w.job.requests[m.value]);
      assert LatestSubmission(w.job.submissions).Some?;
    }
  }

  lemma PassedOver(retention: nat, w: World, w': World, s: nat)
    requires Inv(retention, w.job) && s == |w.job.submissions| && s < |w'.job.submissions|
    requires w' == w.(job := w.job.(submissions := w.job.submissions + [w'.job.submissions[s]]))
    requires w'.job.submissions[s].submittedAt == w.now && FreshSubmission(w.job, w'.job.submissions[s].id)
    requires !SubmissionSortsLast(w, w'.job.submissions[s].id)
    ensures Overlooked(w', s)
  {
    hide Bilateral, IntentsMatch, LatestSubmission;
    var m := LatestSubmission(w.job.submissions).value;
    assert w'.job.submissions[m] == w.job.submissions[m] && w.job.submissions[m] in w.job.submissions;
    forall i | 0 <= i < |w.job.requests| ensures w.job.requests[i].submission != s {
      assert RequestOk(w.job, w.job.requests[i]);
    }
  }

  // ------------------------------------------------- a tie in the timestamps

  const PLAN := Plan(0, 0, {}, Some(0), map[0 := 0])
  const COMMAND := SubmitCommand(0, "", 0, 0, {}, {}, map[], 0, 0)

  /** A job with one submission and one open request, created with identifier 5 at time 0. */
  function FirstRequest(): seq<Action> {
    [Join(0, Worker), Join(1, Manager), Join(2, Customer), DraftScope, LockScope(None), Arrange(Setup({}, Some(PLAN))),
     Submit(0, COMMAND, 7), Ask(1, 10, "", 0, 5)]
  }

  function Prepared(requests: seq<Request>): JobFile {
    JobFile(Open, None, map[0 := Worker, 1 := Manager, 2 := Customer], [Scope(true, None)], [], false,
            Some(Setup({}, Some(PLAN))), map[], [Submission(7, 0, "", 0, 0, {}, 0)], requests, map[], {}, map[])
  }

  /** Everything but the submission and the request. */
  function Arranged(): World {
    World(0, Prepared([]).(submissions := []))
  }

  lemma ArrangeExample(retention: nat)
    ensures Run(retention, INITIAL, FirstRequest()[..6]) == Arranged()
  {
    var actions := FirstRequest()[..6];
    var w1 := Step(retention, INITIAL, actions[0]);
    var w2 := Step(retention, w1, actions[1]);
    var w3 := Step(retention, w2, actions[2]);
    assert w3.job.participants == map[0 := Worker, 1 := Manager, 2 := Customer];
    var w4 := Step(retention, w3, actions[3]);
    var w5 := Step(retention, w4, actions[4]);
    var w6 := Step(retention, w5, actions[5]);
    assert w6 == Arranged();
    hide Step;
    RunFrom(retention, INITIAL, actions, [w1, w2, w3, w4, w5, w6]);
  }

  lemma SubmitExample(retention: nat)
    ensures Step(retention, Arranged(), Submit(0, COMMAND, 7)) == World(0, Prepared([]))
  {
    assert COMMAND.shifts.Keys == PLAN.workers;
  }

  lemma AskExample(retention: nat)
    ensures Step(retention, World(0, Prepared([])), Ask(1, 10, "", 0, 5)) == World(0, Prepared([NewRequest(5, 10, "", 0, 1, 0)]))
  {
    var job := Prepared([]);
    assert Customer == job.participants[2];
    assert LatestSubmission(job.submissions) == Some(0) by { assert job.submissions[..0] == []; }
  }

  lemma AfterFirstRequest(retention: nat)
    ensures After(retention, FirstRequest()) == World(0, Prepared([NewRequest(5, 10, "", 0, 1, 0)]))
  {
    hide Step, Prepared, Arranged;
    ArrangeExample(retention);
    SubmitExample(retention);
    AskExample(retention);
    var last := [Submit(0, COMMAND, 7), Ask(1, 10, "", 0, 5)];
    assert FirstRequest() == FirstRequest()[..6] + last;
    RunFrom(retention, Arranged(), last, [World(0, Prepared([])), World(0, Prepared([NewRequest(5, 10, "", 0, 1, 0)]))]);
    RunAppend(retention, INITIAL, FirstRequest()[..6], last);
  }

  /** A run is its chain of steps. */
  lemma {:induction false} RunFrom(retention: nat, w: World, actions: seq<Action>, states: seq<World>)
    requires |states| == |actions| > 0
    requires states[0] == Step(retention, w, actions[0])
    requires forall i :: 0 < i < |actions| ==> states[i] == Step(retention, states[i - 1], actions[i])
    ensures Run(retention, w, actions) == states[|states| - 1]
    decreases |actions|
  {
    if |actions| > 1 {
      RunFrom(retention, states[0], actions[1..], states[1..]);
    }
  }

  /** While the newest request counts as the revoked first one, a further request is accepted. */
  lemma AskAfterRevoked(retention: nat, requests: seq<Request>, reference: nat, id: nat)
    requires requests != [] && LatestRequest(requests) == Some(0) && requests[0].status == JobRecords.Revoked
    requires FreshRequest(Prepared(requests), id) && RequestWith(requests, reference) == None
    ensures Step(retention, World(0, Prepared(requests)), Ask(1, reference, "", 0, id))
            == World(0, Prepared(requests + [NewRequest(id, reference, "", 0, 1, 0)]))
  {
    var job := Prepared(requests);
    assert Customer == job.participants[2];
    assert LatestSubmission(job.submissions) == Some(0) by { assert job.submissions[..0] == []; }
  }

  const FIRST := NewRequest(5, 10, "", 0, 1, 0)
  const REVOKED := FIRST.(status := JobRecords.Revoked, revocation := Some(Revocation(0, "")))

  lemma RevokeFirst(retention: nat)
    ensures Step(retention, World(0, Prepared([FIRST])), CompletionWorld.Revoke(1, 0, "")) == World(0, Prepared([REVOKED]))
  {
  }

  lemma TwoMoreRequests(retention: nat, more: seq<Action>)
    requires more == [CompletionWorld.Revoke(1, 0, ""), Ask(1, 11, "", 0, 3), Ask(1, 12, "", 0, 4)]
    ensures Run(retention, World(0, Prepared([FIRST])), more)
            == World(0, Prepared([REVOKED, NewRequest(3, 11, "", 0, 1, 0), NewRequest(4, 12, "", 0, 1, 0)]))
  {
    var second, third := NewRequest(3, 11, "", 0, 1, 0), NewRequest(4, 12, "", 0, 1, 0);
    var w1, w2 := World(0, Prepared([REVOKED])), World(0, Prepared([REVOKED, second]));
    RevokeFirst(retention);
    LatestOfTwo(REVOKED, second);
    AskAfterRevoked(retention, [REVOKED], 11, 3);
    AskAfterRevoked(retention, [REVOKED, second], 12, 4);
    assert [REVOKED] + [second] == [REVOKED, second];
    assert [REVOKED, second] + [third] == [REVOKED, second, third];
    hide Step;
    RunFrom(retention, World(0, Prepared([FIRST])), more, [w1, w2, World(0, Prepared([REVOKED, second, third]))]);
  }

  /**
   Without the order of identifiers the rule fails: a request revoked and two more created within one tick of
   the clock, the later ones with smaller identifiers, leave two requests live at once.
   */
  lemma TieLeavesTwoLive(retention: nat) returns (actions: seq<Action>)
    ensures var w := After(retention, actions);
            |w.job.requests| == 3 && Live(w.job.requests[1], w.now) && Live(w.job.requests[2], w.now)
    ensures !Sequenced(retention, INITIAL, actions)
  {
    hide Sequenced, Step, FirstRequest;
    var more := [CompletionWorld.Revoke(1, 0, ""), Ask(1, 11, "", 0, 3), Ask(1, 12, "", 0, 4)];
    actions := FirstRequest() + more;
    AfterFirstRequest(retention);
    TwoMoreRequests(retention, more);
    RunAppend(retention, INITIAL, FirstRequest(), more);
    if Sequenced(retention, INITIAL, actions) {
      OneLiveRequest(retention, actions, 1, 2);
    }
  }

  lemma LatestOfTwo(first: Request, second: Request)
    requires first.requestedAt == second.requestedAt && second.id < first.id
    ensures LatestRequest([first, second]) == LatestRequest([first]) == Some(0)
  {
    assert [first, second][..1] == [first];
    assert [first][..0] == [];
    assert LatestRequest([first]) == Some(0);
  }

  lemma {:induction false} RunAppend(retention: nat, w: World, first: seq<Action>, second: seq<Action>)
    ensures Run(retention, w, first + second) == Run(retention, Run(retention, w, first), second)
    decreases |first|
  {
    if first == [] {
      assert first + second == second;
    } else {
      assert (first + second)[1..] == first[1..] + second;
      RunAppend(retention, Step(retention, w, first[0]), first[1..], second);
    }
  }
}
