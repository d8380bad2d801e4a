/** The price of the scope chain: what approved changes add up to. */
module ScopePrices {
  import opened Common
  import opened JobRecords
  import opened CompletionWorld

  /** The first agreed price along the chain. */
  function InitialPrice(scopes: seq<Scope>): Option<int>
    decreases |scopes|
  {
    if scopes == [] then None
    else if scopes[0].price.Some? then scopes[0].price
    else InitialPrice(scopes[1..])
  }

  /** The quoted adjustments of the approved changes, in the order of their issues. */
  function ApprovedAdjustments(issues: seq<Issue>): seq<int>
    decreases |issues|
  {
    if issues == [] then []
    else
      var last := issues[|issues| - 1];
      ApprovedAdjustments(issues[..|issues| - 1])
      + if last.proposal.Some? && last.proposal.value.status == Approved then last.proposal.value.adjustments else []
  }

  /** What the approved changes added, each to the price its quote started from. */
  function Added(issues: seq<Issue>): int
    decreases |issues|
  {
    if issues == [] then 0
    else
      var last := issues[|issues| - 1];
      Added(issues[..|issues| - 1])
      + if last.proposal.Some? && last.proposal.value.status == Approved
        then last.proposal.value.total - last.proposal.value.baseAmount else 0
  }

  /** Every adjustment counts once: adding up nothing is zero, one adjustment is itself, and lists add up. */
  lemma {:induction false} SumAdds(s: seq<int>, t: seq<int>)
    ensures Sum([]) == 0 && Sum(s + t) == Sum(s) + Sum(t) && forall x :: Sum([x]) == x
    decreases |t|
  {
    assert forall x: int :: [x][..0] == [];
    if t == [] {
      assert s + t == s;
    } else {
      var n := |t| - 1;
      assert (s + t)[..|s + t| - 1] == s + t[..n];
      SumAdds(s, t[..n]);
    }
  }

  /** A stored total is the price the quote started from plus its adjustments. */
  predicate TotalsQuoted(issues: seq<Issue>) {
    forall i :: 0 <= i < |issues| && issues[i].proposal.Some? ==>
      issues[i].proposal.value.total == issues[i].proposal.value.baseAmount + Sum(issues[i].proposal.value.adjustments)
  }

  lemma {:induction false} AddedIsQuoted(issues: seq<Issue>)
    requires TotalsQuoted(issues)
    ensures Added(issues) == Sum(ApprovedAdjustments(issues))
    decreases |issues|
  {
    if issues != [] {
      var front, last := issues[..|issues| - 1], issues[|issues| - 1];
      AddedIsQuoted(front);
      SumAdds(ApprovedAdjustments(front), if last.proposal.Some? then last.proposal.value.adjustments else []);
      assert ApprovedAdjustments(front) + [] == ApprovedAdjustments(front);
    }
  }

  predicate Telescopes(job: JobFile) {
    var n := |job.scopes|;
    n > 0 && job.scopes[n - 1].price.Some? ==>
      InitialPrice(job.scopes).Some?
      && job.scopes[n - 1].price.value == InitialPrice(job.scopes).value + Added(job.issues)
  }

  /** Every proposal is priced from its locked base scope. */
  predicate ProposalsPriced(job: JobFile) {
    forall i :: 0 <= i < |job.issues| && job.issues[i].proposal.Some? ==>
      var p := job.issues[i].proposal.value;
      p.base < |job.scopes| && job.scopes[p.base] == Scope(true, Some(p.baseAmount))
  }

  predicate PricesOk(job: JobFile) {
    Telescopes(job) && ProposalsPriced(job) && TotalsQuoted(job.issues)
  }

  lemma {:induction false} AddedUpdate(issues: seq<Issue>, i: nat, issue: Issue)
    requires i < |issues|
    ensures Added(issues[i := issue]) == Added(issues) - Added([issues[i]]) + Added([issue])
    decreases |issues|
  {
    var n := |issues| - 1;
    assert forall x: Issue :: [x][..0] == [];
    if i == n {
      assert issues[i := issue][..n] == issues[..n];
    } else {
      assert issues[i := issue][..n] == issues[..n][i := issue];
      AddedUpdate(issues[..n], i, issue);
    }
  }

  lemma {:induction false} AddedZero(issues: seq<Issue>)
    requires forall i :: 0 <= i < |issues| ==> issues[i].proposal.None?
    ensures Added(issues) == 0
    decreases |issues|
  {
    if issues != [] {
      AddedZero(issues[..|issues| - 1]);
    }
  }

  lemma {:induction false} InitialPriceAppend(scopes: seq<Scope>, scope: Scope)
    ensures InitialPrice(scopes + [scope]) == if InitialPrice(scopes).Some? then InitialPrice(scopes) else scope.price
    decreases |scopes|
  {
    if scopes != [] {
      assert (scopes + [scope])[1..] == scopes[1..] + [scope];
      InitialPriceAppend(scopes[1..], scope);
    } else {
      assert ([] + [scope])[1..] == [];
    }
  }

  lemma {:induction false} QuotedIff(scopes: seq<Scope>)
    ensures InitialPrice(scopes).Some? <==> exists scope :: scope in scopes && scope.price.Some?
    decreases |scopes|
  {
    if scopes != [] {
      assert scopes == [scopes[0]] + scopes[1..];
      QuotedIff(scopes[1..]);
    }
  }

  lemma ProposedMeansQuoted(job: JobFile)
    requires ProposalsPriced(job)
    ensures (exists i :: 0 <= i < |job.issues| && job.issues[i].proposal.Some?) ==> Quoted(job)
  {
    if i :| 0 <= i < |job.issues| && job.issues[i].proposal.Some? {
      assert job.scopes[job.issues[i].proposal.value.base] in job.scopes;
    }
  }

  lemma LockKeepsPrices(job: JobFile, price: Option<int>)
    requires PricesOk(job)
    ensures PricesOk(Lock(job, price))
  {
    var job' := Lock(job, price);
    if job' != job {
      var n := |job.scopes|;
      var front := job.scopes[..n - 1];
      assert job.scopes == front + [job.scopes[n - 1]];
      assert job'.scopes == front + [Scope(true, price)];
      InitialPriceAppend(front, job.scopes[n - 1]);
      InitialPriceAppend(front, Scope(true, price));
      if price.Some? {
        QuotedIff(job.scopes);
        ProposedMeansQuoted(job);
        AddedZero(job.issues);
      }
    }
  }

  lemma DecideKeepsPrices(job: JobFile, participant: ParticipantId, i: nat, approve: bool)
    requires PricesOk(job)
    ensures PricesOk(Outcome(job, DecideChange(job, participant, i, approve)))
  {
    var r := DecideChange(job, participant, i, approve);
    if r.Ok? {
      AddedUpdate(job.issues, i, r.value.issues[i]);
      assert forall x: Issue :: [x][..0] == [];
      if approve { InitialPriceAppend(job.scopes, Scope(true, Some(job.issues[i].proposal.value.total))); }
    }
  }

  lemma StatusKeepsPrices(job: JobFile, i: nat, status: ChangeStatus)
    requires PricesOk(job) && i < |job.issues| && job.issues[i].proposal.Some?
    requires job.issues[i].proposal.value.status != Approved && status != Approved
    ensures PricesOk(WithStatus(job, i, status))
  {
    AddedUpdate(job.issues, i, WithStatus(job, i, status).issues[i]);
    assert forall x: Issue :: [x][..0] == [];
  }

  lemma IssueKeepsPrices(job: JobFile, action: Action)
    requires PricesOk(job) && (action.Report? || action.ProposeChange?)
    ensures PricesOk(Apply(0, World(0, job), action))
  {
    var job' := Apply(0, World(0, job), action);
    if job' != job {
      if action.Report? {
        assert job'.issues[..|job.issues|] == job.issues;
      } else {
        AddedUpdate(job.issues, action.issue, job'.issues[action.issue]);
        assert forall x: Issue :: [x][..0] == [];
      }
    }
  }

  lemma DraftKeepsPrices(job: JobFile, approve: bool)
    requires PricesOk(job)
    ensures PricesOk(Draft(job)) && PricesOk(CloseLoose(job, approve))
  {
  }

  lemma StepKeepsPrices(retention: nat, w: World, action: Action)
    requires PricesOk(w.job)
    ensures PricesOk(Step(retention, w, action).job)
  {
    hide PricesOk, WithStatus, Draft, CloseLoose;
    match action {
      case LockScope(price) => LockKeepsPrices(w.job, price);
      case DraftScope => DraftKeepsPrices(w.job, false);
      case CloseLooseChange(approve) => DraftKeepsPrices(w.job, approve);
      case Report(_, _) => IssueKeepsPrices(w.job, action);
      case ProposeChange(_, _, _, _) => IssueKeepsPrices(w.job, action);
      case JudgeChange(p, i, approve) => DecideKeepsPrices(w.job, p, i, approve);
      case AskToClarify(i) => if Clarify(w.job, i).Ok? { StatusKeepsPrices(w.job, i, Clarifying); }
      case ExplainChange(i) => if Explain(w.job, i).Ok? { StatusKeepsPrices(w.job, i, UnderReview); }
      case _ =>
        SameChain(retention, w, action);
        SamePrices(w.job, Apply(retention, w, action));
    }
  }

  lemma SamePrices(job: JobFile, job': JobFile)
    requires PricesOk(job) && job'.scopes == job.scopes && job'.issues == job.issues
    ensures PricesOk(job')
  {
  }

  lemma SameChain(retention: nat, w: World, action: Action)
    requires !action.LockScope? && !action.DraftScope? && !action.CloseLooseChange? && !action.Report?
    requires !action.ProposeChange? && !action.JudgeChange? && !action.AskToClarify? && !action.ExplainChange?
    ensures Apply(retention, w, action).scopes == w.job.scopes && Apply(retention, w, action).issues == w.job.issues
  {
    hide LatestRequest, LatestSubmission, IsCurrentScope, EnsureConfirmation, IssuesResolved, RequestWith, SubmissionWith;
  }

  lemma {:induction false} RunKeepsPrices(retention: nat, w: World, actions: seq<Action>)
    requires PricesOk(w.job)
    ensures PricesOk(Run(retention, w, actions).job)
    decreases |actions|
  {
    if actions != [] {
      StepKeepsPrices(retention, w, actions[0]);
      hide PricesOk;
      RunKeepsPrices(retention, Step(retention, w, actions[0]), actions[1..]);
    }
  }

  /**
   Price telescoping: whenever the current scope has a price, it is the first agreed price plus the quoted adjustments of
   all approved changes, each counted once, whatever was rejected, is still under review, or went stale because
   another change was approved first.
   */
  lemma PriceTelescopes(retention: nat, actions: seq<Action>)
    requires var scopes := After(retention, actions).job.scopes; scopes != [] && scopes[|scopes| - 1].price.Some?
    ensures var job := After(retention, actions).job;
            && InitialPrice(job.scopes).Some?
            && job.scopes[|job.scopes| - 1].price.value
               == InitialPrice(job.scopes).value + Sum(ApprovedAdjustments(job.issues))
  {
    RunKeepsPrices(retention, INITIAL, actions);
    AddedIsQuoted(After(retention, actions).job.issues);
  }

  /** What a stored quote asks for: its base price, for one adjustment that much more, and lists of adjustments add up. */
  lemma QuotesAddUp(retention: nat, w: World, p: ParticipantId, i: nat, baseAmount: int, s: seq<int>, t: seq<int>)
    requires Step(retention, w, ProposeChange(p, i, baseAmount, s)) != w
    ensures var total := (adjustments: seq<int>) => TotalOf(Step(retention, w, ProposeChange(p, i, baseAmount, adjustments)).job, i);
            && total([]) == baseAmount
            && (forall x :: total([x]) == baseAmount + x)
            && total(s + t) - baseAmount == (total(s) - baseAmount) + (total(t) - baseAmount)
  {
    SumAdds(s, t);
    hide IsCurrentScope, OpenForChanges, Sum;
  }

  /** The total of an issue's quote. */
  function TotalOf(job: JobFile, i: nat): int {
    if i < |job.issues| && job.issues[i].proposal.Some? then job.issues[i].proposal.value.total else 0
  }
}
