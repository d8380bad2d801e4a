/** The dispatch of one job under any sequence of commands: one setup, one plan, and the checks a manager sees. */
module DispatchRuns {
  import opened Common
  import opened DispatchChecks
  import opened DispatchStaffing

  /** `stale` says that the setup's scope was superseded, or the job closed, after the setup was stored. */
  datatype Desk = Desk(fieldWorker: Option<nat>, setup: Option<Setup>, plan: Option<Selection>, stale: bool)

  const INITIAL := Desk(None, None, None, false)

  datatype Action =
    | Invite(fieldWorker: nat)
    | StoreSetup(setup: Setup)
    | Supersede
    | ConfirmPlan(selection: Selection)

  /** Each job gets one field worker, one setup and one plan; a refused command changes nothing. */
  ghost function Step(d: Desk, action: Action): Desk {
    match action
    case Invite(fieldWorker) => if d.fieldWorker.Some? then d else d.(fieldWorker := Some(fieldWorker))
    case StoreSetup(setup) =>
      if d.setup.Some? || d.fieldWorker.None? || !Storable(setup, d.fieldWorker.value)
         || !DistinctVehicles(setup.vehicles) then d
      else d.(setup := Some(setup))
    case Supersede => if d.setup.Some? then d.(stale := true) else d
    case ConfirmPlan(selection) =>
      if d.stale || d.plan.Some? || d.setup.None? || d.fieldWorker.None?
         || !Acceptable(d.setup.value, selection, d.fieldWorker.value) then d
      else d.(plan := Some(selection))
  }

  ghost function Run(d: Desk, actions: seq<Action>): Desk
    decreases |actions|
  {
    if actions == [] then d else Run(Step(d, actions[0]), actions[1..])
  }

  ghost function After(actions: seq<Action>): Desk {
    Run(INITIAL, actions)
  }

  /** The checks a manager sees. */
  function Shown(d: Desk): Option<Checks> {
    if d.setup.None? then None
    else if d.plan.None? then Some(ChecksBefore(d.setup.value))
    else Some(ChecksOf(d.setup.value, d.plan.value))
  }

  ghost predicate Sound(d: Desk) {
    && (d.setup.Some? ==>
          d.fieldWorker.Some? && Storable(d.setup.value, d.fieldWorker.value) && DistinctVehicles(d.setup.value.vehicles))
    && (d.plan.Some? ==> d.setup.Some? && d.fieldWorker.Some? && Acceptable(d.setup.value, d.plan.value, d.fieldWorker.value))
  }

  /** The options of a setup: one that is the field worker's, at least as many as are required, each its own. */
  ghost predicate Offers(setup: Setup, fieldWorker: nat) {
    && setup.requiredWorkers >= 1 && |setup.workers| >= setup.requiredWorkers
    && (forall i, j :: 0 <= i < j < |setup.workers| ==> setup.workers[i].id != setup.workers[j].id)
    && (forall i, j :: 0 <= i < j < |setup.vehicles| ==> setup.vehicles[i].id != setup.vehicles[j].id)
    && (exists k :: 0 <= k < |setup.workers| && OnlyMapped(setup.workers, k, fieldWorker))
  }

  /** The k-th option, and no other one, belongs to a participant: the field worker. */
  predicate OnlyMapped(workers: seq<Worker>, k: nat, fieldWorker: nat)
    requires k < |workers|
  {
    workers[k].participant == Some(fieldWorker) && forall i :: 0 <= i < |workers| && i != k ==> workers[i].participant.None?
  }

  lemma {:induction false} NobodyMapped(workers: seq<Worker>)
    ensures MappedParticipants(workers) == [] <==> forall i :: 0 <= i < |workers| ==> workers[i].participant.None?
    decreases |workers|
  {
    if workers != [] {
      NobodyMapped(workers[1..]);
      assert forall i :: 0 < i < |workers| ==> workers[1..][i - 1] == workers[i];
    }
  }

  lemma {:induction false} OnlyMappedIff(workers: seq<Worker>, fieldWorker: nat)
    ensures MappedParticipants(workers) == [fieldWorker] <==>
              exists k :: 0 <= k < |workers| && OnlyMapped(workers, k, fieldWorker)
    decreases |workers|
  {
    if workers != [] {
      var rest := workers[1..];
      OnlyMappedIff(rest, fieldWorker);
      NobodyMapped(rest);
      assert forall i :: 0 < i < |workers| ==> rest[i - 1] == workers[i];
      if workers[0].participant.Some? {
        var p, tail := workers[0].participant.value, MappedParticipants(rest);
        assert [p] + tail == [fieldWorker] <==> |[p] + tail| == 1 && ([p] + tail)[0] == fieldWorker;
        if k :| 0 <= k < |workers| && OnlyMapped(workers, k, fieldWorker) {
          assert k == 0;
          assert forall i :: 0 <= i < |rest| ==> rest[i] == workers[i + 1];
        }
        if tail == [] && workers[0].participant.value == fieldWorker { assert OnlyMapped(workers, 0, fieldWorker); }
      } else {
        if k :| 0 <= k < |rest| && OnlyMapped(rest, k, fieldWorker) { assert OnlyMapped(workers, k + 1, fieldWorker); }
        if k :| 0 <= k < |workers| && OnlyMapped(workers, k, fieldWorker) { assert OnlyMapped(rest, k - 1, fieldWorker); }
      }
    }
  }

  /** One field worker, one setup that offers enough, and one acceptable plan for it while its scope is current. */
  lemma CommandsTakeEffectIff(d: Desk, fieldWorker: nat, setup: Setup, selection: Selection)
    ensures Step(d, Invite(fieldWorker)) == if d.fieldWorker.None? then d.(fieldWorker := Some(fieldWorker)) else d
    ensures Step(d, StoreSetup(setup)) ==
            if d.setup.None? && d.fieldWorker.Some? && Offers(setup, d.fieldWorker.value) then d.(setup := Some(setup)) else d
    ensures Step(d, Supersede) == if d.setup.Some? then d.(stale := true) else d
    ensures Step(d, ConfirmPlan(selection)) ==
            if !d.stale && d.plan.None? && d.setup.Some? && d.fieldWorker.Some?
               && Acceptable(d.setup.value, selection, d.fieldWorker.value)
            then d.(plan := Some(selection)) else d
  {
    if d.fieldWorker.Some? { OnlyMappedIff(setup.workers, d.fieldWorker.value); }
    hide Acceptable, MappedParticipants, OnlyMapped;
  }

  /** What was stored stays as it is. */
  predicate Keeps(d: Desk, d': Desk) {
    && (d.fieldWorker.Some? ==> d'.fieldWorker == d.fieldWorker)
    && (d.setup.Some? ==> d'.setup == d.setup)
    && (d.plan.Some? ==> d'.plan == d.plan)
    && (d.stale ==> d'.stale && d'.plan == d.plan)
  }

  lemma {:induction false} RunKeeps(d: Desk, actions: seq<Action>)
    requires Sound(d)
    ensures Sound(Run(d, actions)) && Keeps(d, Run(d, actions))
    decreases |actions|
  {
    hide Storable, DistinctVehicles, Acceptable;
    if actions != [] {
      RunKeeps(Step(d, actions[0]), actions[1..]);
    }
  }

  /** From its confirmation on a plan shows all checks passing, over every further run. */
  lemma ConfirmedPlanAlwaysPasses(actions: seq<Action>, more: seq<Action>)
    requires After(actions).plan.Some?
    ensures var d := Run(After(actions), more);
            && d.plan == After(actions).plan && d.setup == After(actions).setup
            && Shown(d).Some? && AllPass(Shown(d).value)
  {
    hide ChecksOf, ChecksBefore, Validated, Storable, DistinctVehicles;
    RunKeeps(INITIAL, actions);
    RunKeeps(After(actions), more);
    var d := Run(After(actions), more);
    ConfirmedPlanPassesIff(d.setup.value, d.plan.value, d.fieldWorker.value);
  }

  ghost predicate CanGetPlan(d: Desk) {
    exists more: seq<Action> :: Run(d, more).plan.Some?
  }

  /**
   A stored setup can still get a plan exactly when its scope is still current and it can be staffed: a
   manager who sees a failing check will never get one, and passing checks promise one only under that condition.
   */
  lemma PlanReachableIff(actions: seq<Action>)
    requires var d := After(actions); d.setup.Some? && d.plan.None?
    ensures var d := After(actions);
            && d.fieldWorker.Some?
            && (CanGetPlan(d) <==> !d.stale && CanBeConfirmed(d.setup.value, d.fieldWorker.value))
            && (CanGetPlan(d) ==> Shown(d).Some? && AllPass(Shown(d).value))
  {
    hide ChecksOf, ChecksBefore, Validated, Storable, DistinctVehicles, Acceptable, CanBeConfirmed;
    RunKeeps(INITIAL, actions);
    var d := After(actions);
    var setup, fieldWorker := d.setup.value, d.fieldWorker.value;
    SelectionExistsIff(setup, fieldWorker);
    if CanGetPlan(d) {
      var more: seq<Action> :| Run(d, more).plan.Some?;
      RunKeeps(d, more);
      assert Acceptable(setup, Run(d, more).plan.value, fieldWorker);
    }
    if !d.stale && HasSelection(setup, fieldWorker) {
      var selection :| Acceptable(setup, selection, fieldWorker);
      assert Run(Step(d, ConfirmPlan(selection)), []).plan.Some?;
      assert Run(d, [ConfirmPlan(selection)]).plan.Some?;
    }
  }
}
