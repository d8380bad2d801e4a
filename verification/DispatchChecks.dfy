/** The resource checks shown to a manager, and the validation of the selection a manager confirms. */
module DispatchChecks {
  import opened Common

  type OptionId = nat

  datatype Vehicle = Vehicle(id: OptionId, available: bool, capacity: nat)

  datatype Worker = Worker(id: OptionId, available: bool, participant: Option<nat>, skills: set<string>, certifications: set<string>)

  /** The manager's snapshot; its options get distinct identifiers when it is stored. */
  datatype Setup = Setup(
    vehicles: seq<Vehicle>, workers: seq<Worker>, requiredCapacity: nat, requiredWorkers: nat,
    requiredSkills: set<string>, requiredCertifications: set<string>)

  datatype Selection = Selection(vehicle: OptionId, workers: seq<OptionId>)

  datatype Checks = Checks(vehicle: bool, workers: bool, skills: bool, certifications: bool)

  predicate AllPass(c: Checks) {
    c.vehicle && c.workers && c.skills && c.certifications
  }

  function FindVehicle(vehicles: seq<Vehicle>, id: OptionId): (found: Option<Vehicle>)
    ensures found.Some? ==> found.value in vehicles && found.value.id == id
    ensures found.None? ==> forall v :: v in vehicles ==> v.id != id
    decreases |vehicles|
  {
    if vehicles == [] then None
    else if vehicles[0].id == id then Some(vehicles[0])
    else FindVehicle(vehicles[1..], id)
  }

  function FindWorker(workers: seq<Worker>, id: OptionId): (found: Option<Worker>)
    ensures found.Some? ==> found.value in workers && found.value.id == id
    ensures found.None? ==> forall w :: w in workers ==> w.id != id
    decreases |workers|
  {
    if workers == [] then None
    else if workers[0].id == id then Some(workers[0])
    else FindWorker(workers[1..], id)
  }

  /** The chosen workers that exist, in the order of the selection. */
  function Chosen(workers: seq<Worker>, ids: seq<OptionId>): seq<Worker>
    decreases |ids|
  {
    if ids == [] then []
    else
      var found := FindWorker(workers, ids[0]);
      (if found.Some? then [found.value] else []) + Chosen(workers, ids[1..])
  }

  function Eligible(workers: seq<Worker>): seq<Worker>
    decreases |workers|
  {
    if workers == [] then []
    else (if workers[0].available then [workers[0]] else []) + Eligible(workers[1..])
  }

  function SkillsOf(workers: seq<Worker>): set<string> {
    set w, skill | w in workers && skill in w.skills :: skill
  }

  function CertificationsOf(workers: seq<Worker>): set<string> {
    set w, value | w in workers && value in w.certifications :: value
  }

  predicate Fits(setup: Setup, v: Vehicle) {
    v.available && v.capacity >= setup.requiredCapacity
  }

  /** Before an assignment: is there anything to choose from. */
  function ChecksBefore(setup: Setup): Checks {
    var eligible := Eligible(setup.workers);
    Checks(exists v :: v in setup.vehicles && Fits(setup, v),
           |eligible| >= setup.requiredWorkers,
           setup.requiredSkills <= SkillsOf(eligible),
           setup.requiredCertifications <= CertificationsOf(eligible))
  }

  /** After an assignment: what was chosen. */
  function ChecksOf(setup: Setup, plan: Selection): Checks {
    var vehicle := FindVehicle(setup.vehicles, plan.vehicle);
    var chosen := Chosen(setup.workers, plan.workers);
    Checks(vehicle.Some? && Fits(setup, vehicle.value),
           |chosen| == setup.requiredWorkers && forall w :: w in chosen ==> w.available,
           setup.requiredSkills <= SkillsOf(chosen),
           setup.requiredCertifications <= CertificationsOf(chosen))
  }

  function MappedTo(workers: seq<Worker>, participant: nat): nat
    decreases |workers|
  {
    if workers == [] then 0
    else (if workers[0].participant == Some(participant) then 1 else 0) + MappedTo(workers[1..], participant)
  }

  /** What confirmation requires of a selection. */
  predicate Validated(setup: Setup, selection: Selection, fieldWorker: nat) {
    var vehicle := FindVehicle(setup.vehicles, selection.vehicle);
    && vehicle.Some? && Fits(setup, vehicle.value)
    && |selection.workers| == setup.requiredWorkers
    && (forall i :: 0 <= i < |selection.workers| ==>
          FindWorker(setup.workers, selection.workers[i]).Some?
          && FindWorker(setup.workers, selection.workers[i]).value.available)
    && MappedTo(Chosen(setup.workers, selection.workers), fieldWorker) == 1
    && setup.requiredSkills <= SkillsOf(Chosen(setup.workers, selection.workers))
    && setup.requiredCertifications <= CertificationsOf(Chosen(setup.workers, selection.workers))
  }

  /** A selection names no worker twice. */
  ghost predicate NoRepeats<T(!new)>(ids: seq<T>) {
    forall i, j :: 0 <= i < j < |ids| ==> ids[i] != ids[j]
  }

  // ------------------------------------------------------------------ proofs

  lemma {:induction false} EligibleContents(workers: seq<Worker>)
    ensures forall w :: w in Eligible(workers) <==> w in workers && w.available
    decreases |workers|
  {
    if workers != [] {
      assert workers == [workers[0]] + workers[1..];
      EligibleContents(workers[1..]);
    }
  }

  lemma {:induction false} ChosenContents(workers: seq<Worker>, ids: seq<OptionId>)
    requires forall i :: 0 <= i < |ids| ==> FindWorker(workers, ids[i]).Some?
    ensures |Chosen(workers, ids)| == |ids|
    ensures forall i :: 0 <= i < |ids| ==> Chosen(workers, ids)[i] == FindWorker(workers, ids[i]).value
    decreases |ids|
  {
    if ids != [] {
      ChosenContents(workers, ids[1..]);
    }
  }

  function Ids(workers: seq<Worker>): set<OptionId> {
    set w | w in workers :: w.id
  }

  lemma {:induction false} IdsAtMost(workers: seq<Worker>)
    ensures |Ids(workers)| <= |workers|
    decreases |workers|
  {
    if workers == [] {
      assert Ids(workers) == {};
    } else {
      IdsAtMost(workers[1..]);
      assert Ids(workers) == {workers[0].id} + Ids(workers[1..]);
    }
  }

  function Elements<T>(ids: seq<T>): set<T> {
    set id | id in ids
  }

  lemma {:induction false} DistinctCount<T(!new)>(ids: seq<T>)
    requires NoRepeats(ids)
    ensures |Elements(ids)| == |ids|
    decreases |ids|
  {
    if ids == [] {
      assert Elements(ids) == {};
    } else {
      DistinctCount(ids[1..]);
      assert Elements(ids) == {ids[0]} + Elements(ids[1..]);
    }
  }

  lemma SmallerSet<T(!new)>(a: set<T>, b: set<T>)
    requires a <= b
    ensures |a| <= |b|
  {
    assert b == a + (b - a);
  }

  /** As many distinct available workers as are chosen. */
  lemma EnoughEligible(setup: Setup, ids: seq<OptionId>)
    requires NoRepeats(ids)
    requires forall i :: 0 <= i < |ids| ==>
               FindWorker(setup.workers, ids[i]).Some? && FindWorker(setup.workers, ids[i]).value.available
    ensures |ids| <= |Eligible(setup.workers)|
  {
    EligibleContents(setup.workers);
    var eligible := Eligible(setup.workers);
    forall id | id in Elements(ids) ensures id in Ids(eligible) {
      var i :| 0 <= i < |ids| && ids[i] == id;
      assert FindWorker(setup.workers, ids[i]).value in eligible;
    }
    DistinctCount(ids);
    SmallerSet(Elements(ids), Ids(eligible));
    IdsAtMost(eligible);
  }

  /** An accepted selection shows that every check passed before it: if any of them fails, every selection is rejected. */
  lemma AcceptedSelectionNeedsAllChecks(setup: Setup, selection: Selection, fieldWorker: nat)
    requires NoRepeats(selection.workers) && Validated(setup, selection, fieldWorker)
    ensures AllPass(ChecksBefore(setup))
  {
    var chosen := Chosen(setup.workers, selection.workers);
    EnoughEligible(setup, selection.workers);
    ChosenContents(setup.workers, selection.workers);
    EligibleContents(setup.workers);
    assert forall w :: w in chosen ==> w in Eligible(setup.workers);
    assert SkillsOf(chosen) <= SkillsOf(Eligible(setup.workers));
    assert CertificationsOf(chosen) <= CertificationsOf(Eligible(setup.workers));
  }

  /**
   A selection is accepted exactly when the checks of its assignment would pass, it names only stored
   options, and the field worker is one of the chosen. The last two are what the checks do not show.
   */
  lemma ConfirmedPlanPassesIff(setup: Setup, selection: Selection, fieldWorker: nat)
    ensures Validated(setup, selection, fieldWorker) <==>
              && AllPass(ChecksOf(setup, selection))
              && (forall i :: 0 <= i < |selection.workers| ==> FindWorker(setup.workers, selection.workers[i]).Some?)
              && MappedTo(Chosen(setup.workers, selection.workers), fieldWorker) == 1
  {
    if forall i :: 0 <= i < |selection.workers| ==> FindWorker(setup.workers, selection.workers[i]).Some? {
      ChosenContents(setup.workers, selection.workers);
      var chosen := Chosen(setup.workers, selection.workers);
      assert (forall w :: w in chosen ==> w.available)
        <==> (forall i :: 0 <= i < |selection.workers| ==> FindWorker(setup.workers, selection.workers[i]).value.available) by {
        assert forall i :: 0 <= i < |chosen| ==> chosen[i] in chosen;
      }
    }
  }
}
