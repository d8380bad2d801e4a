/**
 When a setup has a selection that confirmation would accept. The checks before an
 assignment pool the skills of everyone available and do not look for the field
 worker, so they can all pass although no selection is accepted.
 */
module DispatchStaffing {
  import opened Common
  import opened DispatchChecks

  // -------------------------------------------------------------- the setup

  /** The participants the worker options are mapped to. */
  function MappedParticipants(workers: seq<Worker>): seq<nat>
    decreases |workers|
  {
    if workers == [] then []
    else
      (if workers[0].participant.Some? then [workers[0].participant.value] else []) + MappedParticipants(workers[1..])
  }

  ghost predicate DistinctIds(workers: seq<Worker>) {
    forall i, j :: 0 <= i < j < |workers| ==> workers[i].id != workers[j].id
  }

  /** What storing a setup makes sure of: own identifiers, exactly the field worker mapped, a satisfiable number. */
  ghost predicate Storable(setup: Setup, fieldWorker: nat) {
    && DistinctIds(setup.workers)
    && MappedParticipants(setup.workers) == [fieldWorker]
    && 1 <= setup.requiredWorkers <= |setup.workers|
  }

  predicate IsMapped(w: Worker, fieldWorker: nat) {
    w.participant == Some(fieldWorker)
  }

  lemma {:induction false} MappedIn(workers: seq<Worker>)
    ensures forall w :: w in workers && w.participant.Some? ==> w.participant.value in MappedParticipants(workers)
    ensures forall p :: p in MappedParticipants(workers) ==> exists w :: w in workers && IsMapped(w, p)
    decreases |workers|
  {
    if workers != [] {
      MappedIn(workers[1..]);
      assert workers == [workers[0]] + workers[1..];
      forall p | p in MappedParticipants(workers[1..]) ensures exists w :: w in workers && IsMapped(w, p) {
        var w :| w in workers[1..] && IsMapped(w, p);
        assert w in workers;
      }
      if workers[0].participant.Some? { assert IsMapped(workers[0], workers[0].participant.value); }
    }
  }

  /** The option of the field worker. */
  lemma {:induction false} OneMapped(workers: seq<Worker>, fieldWorker: nat) returns (mapped: Worker)
    requires MappedParticipants(workers) == [fieldWorker]
    ensures mapped in workers && IsMapped(mapped, fieldWorker)
    ensures forall w :: w in workers && IsMapped(w, fieldWorker) ==> w == mapped
    decreases |workers|
  {
    assert workers == [workers[0]] + workers[1..];
    MappedIn(workers[1..]);
    if workers[0].participant.Some? {
      mapped := workers[0];
      var rest := MappedParticipants(workers[1..]);
      assert ([workers[0].participant.value] + rest)[0] == fieldWorker && |rest| == 0;
    } else {
      mapped := OneMapped(workers[1..], fieldWorker);
    }
  }

  // ------------------------------------------------- selections are staffs

  function SkillsAmong(staff: set<Worker>): set<string> {
    set w, skill | w in staff && skill in w.skills :: skill
  }

  function CertificationsAmong(staff: set<Worker>): set<string> {
    set w, value | w in staff && value in w.certifications :: value
  }

  /** The given options can be sent: so many, all available, covering everything, the field worker with them if needed. */
  ghost predicate Staffs(workers: seq<Worker>, number: nat, fieldWorker: nat, needed: bool, skills: set<string>,
                         certifications: set<string>, staff: set<Worker>)
  {
    && (forall w :: w in staff ==> w in workers && w.available)
    && |staff| == number
    && (needed ==> exists w :: w in staff && IsMapped(w, fieldWorker))
    && skills <= SkillsAmong(staff)
    && certifications <= CertificationsAmong(staff)
  }

  ghost predicate StaffsSetup(setup: Setup, fieldWorker: nat, staff: set<Worker>) {
    Staffs(setup.workers, setup.requiredWorkers, fieldWorker, true, setup.requiredSkills, setup.requiredCertifications, staff)
  }

  ghost predicate Acceptable(setup: Setup, selection: Selection, fieldWorker: nat) {
    NoRepeats(selection.workers) && Validated(setup, selection, fieldWorker)
  }

  ghost predicate HasSelection(setup: Setup, fieldWorker: nat) {
    exists selection :: Acceptable(setup, selection, fieldWorker)
  }

  lemma {:induction false} MappedSome(workers: seq<Worker>, fieldWorker: nat)
    ensures MappedTo(workers, fieldWorker) > 0 <==> exists w :: w in workers && IsMapped(w, fieldWorker)
    decreases |workers|
  {
    if workers != [] {
      MappedSome(workers[1..], fieldWorker);
      assert workers == [workers[0]] + workers[1..];
      assert forall w :: w in workers <==> w == workers[0] || w in workers[1..];
      if IsMapped(workers[0], fieldWorker) { assert workers[0] in workers; }
    }
  }

  lemma {:induction false} MappedOnce(workers: seq<Worker>, fieldWorker: nat, mapped: Worker)
    requires NoRepeats(workers) && forall w :: w in workers && IsMapped(w, fieldWorker) ==> w == mapped
    ensures MappedTo(workers, fieldWorker) <= 1
    decreases |workers|
  {
    if workers != [] {
      assert workers == [workers[0]] + workers[1..];
      MappedOnce(workers[1..], fieldWorker, mapped);
      if IsMapped(workers[0], fieldWorker) {
        MappedSome(workers[1..], fieldWorker);
        assert forall i :: 0 <= i < |workers[1..]| ==> workers[1..][i] == workers[i + 1];
      }
    }
  }

  lemma StaffOfSelection(setup: Setup, selection: Selection, fieldWorker: nat)
    requires Acceptable(setup, selection, fieldWorker)
    ensures StaffsSetup(setup, fieldWorker, Elements(Chosen(setup.workers, selection.workers)))
  {
    var chosen := Chosen(setup.workers, selection.workers);
    ChosenContents(setup.workers, selection.workers);
    assert NoRepeats(chosen);
    DistinctCount(chosen);
    MappedSome(chosen, fieldWorker);
    assert SkillsAmong(Elements(chosen)) == SkillsOf(chosen);
    assert CertificationsAmong(Elements(chosen)) == CertificationsOf(chosen);
  }

  lemma {:induction false} Listed<T(!new)>(staff: set<T>) returns (list: seq<T>)
    ensures NoRepeats(list) && Elements(list) == staff && |list| == |staff|
    decreases |staff|
  {
    if staff == {} {
      list := [];
    } else {
      var w :| w in staff;
      var rest := Listed(staff - {w});
      assert w !in Elements(rest);
      list := [w] + rest;
      assert Elements(list) == {w} + Elements(rest);
    }
  }

  lemma {:induction false} FoundById(workers: seq<Worker>, w: Worker)
    requires DistinctIds(workers) && w in workers
    ensures FindWorker(workers, w.id) == Some(w)
    decreases |workers|
  {
    if workers[0] != w {
      var k :| 0 <= k < |workers| && workers[k] == w;
      assert workers[0].id != workers[k].id && workers[1..][k - 1] == w;
      FoundById(workers[1..], w);
    }
  }

  lemma ChosenById(workers: seq<Worker>, list: seq<Worker>, ids: seq<OptionId>)
    requires DistinctIds(workers) && NoRepeats(list) && forall w :: w in list ==> w in workers
    requires |ids| == |list| && forall i :: 0 <= i < |list| ==> ids[i] == list[i].id
    ensures NoRepeats(ids) && Chosen(workers, ids) == list
    ensures forall i :: 0 <= i < |ids| ==> FindWorker(workers, ids[i]) == Some(list[i])
  {
    forall i | 0 <= i < |list| ensures FindWorker(workers, ids[i]) == Some(list[i]) {
      assert list[i] in list;
      FoundById(workers, list[i]);
    }
    ChosenContents(workers, ids);
  }

  lemma OneFieldWorker(setup: Setup, fieldWorker: nat, list: seq<Worker>)
    requires Storable(setup, fieldWorker) && NoRepeats(list) && forall w :: w in list ==> w in setup.workers
    requires exists w :: w in list && IsMapped(w, fieldWorker)
    ensures MappedTo(list, fieldWorker) == 1
  {
    var mapped := OneMapped(setup.workers, fieldWorker);
    MappedOnce(list, fieldWorker, mapped);
    MappedSome(list, fieldWorker);
  }

  /** The options of a staff as a list. */
  lemma StaffList(staff: set<Worker>) returns (list: seq<Worker>)
    ensures NoRepeats(list) && |list| == |staff| && forall w :: w in list <==> w in staff
    ensures SkillsOf(list) == SkillsAmong(staff) && CertificationsOf(list) == CertificationsAmong(staff)
  {
    list := Listed(staff);
    assert forall w :: w in list <==> w in Elements(list);
  }

  lemma ListAccepted(setup: Setup, fieldWorker: nat, list: seq<Worker>, selection: Selection)
    requires Storable(setup, fieldWorker) && NoRepeats(list) && |list| == setup.requiredWorkers
    requires forall w :: w in list ==> w in setup.workers && w.available
    requires exists w :: w in list && IsMapped(w, fieldWorker)
    requires setup.requiredSkills <= SkillsOf(list) && setup.requiredCertifications <= CertificationsOf(list)
    requires |selection.workers| == |list| && forall i :: 0 <= i < |list| ==> selection.workers[i] == list[i].id
    requires FindVehicle(setup.vehicles, selection.vehicle).Some? && Fits(setup, FindVehicle(setup.vehicles, selection.vehicle).value)
    ensures Acceptable(setup, selection, fieldWorker)
  {
    hide Chosen, FindVehicle, FindWorker, SkillsOf, CertificationsOf, Fits, IsMapped, MappedTo;
    ChosenById(setup.workers, list, selection.workers);
    OneFieldWorker(setup, fieldWorker, list);
  }

  lemma SelectionOfStaff(setup: Setup, fieldWorker: nat, staff: set<Worker>, vehicle: Vehicle) returns (selection: Selection)
    requires Storable(setup, fieldWorker) && StaffsSetup(setup, fieldWorker, staff)
    requires FindVehicle(setup.vehicles, vehicle.id) == Some(vehicle) && Fits(setup, vehicle)
    ensures Acceptable(setup, selection, fieldWorker)
  {
    hide FindVehicle, SkillsOf, CertificationsOf, SkillsAmong, CertificationsAmong, Acceptable, IsMapped, Fits;
    var list := StaffList(staff);
    hide NoRepeats;
    selection := Selection(vehicle.id, seq(|list|, i requires 0 <= i < |list| => list[i].id));
    ListAccepted(setup, fieldWorker, list, selection);
  }

  ghost predicate DistinctVehicles(vehicles: seq<Vehicle>) {
    forall i, j :: 0 <= i < j < |vehicles| ==> vehicles[i].id != vehicles[j].id
  }

  lemma {:induction false} VehicleById(vehicles: seq<Vehicle>, v: Vehicle)
    requires DistinctVehicles(vehicles) && v in vehicles
    ensures FindVehicle(vehicles, v.id) == Some(v)
    decreases |vehicles|
  {
    if vehicles[0] != v {
      var k :| 0 <= k < |vehicles| && vehicles[k] == v;
      assert vehicles[0].id != vehicles[k].id && vehicles[1..][k - 1] == v;
      VehicleById(vehicles[1..], v);
    }
  }

  /** An acceptable selection is a fitting vehicle and a set of options that can be sent. */
  lemma SelectionIffStaff(setup: Setup, fieldWorker: nat)
    requires Storable(setup, fieldWorker) && DistinctVehicles(setup.vehicles)
    ensures HasSelection(setup, fieldWorker) <==>
              ChecksBefore(setup).vehicle && exists staff :: StaffsSetup(setup, fieldWorker, staff)
  {
    if HasSelection(setup, fieldWorker) {
      var selection :| Acceptable(setup, selection, fieldWorker);
      AcceptedSelectionNeedsAllChecks(setup, selection, fieldWorker);
      StaffOfSelection(setup, selection, fieldWorker);
    }
    if ChecksBefore(setup).vehicle && exists staff :: StaffsSetup(setup, fieldWorker, staff) {
      var staff :| StaffsSetup(setup, fieldWorker, staff);
      var v :| v in setup.vehicles && Fits(setup, v);
      VehicleById(setup.vehicles, v);
      var selection := SelectionOfStaff(setup, fieldWorker, staff, v);
    }
  }

  // --------------------------------------------------- the exact condition

  /** Can the requirements be met: try every option with and without. */
  predicate CanStaff(workers: seq<Worker>, number: nat, fieldWorker: nat, needed: bool, skills: set<string>,
                     certifications: set<string>)
    decreases |workers|
  {
    if workers == [] then number == 0 && !needed && skills == {} && certifications == {}
    else
      var w := workers[0];
      || CanStaff(workers[1..], number, fieldWorker, needed, skills, certifications)
      || (w.available && number > 0
          && CanStaff(workers[1..], number - 1, fieldWorker, needed && !IsMapped(w, fieldWorker),
                      skills - w.skills, certifications - w.certifications))
  }

  ghost predicate Staffable(workers: seq<Worker>, number: nat, fieldWorker: nat, needed: bool, skills: set<string>,
                            certifications: set<string>)
  {
    exists staff :: Staffs(workers, number, fieldWorker, needed, skills, certifications, staff)
  }

  lemma WithFirst(workers: seq<Worker>, number: nat, fieldWorker: nat, needed: bool, skills: set<string>,
                  certifications: set<string>, staff: set<Worker>)
    requires workers != [] && DistinctIds(workers) && workers[0].available && number > 0
    requires var w := workers[0];
             Staffs(workers[1..], number - 1, fieldWorker, needed && !IsMapped(w, fieldWorker),
                    skills - w.skills, certifications - w.certifications, staff)
    ensures Staffs(workers, number, fieldWorker, needed, skills, certifications, staff + {workers[0]})
  {
    var w := workers[0];
    var all := staff + {w};
    assert w !in staff by { assert forall i :: 0 < i < |workers| ==> workers[i].id != w.id; }
    assert |all| == number;
    forall skill | skill in skills ensures skill in SkillsAmong(all) {
      assert skill in w.skills || skill in SkillsAmong(staff);
    }
    forall value | value in certifications ensures value in CertificationsAmong(all) {
      assert value in w.certifications || value in CertificationsAmong(staff);
    }
    if needed && !IsMapped(w, fieldWorker) {
      var m :| m in staff && IsMapped(m, fieldWorker);
      assert m in all;
    }
  }

  lemma WithoutFirst(workers: seq<Worker>, number: nat, fieldWorker: nat, needed: bool, skills: set<string>,
                     certifications: set<string>, staff: set<Worker>)
    requires workers != [] && Staffs(workers, number, fieldWorker, needed, skills, certifications, staff)
    ensures workers[0] !in staff ==>
              Staffs(workers[1..], number, fieldWorker, needed, skills, certifications, staff)
    ensures workers[0] in staff ==>
              var w := workers[0];
              && w.available && number > 0
              && Staffs(workers[1..], number - 1, fieldWorker, needed && !IsMapped(w, fieldWorker),
                        skills - w.skills, certifications - w.certifications, staff - {w})
  {
    var w := workers[0];
    assert workers == [w] + workers[1..];
    if w in staff {
      var rest := staff - {w};
      assert staff == rest + {w};
      assert forall skill :: skill in SkillsAmong(staff) ==> skill in w.skills || skill in SkillsAmong(rest);
      assert forall value :: value in CertificationsAmong(staff) ==> value in w.certifications || value in CertificationsAmong(rest);
      if needed && !IsMapped(w, fieldWorker) {
        var m :| m in staff && IsMapped(m, fieldWorker);
        assert m in rest;
      }
    }
  }

  /** The first option is sent or not. */
  lemma StaffableStep(workers: seq<Worker>, number: nat, fieldWorker: nat, needed: bool, skills: set<string>,
                      certifications: set<string>)
    requires DistinctIds(workers) && workers != []
    ensures var w, rest := workers[0], workers[1..];
            Staffable(workers, number, fieldWorker, needed, skills, certifications) <==>
              || Staffable(rest, number, fieldWorker, needed, skills, certifications)
              || (w.available && number > 0
                  && Staffable(rest, number - 1, fieldWorker, needed && !IsMapped(w, fieldWorker),
                               skills - w.skills, certifications - w.certifications))
  {
    hide Staffs, DistinctIds;
    var w, rest := workers[0], workers[1..];
    var needed' := needed && !IsMapped(w, fieldWorker);
    if Staffable(workers, number, fieldWorker, needed, skills, certifications) {
      var staff :| Staffs(workers, number, fieldWorker, needed, skills, certifications, staff);
      WithoutFirst(workers, number, fieldWorker, needed, skills, certifications, staff);
    }
    if Staffable(rest, number, fieldWorker, needed, skills, certifications) {
      var staff :| Staffs(rest, number, fieldWorker, needed, skills, certifications, staff);
      StaffsMore(workers, number, fieldWorker, needed, skills, certifications, staff);
    }
    if w.available && number > 0
       && Staffable(rest, number - 1, fieldWorker, needed', skills - w.skills, certifications - w.certifications) {
      var staff :| Staffs(rest, number - 1, fieldWorker, needed', skills - w.skills, certifications - w.certifications, staff);
      WithFirst(workers, number, fieldWorker, needed, skills, certifications, staff);
    }
  }

  lemma {:induction false} CanStaffIff(workers: seq<Worker>, number: nat, fieldWorker: nat, needed: bool,
                                       skills: set<string>, certifications: set<string>)
    requires DistinctIds(workers)
    ensures CanStaff(workers, number, fieldWorker, needed, skills, certifications)
            <==> Staffable(workers, number, fieldWorker, needed, skills, certifications)
    decreases |workers|
  {
    if workers == [] {
      NobodyStaffs(number, fieldWorker, needed, skills, certifications);
    } else {
      var w, rest := workers[0], workers[1..];
      var needed' := needed && !IsMapped(w, fieldWorker);
      StaffableStep(workers, number, fieldWorker, needed, skills, certifications);
      CanStaffIff(rest, number, fieldWorker, needed, skills, certifications);
      if number > 0 { CanStaffIff(rest, number - 1, fieldWorker, needed', skills - w.skills, certifications - w.certifications); }
      hide Staffable;
    }
  }

  lemma StaffsMore(workers: seq<Worker>, number: nat, fieldWorker: nat, needed: bool, skills: set<string>,
                   certifications: set<string>, staff: set<Worker>)
    requires workers != [] && Staffs(workers[1..], number, fieldWorker, needed, skills, certifications, staff)
    ensures Staffs(workers, number, fieldWorker, needed, skills, certifications, staff)
  {
    assert workers == [workers[0]] + workers[1..];
  }

  lemma NobodyStaffs(number: nat, fieldWorker: nat, needed: bool, skills: set<string>, certifications: set<string>)
    ensures Staffable([], number, fieldWorker, needed, skills, certifications)
            <==> number == 0 && !needed && skills == {} && certifications == {}
  {
    if Staffable([], number, fieldWorker, needed, skills, certifications) {
      var staff :| Staffs([], number, fieldWorker, needed, skills, certifications, staff);
      assert staff == {};
    }
    if number == 0 && !needed && skills == {} && certifications == {} {
      assert Staffs([], number, fieldWorker, needed, skills, certifications, {});
    }
  }

  /** What a manager would have to check before: a fitting vehicle, and the search succeeds. */
  predicate CanBeConfirmed(setup: Setup, fieldWorker: nat) {
    && ChecksBefore(setup).vehicle
    && CanStaff(setup.workers, setup.requiredWorkers, fieldWorker, true, setup.requiredSkills, setup.requiredCertifications)
  }

  lemma SetupStaffable(setup: Setup, fieldWorker: nat)
    ensures (exists staff :: StaffsSetup(setup, fieldWorker, staff)) <==>
              Staffable(setup.workers, setup.requiredWorkers, fieldWorker, true, setup.requiredSkills,
                        setup.requiredCertifications)
  {
    hide Staffs;
    if Staffable(setup.workers, setup.requiredWorkers, fieldWorker, true, setup.requiredSkills, setup.requiredCertifications) {
      var staff :| Staffs(setup.workers, setup.requiredWorkers, fieldWorker, true, setup.requiredSkills,
                          setup.requiredCertifications, staff);
      assert StaffsSetup(setup, fieldWorker, staff);
    }
  }

  /** A stored setup has an acceptable selection exactly when there is a fitting vehicle and the search succeeds. */
  lemma SelectionExistsIff(setup: Setup, fieldWorker: nat)
    requires Storable(setup, fieldWorker) && DistinctVehicles(setup.vehicles)
    ensures HasSelection(setup, fieldWorker) <==> CanBeConfirmed(setup, fieldWorker)
    ensures CanBeConfirmed(setup, fieldWorker) ==> AllPass(ChecksBefore(setup))
  {
    SelectionIffStaff(setup, fieldWorker);
    CanStaffIff(setup.workers, setup.requiredWorkers, fieldWorker, true, setup.requiredSkills, setup.requiredCertifications);
    SetupStaffable(setup, fieldWorker);
    hide CanStaff, Staffable, StaffsSetup;
    if HasSelection(setup, fieldWorker) {
      var selection :| Acceptable(setup, selection, fieldWorker);
      AcceptedSelectionNeedsAllChecks(setup, selection, fieldWorker);
    }
  }

  // ------------------------------------------- when the checks are enough

  predicate FieldWorkerAvailable(setup: Setup, fieldWorker: nat) {
    exists w :: w in setup.workers && IsMapped(w, fieldWorker) && w.available
  }

  function FieldWorkerSkills(setup: Setup, fieldWorker: nat): set<string> {
    set w, skill | w in setup.workers && IsMapped(w, fieldWorker) && skill in w.skills :: skill
  }

  function FieldWorkerCertifications(setup: Setup, fieldWorker: nat): set<string> {
    set w, value | w in setup.workers && IsMapped(w, fieldWorker) && value in w.certifications :: value
  }

  /** How many requirements the field worker does not meet alone. */
  function Gap(setup: Setup, fieldWorker: nat): nat {
    |setup.requiredSkills - FieldWorkerSkills(setup, fieldWorker)|
    + |setup.requiredCertifications - FieldWorkerCertifications(setup, fieldWorker)|
  }

  /** Everyone available is sent, or there is a place for the field worker and one more for every requirement left. */
  predicate RoomForAll(setup: Setup, fieldWorker: nat) {
    setup.requiredWorkers == |Eligible(setup.workers)| || setup.requiredWorkers > Gap(setup, fieldWorker)
  }

  lemma {:induction false} CoverSkills(pool: set<Worker>, base: set<Worker>, skills: set<string>) returns (staff: set<Worker>)
    requires base <= pool && skills <= SkillsAmong(pool)
    ensures base <= staff <= pool && skills <= SkillsAmong(staff) && |staff| <= |base| + |skills|
    decreases |skills|
  {
    if skills == {} {
      staff := base;
    } else {
      var skill :| skill in skills;
      var rest := CoverSkills(pool, base, skills - {skill});
      var w :| w in pool && skill in w.skills;
      staff := rest + {w};
      forall other | other in skills ensures other in SkillsAmong(staff) {
        assert other == skill || other in SkillsAmong(rest);
      }
    }
  }

  lemma {:induction false} CoverCertifications(pool: set<Worker>, base: set<Worker>, values: set<string>) returns (staff: set<Worker>)
    requires base <= pool && values <= CertificationsAmong(pool)
    ensures base <= staff <= pool && values <= CertificationsAmong(staff) && |staff| <= |base| + |values|
    decreases |values|
  {
    if values == {} {
      staff := base;
    } else {
      var value :| value in values;
      var rest := CoverCertifications(pool, base, values - {value});
      var w :| w in pool && value in w.certifications;
      staff := rest + {w};
      forall other | other in values ensures other in CertificationsAmong(staff) {
        assert other == value || other in CertificationsAmong(rest);
      }
    }
  }

  lemma {:induction false} FillUp(pool: set<Worker>, base: set<Worker>, number: nat) returns (staff: set<Worker>)
    requires base <= pool && |base| <= number <= |pool|
    ensures base <= staff <= pool && |staff| == number
    decreases number - |base|
  {
    if |base| == number {
      staff := base;
    } else {
      assert pool == base + (pool - base) && |pool - base| > 0;
      var w :| w in pool - base;
      staff := FillUp(pool, base + {w}, number);
    }
  }

  lemma {:induction false} EligibleDistinct(workers: seq<Worker>)
    requires DistinctIds(workers)
    ensures NoRepeats(Eligible(workers))
    decreases |workers|
  {
    if workers != [] {
      EligibleDistinct(workers[1..]);
      EligibleContents(workers[1..]);
      assert forall w :: w in workers[1..] ==> w.id != workers[0].id;
    }
  }

  /** The passing checks speak about everyone available. */
  lemma PoolOf(setup: Setup) returns (pool: set<Worker>)
    requires DistinctIds(setup.workers)
    ensures forall w :: w in pool <==> w in setup.workers && w.available
    ensures |pool| == |Eligible(setup.workers)|
    ensures SkillsAmong(pool) == SkillsOf(Eligible(setup.workers))
    ensures CertificationsAmong(pool) == CertificationsOf(Eligible(setup.workers))
  {
    EligibleContents(setup.workers);
    EligibleDistinct(setup.workers);
    DistinctCount(Eligible(setup.workers));
    pool := Elements(Eligible(setup.workers));
  }

  /** With room for all, the field worker, one option for each requirement left, and anyone else up to the number. */
  lemma StaffByRoom(setup: Setup, fieldWorker: nat) returns (staff: set<Worker>)
    requires Storable(setup, fieldWorker) && AllPass(ChecksBefore(setup))
    requires FieldWorkerAvailable(setup, fieldWorker) && RoomForAll(setup, fieldWorker)
    ensures StaffsSetup(setup, fieldWorker, staff)
  {
    var pool := PoolOf(setup);
    var mapped :| mapped in setup.workers && IsMapped(mapped, fieldWorker) && mapped.available;
    if setup.requiredWorkers == |Eligible(setup.workers)| {
      staff := pool;
    } else {
      var skills := setup.requiredSkills - FieldWorkerSkills(setup, fieldWorker);
      var values := setup.requiredCertifications - FieldWorkerCertifications(setup, fieldWorker);
      assert skills <= SkillsAmong(pool) && values <= CertificationsAmong(pool);
      var first := CoverSkills(pool, {mapped}, skills);
      var second := CoverCertifications(pool, first, values);
      staff := FillUp(pool, second, setup.requiredWorkers);
      CoveredByAll(setup, fieldWorker, mapped, first, second, staff);
    }
  }

  lemma CoveredByAll(setup: Setup, fieldWorker: nat, mapped: Worker, first: set<Worker>, second: set<Worker>, staff: set<Worker>)
    requires Storable(setup, fieldWorker) && mapped in setup.workers && IsMapped(mapped, fieldWorker)
    requires mapped in first && first <= second <= staff
    requires setup.requiredSkills - FieldWorkerSkills(setup, fieldWorker) <= SkillsAmong(first)
    requires setup.requiredCertifications - FieldWorkerCertifications(setup, fieldWorker) <= CertificationsAmong(second)
    ensures setup.requiredSkills <= SkillsAmong(staff) && setup.requiredCertifications <= CertificationsAmong(staff)
  {
    var only := OneMapped(setup.workers, fieldWorker);
    assert only == mapped && mapped in staff;
    forall skill | skill in setup.requiredSkills ensures skill in SkillsAmong(staff) {
      assert skill in mapped.skills || skill in SkillsAmong(first);
    }
    forall value | value in setup.requiredCertifications ensures value in CertificationsAmong(staff) {
      assert value in mapped.certifications || value in CertificationsAmong(second);
    }
  }

  /**
   With room for all, the passing checks are enough exactly when the field worker is available: then,
   and only then, some selection is accepted.
   */
  lemma ChecksSufficeIff(setup: Setup, fieldWorker: nat)
    requires Storable(setup, fieldWorker) && DistinctVehicles(setup.vehicles) && RoomForAll(setup, fieldWorker)
    ensures HasSelection(setup, fieldWorker) <==> AllPass(ChecksBefore(setup)) && FieldWorkerAvailable(setup, fieldWorker)
  {
    SelectionIffStaff(setup, fieldWorker);
    if HasSelection(setup, fieldWorker) {
      var selection :| Acceptable(setup, selection, fieldWorker);
      AcceptedSelectionNeedsAllChecks(setup, selection, fieldWorker);
      var staff :| StaffsSetup(setup, fieldWorker, staff);
    }
    if AllPass(ChecksBefore(setup)) && FieldWorkerAvailable(setup, fieldWorker) {
      var staff := StaffByRoom(setup, fieldWorker);
    }
  }

  // --------------------------------------------------- what a manager reads

  /** The vehicle that was chosen is there, available and large enough. */
  predicate VehicleFits(setup: Setup, id: OptionId) {
    exists v :: v in setup.vehicles && v.id == id && v.available && v.capacity >= setup.requiredCapacity
  }

  predicate IsOption(workers: seq<Worker>, id: OptionId, w: Worker) {
    w in workers && w.id == id
  }

  /** Everyone chosen is available, the field worker is one of them, and together they have what is required. */
  ghost predicate WorkersFit(setup: Setup, ids: seq<OptionId>, fieldWorker: nat) {
    && |ids| == setup.requiredWorkers
    && (forall id :: id in ids ==> exists w :: IsOption(setup.workers, id, w) && w.available)
    && (exists w :: w in setup.workers && w.id in ids && w.participant == Some(fieldWorker))
    && (forall skill :: skill in setup.requiredSkills ==>
          exists w :: w in setup.workers && w.id in ids && skill in w.skills)
    && (forall value :: value in setup.requiredCertifications ==>
          exists w :: w in setup.workers && w.id in ids && value in w.certifications)
  }

  /** The options of a selection, as a set. */
  lemma ChosenAre(setup: Setup, ids: seq<OptionId>)
    requires DistinctIds(setup.workers) && forall id :: id in ids ==> FindWorker(setup.workers, id).Some?
    ensures forall w :: w in Chosen(setup.workers, ids) <==> w in setup.workers && w.id in ids
  {
    ChosenContents(setup.workers, ids);
    forall w | w in setup.workers && w.id in ids ensures w in Chosen(setup.workers, ids) {
      FoundById(setup.workers, w);
      var i :| 0 <= i < |ids| && ids[i] == w.id;
      assert Chosen(setup.workers, ids)[i] == w;
    }
  }

  lemma VehicleFitsIff(setup: Setup, id: OptionId)
    requires DistinctVehicles(setup.vehicles)
    ensures VehicleFits(setup, id) <==> FindVehicle(setup.vehicles, id).Some? && Fits(setup, FindVehicle(setup.vehicles, id).value)
  {
    if v :| v in setup.vehicles && v.id == id { VehicleById(setup.vehicles, v); }
  }

  lemma OptionsAvailableIff(setup: Setup, id: OptionId)
    requires DistinctIds(setup.workers)
    ensures (exists w :: IsOption(setup.workers, id, w) && w.available)
            <==> FindWorker(setup.workers, id).Some? && FindWorker(setup.workers, id).value.available
  {
    if w :| IsOption(setup.workers, id, w) && w.available { FoundById(setup.workers, w); }
    if FindWorker(setup.workers, id).Some? { assert IsOption(setup.workers, id, FindWorker(setup.workers, id).value); }
  }

  lemma AllAvailableIff(setup: Setup, ids: seq<OptionId>)
    requires DistinctIds(setup.workers)
    ensures (forall i :: 0 <= i < |ids| ==> FindWorker(setup.workers, ids[i]).Some? && FindWorker(setup.workers, ids[i]).value.available)
            <==> forall id :: id in ids ==> exists w :: IsOption(setup.workers, id, w) && w.available
  {
    forall id ensures (exists w :: IsOption(setup.workers, id, w) && w.available)
                      <==> FindWorker(setup.workers, id).Some? && FindWorker(setup.workers, id).value.available
    {
      OptionsAvailableIff(setup, id);
    }
    hide FindWorker, IsOption, DistinctIds;
    assert forall i :: 0 <= i < |ids| ==> ids[i] in ids;
  }

  lemma WorkersFitIff(setup: Setup, ids: seq<OptionId>, fieldWorker: nat)
    requires Storable(setup, fieldWorker) && NoRepeats(ids)
    requires forall i :: 0 <= i < |ids| ==> FindWorker(setup.workers, ids[i]).Some? && FindWorker(setup.workers, ids[i]).value.available
    ensures WorkersFit(setup, ids, fieldWorker) <==>
              && |ids| == setup.requiredWorkers
              && MappedTo(Chosen(setup.workers, ids), fieldWorker) == 1
              && setup.requiredSkills <= SkillsOf(Chosen(setup.workers, ids))
              && setup.requiredCertifications <= CertificationsOf(Chosen(setup.workers, ids))
  {
    AllAvailableIff(setup, ids);
    hide NoRepeats, Storable, Chosen, FindWorker, SkillsOf, CertificationsOf, MappedTo, IsOption;
    StorableIds(setup, fieldWorker);
    forall id | id in ids ensures FindWorker(setup.workers, id).Some? {
      var i :| 0 <= i < |ids| && ids[i] == id;
    }
    ChosenAre(setup, ids);
    CoveredIff(setup, ids);
    OneChosenMapped(setup, ids, fieldWorker);
  }

  lemma StorableIds(setup: Setup, fieldWorker: nat)
    requires Storable(setup, fieldWorker)
    ensures DistinctIds(setup.workers)
  {
  }

  /** A selection is accepted exactly when its vehicle and its workers fit, option by option. */
  lemma SelectionAcceptedIff(setup: Setup, selection: Selection, fieldWorker: nat)
    requires Storable(setup, fieldWorker) && DistinctVehicles(setup.vehicles) && NoRepeats(selection.workers)
    ensures Validated(setup, selection, fieldWorker)
            <==> VehicleFits(setup, selection.vehicle) && WorkersFit(setup, selection.workers, fieldWorker)
  {
    hide NoRepeats, Storable, DistinctVehicles, Chosen, FindWorker, FindVehicle, SkillsOf, CertificationsOf, MappedTo, Fits,
         VehicleFits, IsOption;
    VehicleFitsIff(setup, selection.vehicle);
    StorableIds(setup, fieldWorker);
    AllAvailableIff(setup, selection.workers);
    if forall i :: 0 <= i < |selection.workers| ==>
         FindWorker(setup.workers, selection.workers[i]).Some? && FindWorker(setup.workers, selection.workers[i]).value.available {
      WorkersFitIff(setup, selection.workers, fieldWorker);
    }
  }

  lemma CoveredIff(setup: Setup, ids: seq<OptionId>)
    requires forall w :: w in Chosen(setup.workers, ids) <==> w in setup.workers && w.id in ids
    ensures setup.requiredSkills <= SkillsOf(Chosen(setup.workers, ids)) <==>
              forall skill :: skill in setup.requiredSkills ==>
                exists w :: w in setup.workers && w.id in ids && skill in w.skills
    ensures setup.requiredCertifications <= CertificationsOf(Chosen(setup.workers, ids)) <==>
              forall value :: value in setup.requiredCertifications ==>
                exists w :: w in setup.workers && w.id in ids && value in w.certifications
  {
    hide Chosen;
  }

  lemma OneChosenMapped(setup: Setup, ids: seq<OptionId>, fieldWorker: nat)
    requires Storable(setup, fieldWorker) && NoRepeats(ids)
    requires forall id :: id in ids ==> FindWorker(setup.workers, id).Some?
    requires forall w :: w in Chosen(setup.workers, ids) <==> w in setup.workers && w.id in ids
    ensures MappedTo(Chosen(setup.workers, ids), fieldWorker) == 1
            <==> exists w :: w in setup.workers && w.id in ids && w.participant == Some(fieldWorker)
  {
    var chosen := Chosen(setup.workers, ids);
    ChosenContents(setup.workers, ids);
    assert NoRepeats(chosen);
    MappedSome(chosen, fieldWorker);
    var mapped := OneMapped(setup.workers, fieldWorker);
    MappedOnce(chosen, fieldWorker, mapped);
    hide Chosen, FindWorker, MappedTo;
    if w :| w in setup.workers && w.id in ids && w.participant == Some(fieldWorker) {
      assert w in chosen && IsMapped(w, fieldWorker);
    }
  }

  /** Asking for less, or having larger vehicles, never turns an accepted selection into a rejected one. */
  lemma MoreRoomIsNeverWorse(setup: Setup, roomier: Setup, selection: Selection, fieldWorker: nat)
    requires Storable(setup, fieldWorker) && DistinctVehicles(setup.vehicles) && NoRepeats(selection.workers)
    requires roomier == setup.(vehicles := roomier.vehicles, requiredCapacity := roomier.requiredCapacity)
    requires roomier.requiredCapacity <= setup.requiredCapacity && |roomier.vehicles| == |setup.vehicles|
    requires forall k :: 0 <= k < |setup.vehicles| ==>
               && roomier.vehicles[k] == setup.vehicles[k].(capacity := roomier.vehicles[k].capacity)
               && setup.vehicles[k].capacity <= roomier.vehicles[k].capacity
    requires Validated(setup, selection, fieldWorker)
    ensures Validated(roomier, selection, fieldWorker)
  {
    SelectionAcceptedIff(setup, selection, fieldWorker);
    var v :| v in setup.vehicles && v.id == selection.vehicle && v.available && v.capacity >= setup.requiredCapacity;
    var k :| 0 <= k < |setup.vehicles| && setup.vehicles[k] == v;
    assert roomier.vehicles[k] in roomier.vehicles;
    SelectionAcceptedIff(roomier, selection, fieldWorker);
    hide Validated;
  }

  // ------------------------------------------------ two setups that fail

  /** Each of two workers has one of the two skills that the one place needs. */
  function PooledSetup(fieldWorker: nat): Setup {
    Setup([Vehicle(0, true, 1)],
          [Worker(1, true, Some(fieldWorker), {"lift"}, {}), Worker(2, true, None, {"drive"}, {})],
          1, 1, {"lift", "drive"}, {})
  }

  /** The field worker is not available, and nobody needs any skill. */
  function AbsentSetup(fieldWorker: nat): Setup {
    Setup([Vehicle(0, true, 1)],
          [Worker(1, false, Some(fieldWorker), {}, {}), Worker(2, true, None, {}, {})],
          1, 1, {}, {})
  }

  lemma TwoOptions(setup: Setup, fieldWorker: nat, first: Worker, second: Worker)
    requires setup.workers == [first, second] && first.id != second.id && setup.requiredWorkers == 1
    requires first.participant == Some(fieldWorker) && second.participant.None?
    ensures Storable(setup, fieldWorker)
    ensures Eligible(setup.workers) == (if first.available then [first] else []) + (if second.available then [second] else [])
  {
    assert setup.workers[1..] == [second] && [second][1..] == [];
    assert MappedParticipants([second]) == [];
    assert Eligible([second]) == if second.available then [second] else [];
  }

  lemma OneSkillIsNotTwo(w: Worker)
    requires w.skills == {"lift"} || w.skills == {"drive"}
    ensures !({"lift", "drive"} <= SkillsOf([w]))
  {
    var other := if w.skills == {"lift"} then "drive" else "lift";
    assert other in {"lift", "drive"} && other !in SkillsOf([w]);
  }

  /** All checks can pass although every selection is rejected, because skills are pooled over everyone. */
  lemma PassingChecksMayHaveNoSelection(selection: Selection, fieldWorker: nat)
    ensures var setup := PooledSetup(fieldWorker);
            && Storable(setup, fieldWorker) && DistinctVehicles(setup.vehicles) && FieldWorkerAvailable(setup, fieldWorker)
            && AllPass(ChecksBefore(setup)) && !Validated(setup, selection, fieldWorker)
  {
    var setup := PooledSetup(fieldWorker);
    var first, second := setup.workers[0], setup.workers[1];
    TwoOptions(setup, fieldWorker, first, second);
    assert first in setup.workers && IsMapped(first, fieldWorker);
    assert first in Eligible(setup.workers) && second in Eligible(setup.workers);
    assert setup.vehicles[0] in setup.vehicles && Fits(setup, setup.vehicles[0]);
    if Validated(setup, selection, fieldWorker) {
      var chosen := Chosen(setup.workers, selection.workers);
      ChosenContents(setup.workers, selection.workers);
      assert chosen == [chosen[0]] && chosen[0] in setup.workers;
      OneSkillIsNotTwo(chosen[0]);
    }
  }

  lemma AcceptedNeedsFieldWorker(setup: Setup, selection: Selection, fieldWorker: nat)
    requires Validated(setup, selection, fieldWorker)
    ensures FieldWorkerAvailable(setup, fieldWorker)
  {
    var chosen := Chosen(setup.workers, selection.workers);
    ChosenContents(setup.workers, selection.workers);
    MappedSome(chosen, fieldWorker);
    var w :| w in chosen && IsMapped(w, fieldWorker);
    assert w in setup.workers && w.available;
  }

  /** They can also pass because nobody looks for the field worker. */
  lemma ChecksIgnoreTheFieldWorker(selection: Selection, fieldWorker: nat)
    ensures var setup := AbsentSetup(fieldWorker);
            && Storable(setup, fieldWorker) && DistinctVehicles(setup.vehicles) && RoomForAll(setup, fieldWorker)
            && AllPass(ChecksBefore(setup)) && !Validated(setup, selection, fieldWorker)
  {
    var setup := AbsentSetup(fieldWorker);
    var first, second := setup.workers[0], setup.workers[1];
    TwoOptions(setup, fieldWorker, first, second);
    assert setup.vehicles[0] in setup.vehicles && Fits(setup, setup.vehicles[0]);
    assert forall w :: w in setup.workers ==> w == first || w == second;
    assert !FieldWorkerAvailable(setup, fieldWorker);
    if Validated(setup, selection, fieldWorker) { AcceptedNeedsFieldWorker(setup, selection, fieldWorker); }
  }
}
