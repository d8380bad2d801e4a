/** The schema migration that adds one condition to every stored location snapshot, and its inverse. */
module LadderMigration {
  import opened Common

  /** A stored JSON value. */
  datatype Json =
    | Null
    | Bool(flag: bool)
    | Number(number: real)
    | Text(text: string)
    | List(items: seq<Json>)
    | Object(fields: map<string, Json>)

  const LADDER := "ladder"
  const CONDITIONS := "conditions"
  const SNAPSHOTS := "location_conditions"
  const UNKNOWN := Text("unknown")

  // ------------------------------------------------------------ one snapshot

  /** The conditions of a snapshot, if it has the expected shape. */
  function ConditionsOf(snapshot: Json): Option<map<string, Json>> {
    if snapshot.Object? && CONDITIONS in snapshot.fields && snapshot.fields[CONDITIONS].Object?
    then Some(snapshot.fields[CONDITIONS].fields) else None
  }

  function WithConditions(snapshot: Json, conditions: map<string, Json>): Json
    requires snapshot.Object?
  {
    Object(snapshot.fields[CONDITIONS := Object(conditions)])
  }

  predicate Touches(snapshot: Json, remove: bool) {
    var conditions := ConditionsOf(snapshot);
    conditions.Some? && (LADDER in conditions.value <==> remove)
  }

  function RewriteSnapshot(snapshot: Json, remove: bool): Json {
    if !Touches(snapshot, remove) then snapshot
    else
      var conditions := ConditionsOf(snapshot).value;
      WithConditions(snapshot, if remove then conditions - {LADDER} else conditions[LADDER := UNKNOWN])
  }

  function RewriteAll(snapshots: seq<Json>, remove: bool): (rewritten: seq<Json>)
    ensures |rewritten| == |snapshots|
    ensures forall i :: 0 <= i < |snapshots| ==> rewritten[i] == RewriteSnapshot(snapshots[i], remove)
  {
    seq(|snapshots|, i requires 0 <= i < |snapshots| => RewriteSnapshot(snapshots[i], remove))
  }

  function SnapshotsOf(document: map<string, Json>): Option<seq<Json>> {
    if SNAPSHOTS in document && document[SNAPSHOTS].List? then Some(document[SNAPSHOTS].items) else None
  }

  function Rewrite(document: map<string, Json>, remove: bool): map<string, Json> {
    match SnapshotsOf(document)
    case None => document
    case Some(snapshots) => document[SNAPSHOTS := List(RewriteAll(snapshots, remove))]
  }

  /** Rewrites the snapshots one by one and remembers whether any of them changed. */
  method RewriteDocument(content: map<string, Json>, remove: bool) returns (document: map<string, Json>, changed: bool)
    ensures document == Rewrite(content, remove)
    ensures changed <==> document != content
  {
    document, changed := content, false;
    if SNAPSHOTS !in document || !document[SNAPSHOTS].List? {
      return;
    }
    var snapshots := document[SNAPSHOTS].items;
    var rewritten: seq<Json> := [];
    for i := 0 to |snapshots|
      invariant rewritten == RewriteAll(snapshots, remove)[..i]
      invariant changed <==> exists k :: 0 <= k < i && Touches(snapshots[k], remove)
    {
      var snapshot := snapshots[i];
      if snapshot.Object? && CONDITIONS in snapshot.fields && snapshot.fields[CONDITIONS].Object? {
        var conditions := snapshot.fields[CONDITIONS].fields;
        ghost var was := conditions;
        if remove {
          if LADDER in conditions {
            conditions := conditions - {LADDER};
            changed := true;
          }
        } else if LADDER !in conditions {
          conditions := conditions[LADDER := UNKNOWN];
          changed := true;
        }
        SameConditions(snapshot, was);
        rewritten := rewritten + [Object(snapshot.fields[CONDITIONS := Object(conditions)])];
      } else {
        rewritten := rewritten + [snapshot];
      }
    }
    assert rewritten == RewriteAll(snapshots, remove);
    ChangedIff(content, snapshots, remove);
    if changed {
      document := document[SNAPSHOTS := List(rewritten)];
    }
  }

  lemma SameConditions(snapshot: Json, conditions: map<string, Json>)
    requires ConditionsOf(snapshot) == Some(conditions)
    ensures WithConditions(snapshot, conditions) == snapshot
  {
    assert snapshot.fields[CONDITIONS := Object(conditions)] == snapshot.fields;
  }

  lemma TouchedChanges(snapshot: Json, remove: bool)
    ensures RewriteSnapshot(snapshot, remove) != snapshot <==> Touches(snapshot, remove)
  {
    if Touches(snapshot, remove) {
      var conditions := ConditionsOf(RewriteSnapshot(snapshot, remove)).value;
      assert LADDER in conditions <==> !remove;
    }
  }

  /** A document differs after the rewrite exactly when one of its snapshots is touched. */
  lemma ChangedIff(document: map<string, Json>, snapshots: seq<Json>, remove: bool)
    requires SnapshotsOf(document) == Some(snapshots)
    ensures Rewrite(document, remove) != document <==> exists k :: 0 <= k < |snapshots| && Touches(snapshots[k], remove)
  {
    var rewritten := RewriteAll(snapshots, remove);
    forall k | 0 <= k < |snapshots| ensures rewritten[k] != snapshots[k] <==> Touches(snapshots[k], remove) {
      TouchedChanges(snapshots[k], remove);
    }
    if exists k :: 0 <= k < |snapshots| && Touches(snapshots[k], remove) {
      assert rewritten != snapshots;
      assert Rewrite(document, remove)[SNAPSHOTS] != document[SNAPSHOTS];
    } else {
      assert rewritten == snapshots;
      assert Rewrite(document, remove) == document;
    }
  }

  // --------------------------------------------------------------- inverses

  /** Every snapshot with conditions has a ladder entry, or none has one. */
  ghost predicate NoLadder(document: map<string, Json>) {
    SnapshotsOf(document).Some? ==>
      forall s :: s in SnapshotsOf(document).value && ConditionsOf(s).Some? ==> LADDER !in ConditionsOf(s).value
  }

  ghost predicate AllUnknown(document: map<string, Json>) {
    SnapshotsOf(document).Some? ==>
      forall s :: s in SnapshotsOf(document).value && ConditionsOf(s).Some? ==>
        LADDER in ConditionsOf(s).value && ConditionsOf(s).value[LADDER] == UNKNOWN
  }

  lemma ConditionsRewritten(snapshot: Json, remove: bool)
    requires ConditionsOf(snapshot).Some?
    ensures ConditionsOf(RewriteSnapshot(snapshot, remove))
            == Some(if remove then ConditionsOf(snapshot).value - {LADDER}
                    else if LADDER in ConditionsOf(snapshot).value then ConditionsOf(snapshot).value
                    else ConditionsOf(snapshot).value[LADDER := UNKNOWN])
  {
    var conditions := ConditionsOf(snapshot).value;
    if remove && LADDER !in conditions {
      assert conditions - {LADDER} == conditions;
    }
  }

  lemma SnapshotTwice(snapshot: Json, remove: bool)
    ensures RewriteSnapshot(RewriteSnapshot(snapshot, remove), remove) == RewriteSnapshot(snapshot, remove)
  {
    if Touches(snapshot, remove) {
      ConditionsRewritten(snapshot, remove);
    }
  }

  lemma AddThenRemove(snapshot: Json)
    requires ConditionsOf(snapshot).Some? ==> LADDER !in ConditionsOf(snapshot).value
    ensures RewriteSnapshot(RewriteSnapshot(snapshot, false), true) == snapshot
  {
    if ConditionsOf(snapshot).Some? {
      var conditions := ConditionsOf(snapshot).value;
      ConditionsRewritten(snapshot, false);
      assert conditions[LADDER := UNKNOWN] - {LADDER} == conditions;
      SameConditions(snapshot, conditions);
      assert snapshot.fields[CONDITIONS := Object(conditions[LADDER := UNKNOWN])][CONDITIONS := Object(conditions)]
             == snapshot.fields[CONDITIONS := Object(conditions)];
    }
  }

  lemma RemoveThenAddIff(snapshot: Json)
    ensures RewriteSnapshot(RewriteSnapshot(snapshot, true), false) == snapshot
            <==> (ConditionsOf(snapshot).Some? ==>
                    LADDER in ConditionsOf(snapshot).value && ConditionsOf(snapshot).value[LADDER] == UNKNOWN)
  {
    if ConditionsOf(snapshot).Some? {
      var conditions := ConditionsOf(snapshot).value;
      var removed := RewriteSnapshot(snapshot, true);
      ConditionsRewritten(snapshot, true);
      ConditionsRewritten(removed, false);
      if LADDER in conditions && conditions[LADDER] == UNKNOWN {
        assert (conditions - {LADDER})[LADDER := UNKNOWN] == conditions;
        SameConditions(snapshot, conditions);
        assert snapshot.fields[CONDITIONS := Object(conditions - {LADDER})][CONDITIONS := Object(conditions)]
               == snapshot.fields[CONDITIONS := Object(conditions)];
      }
    }
  }

  lemma RewriteRewritten(document: map<string, Json>, first: bool, second: bool)
    requires SnapshotsOf(document).Some?
    ensures SnapshotsOf(Rewrite(document, first)) == Some(RewriteAll(SnapshotsOf(document).value, first))
    ensures Rewrite(Rewrite(document, first), second)
            == document[SNAPSHOTS := List(RewriteAll(RewriteAll(SnapshotsOf(document).value, first), second))]
  {
  }

  /** Adding the condition twice is adding it once, and removing it twice is removing it once. */
  lemma RewriteIsIdempotent(document: map<string, Json>, remove: bool)
    ensures Rewrite(Rewrite(document, remove), remove) == Rewrite(document, remove)
  {
    if SnapshotsOf(document).Some? {
      var snapshots := SnapshotsOf(document).value;
      RewriteRewritten(document, remove, remove);
      forall k | 0 <= k < |snapshots| ensures RewriteSnapshot(RewriteAll(snapshots, remove)[k], remove) == RewriteAll(snapshots, remove)[k] {
        SnapshotTwice(snapshots[k], remove);
      }
      assert RewriteAll(RewriteAll(snapshots, remove), remove) == RewriteAll(snapshots, remove);
    }
  }

  /** Upgrading and downgrading a document from before the migration gives it back. */
  lemma UpgradeThenDowngrade(document: map<string, Json>)
    requires NoLadder(document)
    ensures Rewrite(Rewrite(document, false), true) == document
  {
    if SnapshotsOf(document).Some? {
      var snapshots := SnapshotsOf(document).value;
      RewriteRewritten(document, false, true);
      forall k | 0 <= k < |snapshots| ensures RewriteSnapshot(RewriteAll(snapshots, false)[k], true) == snapshots[k] {
        assert snapshots[k] in snapshots;
        AddThenRemove(snapshots[k]);
      }
      assert RewriteAll(RewriteAll(snapshots, false), true) == snapshots;
      assert document[SNAPSHOTS := List(snapshots)] == document;
    }
  }

  /** A downgrade can be undone by upgrading again exactly when every ladder entry still says unknown. */
  lemma DowngradeThenUpgradeIff(document: map<string, Json>)
    ensures Rewrite(Rewrite(document, true), false) == document <==> AllUnknown(document)
  {
    if SnapshotsOf(document).Some? {
      var snapshots := SnapshotsOf(document).value;
      var back := RewriteAll(RewriteAll(snapshots, true), false);
      RewriteRewritten(document, true, false);
      forall k | 0 <= k < |snapshots|
        ensures back[k] == snapshots[k] <==> (ConditionsOf(snapshots[k]).Some? ==>
                  LADDER in ConditionsOf(snapshots[k]).value && ConditionsOf(snapshots[k]).value[LADDER] == UNKNOWN)
      {
        RemoveThenAddIff(snapshots[k]);
      }
      assert back == snapshots <==> AllUnknown(document) by {
        assert AllUnknown(document) <==> forall k :: 0 <= k < |snapshots| && ConditionsOf(snapshots[k]).Some? ==>
          LADDER in ConditionsOf(snapshots[k]).value && ConditionsOf(snapshots[k]).value[LADDER] == UNKNOWN;
      }
      assert document[SNAPSHOTS := List(back)] == document <==> back == snapshots by {
        assert document[SNAPSHOTS := List(back)][SNAPSHOTS] == List(back);
        if back == snapshots { assert document[SNAPSHOTS := List(back)] == document; }
      }
    }
  }

  /** What the downgrade refuses: a document where some ladder is neither absent, null nor unknown. */
  predicate HasHistory(document: map<string, Json>) {
    && SnapshotsOf(document).Some?
    && exists s :: s in SnapshotsOf(document).value && ConditionsOf(s).Some?
                   && LADDER in ConditionsOf(s).value && ConditionsOf(s).value[LADDER] !in {Null, UNKNOWN}
  }

  /** Every condition record names a ladder value: what the request schema stores, and an upgrade fills in. */
  ghost predicate LaddersStated(document: map<string, Json>) {
    SnapshotsOf(document).Some? ==>
      forall s :: s in SnapshotsOf(document).value && ConditionsOf(s).Some? ==>
        LADDER in ConditionsOf(s).value && ConditionsOf(s).value[LADDER] != Null
  }

  /**
   The guard is exact for stated ladders: upgrading again undoes a downgrade exactly when the
   guard admits the document and none of its ladder entries is absent or null.
   */
  lemma GuardIsExactIff(document: map<string, Json>)
    ensures Rewrite(Rewrite(document, true), false) == document <==> !HasHistory(document) && LaddersStated(document)
  {
    DowngradeThenUpgradeIff(document);
    hide Rewrite;
  }

  /** After an upgrade no ladder entry is absent, so only a null one can get past the guard unnoticed. */
  lemma UpgradeStatesLadders(document: map<string, Json>)
    requires SnapshotsOf(document).Some? ==>
               forall s :: s in SnapshotsOf(document).value && ConditionsOf(s).Some? && LADDER in ConditionsOf(s).value ==>
                 ConditionsOf(s).value[LADDER] != Null
    ensures LaddersStated(Rewrite(document, false))
  {
    if SnapshotsOf(document).Some? {
      var snapshots := SnapshotsOf(document).value;
      RewriteRewritten(document, false, false);
      forall k | 0 <= k < |snapshots| && ConditionsOf(RewriteAll(snapshots, false)[k]).Some?
        ensures var conditions := ConditionsOf(RewriteAll(snapshots, false)[k]).value;
                LADDER in conditions && conditions[LADDER] != Null
      {
        assert snapshots[k] in snapshots;
        if ConditionsOf(snapshots[k]).Some? { ConditionsRewritten(snapshots[k], false); }
      }
    }
  }

  /** Outside the schema the guard admits a null ladder, which comes back as unknown: the round trip is not exact for it. */
  lemma NullLadderPassesTheGuard()
    ensures var document := map[SNAPSHOTS := List([Object(map[CONDITIONS := Object(map[LADDER := Null])])])];
            !HasHistory(document) && Rewrite(Rewrite(document, true), false) != document
  {
    var snapshot := Object(map[CONDITIONS := Object(map[LADDER := Null])]);
    var document := map[SNAPSHOTS := List([snapshot])];
    DowngradeThenUpgradeIff(document);
    assert snapshot in SnapshotsOf(document).value;
  }

  // -------------------------------------------------------------------- rows

  datatype ScopeRow = ScopeRow(content: map<string, Json>, hash: string)

  /** Rewrites every row and renews the hash of each row that changed. */
  method RewriteRows(rows: seq<ScopeRow>, hash: map<string, Json> -> string, remove: bool) returns (rewritten: seq<ScopeRow>)
    ensures |rewritten| == |rows|
    ensures forall i :: 0 <= i < |rows| ==> rewritten[i].content == Rewrite(rows[i].content, remove)
    ensures forall i :: 0 <= i < |rows| && rewritten[i].content == rows[i].content ==> rewritten[i] == rows[i]
    ensures forall i :: 0 <= i < |rows| && rewritten[i].content != rows[i].content ==>
              rewritten[i].hash == hash(rewritten[i].content)
  {
    rewritten := [];
    for i := 0 to |rows|
      invariant |rewritten| == i
      invariant forall k :: 0 <= k < i ==>
                  && rewritten[k].content == Rewrite(rows[k].content, remove)
                  && (rewritten[k].content == rows[k].content ==> rewritten[k] == rows[k])
                  && (rewritten[k].content != rows[k].content ==> rewritten[k].hash == hash(rewritten[k].content))
    {
      var content, changed := RewriteDocument(rows[i].content, remove);
      rewritten := rewritten + [if changed then ScopeRow(content, hash(content)) else rows[i]];
    }
  }
}
