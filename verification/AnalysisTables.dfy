/**
 The mutable rows of the analysis protocol. A run's result is stored in its own model
 columns and in two tables; the ghost field says which result that is.
 */
module AnalysisTables {
  import opened Common
  import opened AnalysisContracts
  import opened AnalysisRows
  import opened AnalysisResults

  class DispatchRow {
    const run: RunId
    const capture: CaptureId
    const moveJob: MoveJobId
    const trace: string
    var status: CaptureStatus
    var scheduledAt: Time
    var attempts: nat
    var token: Option<Token>
    var lockedUntil: Option<Time>
    var taskId: Option<TaskId>
    var dispatchError: Option<ErrorCode>
    var failure: Option<Failure>
    var scope: Option<ScopeId>
    var lastAttemptAt: Option<Time>
    var completedAt: Option<Time>

    constructor (run: RunId, capture: CaptureId, moveJob: MoveJobId, trace: string, now: Time)
      ensures Snapshot() == NewDispatch(run, capture, moveJob, trace, now)
    {
      this.run, this.capture, this.moveJob, this.trace := run, capture, moveJob, trace;
      status, scheduledAt, attempts := Pending, now, 0;
      token, lockedUntil, taskId, dispatchError := None, None, None, None;
      failure, scope, lastAttemptAt, completedAt := None, None, None, None;
    }

    function Snapshot(): Dispatch
      reads this
    {
      Dispatch(run, capture, moveJob, trace, status, scheduledAt, attempts, token, lockedUntil, taskId,
               dispatchError, failure, scope, lastAttemptAt, completedAt)
    }
  }

  class AnalysisRun {
    const id: RunId
    const capture: CaptureId
    const trace: string
    var status: RunStatus
    var attempt: nat
    var startedAt: Option<Time>
    var completedAt: Option<Time>
    var cause: Option<Cause>
    var models: Option<ModelColumns>
    ghost var result: Option<AnalysisResult>

    /** A run is created running, in its first attempt. */
    constructor (id: RunId, capture: CaptureId, trace: string, now: Time)
      ensures Snapshot() == RunRow(id, capture, trace, RunRunning, 1, Some(now), None, None, None)
      ensures models == None
    {
      this.id, this.capture, this.trace := id, capture, trace;
      status, attempt, startedAt := RunRunning, 1, Some(now);
      completedAt, cause, models, result := None, None, None, None;
    }

    ghost function Snapshot(): RunRow
      reads this
    {
      RunRow(id, capture, trace, status, attempt, startedAt, completedAt, cause, result)
    }
  }

  class ResultTables {
    var detections: set<Detection>
    var suggestions: set<Suggestion>

    constructor ()
      ensures detections == {} && suggestions == {}
    {
      detections, suggestions := {}, {};
    }

    ghost predicate Valid()
      reads this
    {
      UniqueOrdinals(detections) && UniqueOrdinals(suggestions)
    }

    /** The tables hold exactly the rows of the run's result, and none for a run that has no result. */
    ghost predicate Holds(run: AnalysisRun)
      reads this, run
    {
      && (run.status == RunCompleted <==> run.result.Some?)
      && (if run.result.Some? then
            && run.result.value.run == run.id
            && run.result.value.capture == run.capture
            && run.models == Some(ModelsOf(run.result.value))
            && RowsOf(detections, run.id) == Elements(DetectionsOf(run.result.value))
            && RowsOf(suggestions, run.id) == Elements(SuggestionsOf(run.result.value))
          else
            RowsOf(detections, run.id) == {} && RowsOf(suggestions, run.id) == {})
    }

    /** Rebuilds the completed result by splitting the ordered rows on their review flag. */
    method Load(run: AnalysisRun) returns (result: Option<AnalysisResult>)
      requires Valid() && Holds(run)
      ensures result == run.result
    {
      if run.status != RunCompleted || run.models.None? {
        return None;
      }
      var rows := FetchInOrder(detections, run.id);
      var draftItems: seq<DraftItem> := [];
      var reviewItems: seq<DraftItem> := [];
      for k := 0 to |rows|
        invariant draftItems == Items(rows[..k], false)
        invariant reviewItems == Items(rows[..k], true)
      {
        var item := DecodeItem(rows[k].columns);
        assert rows[..k + 1][..k] == rows[..k];
        if rows[k].columns.reviewRequired {
          reviewItems := reviewItems + [item];
        } else {
          draftItems := draftItems + [item];
        }
      }
      assert rows[..|rows|] == rows;
      var stored := FetchInOrder(suggestions, run.id);
      var locations: seq<DraftLocation> := [];
      for k := 0 to |stored|
        invariant locations == Locations(stored[..k])
      {
        locations := locations + [DecodeLocation(stored[k].columns)];
      }
      assert stored[..|stored|] == stored;
      LoadedIsStored(run.result.value, detections, suggestions, rows, stored);
      var models := run.models.value;
      result := Some(AnalysisResult(run.id, run.capture, models.modelName, models.modelVersion, models.promptVersion,
                                    models.schemaVersion, draftItems, reviewItems, locations));
    }

    /** Adds the item rows, numbering the drafts and the items to review through in one sequence. */
    method StoreItems(result: AnalysisResult)
      modifies this`detections
      ensures detections == old(detections) + Elements(DetectionsOf(result))
    {
      ghost var rows := DetectionsOf(result);
      var ordinal := 0;
      assert Elements(rows[..0]) == {};
      hide Elements, EncodeItem;
      for k := 0 to |result.draftItems|
        invariant ordinal == k
        invariant detections == old(detections) + Elements(rows[..ordinal])
      {
        ElementsUpTo(rows, ordinal);
        detections := detections + {Row(result.run, ordinal, EncodeItem(result.draftItems[k], result.schemaVersion, false))};
        ordinal := ordinal + 1;
      }
      for k := 0 to |result.reviewItems|
        invariant ordinal == |result.draftItems| + k
        invariant detections == old(detections) + Elements(rows[..ordinal])
      {
        ElementsUpTo(rows, ordinal);
        detections := detections + {Row(result.run, ordinal, EncodeItem(result.reviewItems[k], result.schemaVersion, true))};
        ordinal := ordinal + 1;
      }
      assert rows[..|rows|] == rows;
    }

    method StoreLocations(result: AnalysisResult)
      modifies this`suggestions
      ensures suggestions == old(suggestions) + Elements(SuggestionsOf(result))
    {
      ghost var rows := SuggestionsOf(result);
      assert Elements(rows[..0]) == {};
      hide Elements, EncodeLocation;
      for k := 0 to |result.locations|
        invariant suggestions == old(suggestions) + Elements(rows[..k])
      {
        ElementsUpTo(rows, k);
        suggestions := suggestions + {Row(result.run, k, EncodeLocation(result.locations[k]))};
      }
      assert rows[..|rows|] == rows;
    }

    /** Adds the rows of a result for a run that has none; the rows of every other run stay. */
    method Store(result: AnalysisResult)
      requires Valid() && RowsOf(detections, result.run) == {} && RowsOf(suggestions, result.run) == {}
      modifies this
      ensures Valid()
      ensures detections == old(detections) + Elements(DetectionsOf(result))
      ensures suggestions == old(suggestions) + Elements(SuggestionsOf(result))
      ensures RowsOf(detections, result.run) == Elements(DetectionsOf(result))
      ensures RowsOf(suggestions, result.run) == Elements(SuggestionsOf(result))
      ensures forall other :: other != result.run ==>
                && RowsOf(detections, other) == RowsOf(old(detections), other)
                && RowsOf(suggestions, other) == RowsOf(old(suggestions), other)
    {
      StoreItems(result);
      StoreLocations(result);
      StillUnique(old(detections), DetectionsOf(result), result.run);
      StillUnique(old(suggestions), SuggestionsOf(result), result.run);
      AddedRows(old(detections), DetectionsOf(result), result.run);
      AddedRows(old(suggestions), SuggestionsOf(result), result.run);
    }
  }

  lemma ElementsUpTo<T>(rows: seq<T>, k: nat)
    requires k < |rows|
    ensures Elements(rows[..k + 1]) == Elements(rows[..k]) + {rows[k]}
  {
    assert rows[..k + 1] == rows[..k] + [rows[k]];
    ElementsAppend(rows[..k], rows[k]);
  }

  lemma StillUnique<T>(table: set<Row<T>>, rows: seq<Row<T>>, run: RunId)
    requires UniqueOrdinals(table) && RowsOf(table, run) == {}
    requires forall k :: 0 <= k < |rows| ==> rows[k].run == run && rows[k].ordinal == k
    ensures UniqueOrdinals(table + Elements(rows))
  {
    forall row | row in table ensures row.run != run {
      assert row !in RowsOf(table, run);
    }
  }

  lemma LoadedIsStored(result: AnalysisResult, detections: set<Detection>, suggestions: set<Suggestion>,
                       items: seq<Detection>, locations: seq<Suggestion>)
    requires Fetched(items, detections, result.run) && Fetched(locations, suggestions, result.run)
    requires RowsOf(detections, result.run) == Elements(DetectionsOf(result))
    requires RowsOf(suggestions, result.run) == Elements(SuggestionsOf(result))
    ensures Decoded(result.run, result.capture, ModelsOf(result), items, locations) == result
  {
    FetchIsUnique(items, DetectionsOf(result));
    FetchIsUnique(locations, SuggestionsOf(result));
    DecodeOfEncoded(result);
  }
}
