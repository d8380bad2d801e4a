/**
 How a completed analysis is stored: one row per item and per location suggestion,
 numbered within their run, and rebuilt from the rows in that order.
 */
module AnalysisResults {
  import opened Common
  import opened AnalysisContracts

  /** A row of a table that is unique by run and ordinal. */
  datatype Row<T> = Row(run: RunId, ordinal: nat, columns: T)

  datatype ItemColumns = ItemColumns(
    schemaVersion: int,
    itemKey: string,
    description: string,
    name: Option<string>,
    quantity: Option<int>,
    unit: Option<string>,
    workNote: Option<string>,
    confidence: real,
    reviewRequired: bool,
    sources: seq<AssetId>)

  datatype LocationColumns = LocationColumns(
    location: LocationId,
    kind: LocationKind,
    residence: Residence,
    floorStatus: Knowledge,
    floorValue: Option<int>,
    elevator: Elevator,
    stairs: StairUsage,
    parking: ParkingAccess,
    carryStatus: Knowledge,
    carryValue: Option<int>,
    accessNote: Option<string>,
    confidence: real,
    reviewFields: seq<ConditionField>,
    sources: seq<AssetId>)

  type Detection = Row<ItemColumns>
  type Suggestion = Row<LocationColumns>

  datatype ModelColumns = ModelColumns(modelName: string, modelVersion: string, promptVersion: string, schemaVersion: int)

  // ---------------------------------------------------------------- encoding

  function ModelsOf(result: AnalysisResult): ModelColumns {
    ModelColumns(result.modelName, result.modelVersion, result.promptVersion, result.schemaVersion)
  }

  function EncodeItem(item: DraftItem, schemaVersion: int, reviewRequired: bool): ItemColumns {
    ItemColumns(schemaVersion, item.itemKey, item.description, item.name, item.quantity, item.unit, item.workNote,
                item.confidence, reviewRequired, item.sources)
  }

  function EncodeLocation(location: DraftLocation): LocationColumns {
    LocationColumns(location.location, location.kind, location.residence, location.floor.status, location.floor.value,
                    location.elevator, location.stairs, location.parking, location.carryDistance.status,
                    location.carryDistance.value, location.accessNote, location.confidence, location.reviewFields,
                    location.sources)
  }

  /** The item rows of a result: the drafts and then the items to review, numbered through. */
  function DetectionAt(result: AnalysisResult, k: nat): Detection
    requires k < |result.draftItems| + |result.reviewItems|
  {
    var n := |result.draftItems|;
    if k < n then Row(result.run, k, EncodeItem(result.draftItems[k], result.schemaVersion, false))
    else Row(result.run, k, EncodeItem(result.reviewItems[k - n], result.schemaVersion, true))
  }

  function DetectionsOf(result: AnalysisResult): (rows: seq<Detection>)
    ensures |rows| == |result.draftItems| + |result.reviewItems|
    ensures forall k :: 0 <= k < |rows| ==> rows[k] == DetectionAt(result, k)
  {
    seq(|result.draftItems| + |result.reviewItems|,
        k requires 0 <= k < |result.draftItems| + |result.reviewItems| => DetectionAt(result, k))
  }

  function SuggestionsOf(result: AnalysisResult): (rows: seq<Suggestion>)
    ensures |rows| == |result.locations|
    ensures forall k :: 0 <= k < |rows| ==> rows[k] == Row(result.run, k, EncodeLocation(result.locations[k]))
  {
    seq(|result.locations|,
        k requires 0 <= k < |result.locations| => Row(result.run, k, EncodeLocation(result.locations[k])))
  }

  // ---------------------------------------------------------------- decoding

  function DecodeItem(columns: ItemColumns): DraftItem {
    DraftItem(columns.itemKey, columns.description, columns.name, columns.quantity, columns.unit, columns.workNote,
              columns.confidence, columns.sources)
  }

  function DecodeLocation(columns: LocationColumns): DraftLocation {
    DraftLocation(columns.location, columns.kind, columns.residence, Measured(columns.floorStatus, columns.floorValue),
                  columns.elevator, columns.stairs, columns.parking, Measured(columns.carryStatus, columns.carryValue),
                  columns.accessNote, columns.confidence, columns.reviewFields, columns.sources)
  }

  /** The items with the given review flag, in the order of their rows. */
  function Items(rows: seq<Detection>, reviewRequired: bool): seq<DraftItem>
    decreases |rows|
  {
    if rows == [] then []
    else
      var last := rows[|rows| - 1];
      Items(rows[..|rows| - 1], reviewRequired)
      + if last.columns.reviewRequired == reviewRequired then [DecodeItem(last.columns)] else []
  }

  function Locations(rows: seq<Suggestion>): seq<DraftLocation> {
    seq(|rows|, k requires 0 <= k < |rows| => DecodeLocation(rows[k].columns))
  }

  function Decoded(run: RunId, capture: CaptureId, models: ModelColumns, items: seq<Detection>,
                   locations: seq<Suggestion>): AnalysisResult
  {
    AnalysisResult(run, capture, models.modelName, models.modelVersion, models.promptVersion, models.schemaVersion,
                   Items(items, false), Items(items, true), Locations(locations))
  }

  // ----------------------------------------------------------- ordered query

  ghost predicate Increasing<T>(rows: seq<Row<T>>) {
    forall i, j :: 0 <= i < j < |rows| ==> rows[i].ordinal < rows[j].ordinal
  }

  /** The rows of one run in a table. */
  function RowsOf<T(==)>(table: set<Row<T>>, run: RunId): set<Row<T>> {
    set row | row in table && row.run == run
  }

  function Elements<T(==)>(s: seq<T>): set<T> {
    set x | x in s
  }

  /** What selecting a run's rows ordered by ordinal may answer. */
  ghost predicate Fetched<T>(rows: seq<Row<T>>, table: set<Row<T>>, run: RunId) {
    Increasing(rows) && Elements(rows) == RowsOf(table, run)
  }

  /** The unique constraint on run and ordinal. */
  ghost predicate UniqueOrdinals<T>(table: set<Row<T>>) {
    forall r, s :: r in table && s in table && r.run == s.run && r.ordinal == s.ordinal ==> r == s
  }

  lemma NoElements<T>(s: seq<T>)
    ensures Elements(s) == {} <==> s == []
  {
    if s != [] {
      assert s[0] in Elements(s);
    }
  }

  lemma ElementsAppend<T>(s: seq<T>, x: T)
    ensures Elements(s + [x]) == Elements(s) + {x}
  {
    assert (s + [x])[|s|] == x;
  }

  /** An ordered query has one answer. */
  lemma {:induction false} FetchIsUnique<T>(s: seq<Row<T>>, t: seq<Row<T>>)
    requires Increasing(s) && Increasing(t) && Elements(s) == Elements(t)
    ensures s == t
    decreases |s|
  {
    NoElements(s);
    NoElements(t);
    if s != [] {
      var m, n := |s| - 1, |t| - 1;
      assert s[m] in Elements(t) && t[n] in Elements(s);
      var i :| 0 <= i <= n && t[i] == s[m];
      var j :| 0 <= j <= m && s[j] == t[n];
      assert i == n && j == m;
      LastRemoved(s);
      LastRemoved(t);
      FetchIsUnique(s[..m], t[..n]);
    }
  }

  lemma LastRemoved<T>(s: seq<Row<T>>)
    requires Increasing(s) && s != []
    ensures Elements(s[..|s| - 1]) == Elements(s) - {s[|s| - 1]}
    ensures Increasing(s[..|s| - 1])
  {
    var n := |s| - 1;
    forall x | x in Elements(s) && x != s[n] ensures x in Elements(s[..n]) {
      var i :| 0 <= i < |s| && s[i] == x;
      assert s[..n][i] == x;
    }
    forall x | x in Elements(s[..n]) ensures x != s[n] {
      var i :| 0 <= i < n && s[..n][i] == x;
    }
  }

  lemma IncreasingAppend<T>(rows: seq<Row<T>>, last: Row<T>)
    requires Increasing(rows) && forall r :: r in rows ==> r.ordinal < last.ordinal
    ensures Increasing(rows + [last])
  {
  }

  /** The rows fetched so far, in order, and all before the rest. */
  ghost predicate FetchedBefore<T>(rows: seq<Row<T>>, rest: set<Row<T>>, table: set<Row<T>>, run: RunId) {
    && Increasing(rows)
    && rest <= RowsOf(table, run)
    && Elements(rows) == RowsOf(table, run) - rest
    && forall r, s :: r in rows && s in rest ==> r.ordinal < s.ordinal
  }

  lemma FetchNext<T>(rows: seq<Row<T>>, rest: set<Row<T>>, table: set<Row<T>>, run: RunId, least: Row<T>)
    requires UniqueOrdinals(table) && FetchedBefore(rows, rest, table, run)
    requires least in rest && forall r :: r in rest ==> least.ordinal <= r.ordinal
    ensures FetchedBefore(rows + [least], rest - {least}, table, run)
  {
    ElementsAppend(rows, least);
    IncreasingAppend(rows, least);
    hide Increasing;
    forall r | r in rest - {least} ensures least.ordinal < r.ordinal {}
    hide UniqueOrdinals, Elements;
  }

  /** Selects the rows of a run in the order of their ordinals. */
  method FetchInOrder<T(==)>(table: set<Row<T>>, run: RunId) returns (rows: seq<Row<T>>)
    requires UniqueOrdinals(table)
    ensures Fetched(rows, table, run)
  {
    rows := [];
    var rest := RowsOf(table, run);
    NoElements(rows);
    assert FetchedBefore(rows, rest, table, run);
    while rest != {}
      invariant FetchedBefore(rows, rest, table, run)
      decreases |rest|
    {
      hide FetchedBefore, UniqueOrdinals, RowsOf;
      var least := Least(rest);
      FetchNext(rows, rest, table, run, least);
      rest := rest - {least};
      rows := rows + [least];
    }
  }

  method Least<T(==)>(rows: set<Row<T>>) returns (least: Row<T>)
    requires rows != {}
    ensures least in rows && forall r :: r in rows ==> least.ordinal <= r.ordinal
  {
    least :| least in rows;
    var rest := rows - {least};
    while rest != {}
      invariant rest <= rows && least in rows
      invariant forall r :: r in rows - rest ==> least.ordinal <= r.ordinal
      decreases |rest|
    {
      var next :| next in rest;
      if next.ordinal < least.ordinal {
        least := next;
      }
      rest := rest - {next};
    }
  }

  // -------------------------------------------------------------- round trip

  lemma ItemsAppend(rows: seq<Detection>, n: nat, reviewRequired: bool)
    requires n < |rows|
    ensures Items(rows[..n + 1], reviewRequired)
            == Items(rows[..n], reviewRequired)
               + if rows[n].columns.reviewRequired == reviewRequired then [DecodeItem(rows[n].columns)] else []
  {
    assert rows[..n + 1][..n] == rows[..n];
  }

  lemma DecodeEncodedItem(item: DraftItem, schemaVersion: int, reviewRequired: bool)
    ensures DecodeItem(EncodeItem(item, schemaVersion, reviewRequired)) == item
    ensures EncodeItem(item, schemaVersion, reviewRequired).reviewRequired == reviewRequired
  {
  }

  lemma {:induction false} ItemsOfPrefix(result: AnalysisResult, n: nat)
    requires n <= |result.draftItems| + |result.reviewItems|
    ensures var d := |result.draftItems|;
            && Items(DetectionsOf(result)[..n], false) == result.draftItems[..if n < d then n else d]
            && Items(DetectionsOf(result)[..n], true) == result.reviewItems[..if n < d then 0 else n - d]
    decreases n
  {
    if n > 0 {
      var d, k := |result.draftItems|, n - 1;
      ItemsOfPrefix(result, k);
      ItemsAppend(DetectionsOf(result), k, false);
      ItemsAppend(DetectionsOf(result), k, true);
      assert DetectionsOf(result)[k] == DetectionAt(result, k);
      hide Items, DetectionsOf, DecodeItem, EncodeItem;
      if k < d {
        DecodeEncodedItem(result.draftItems[k], result.schemaVersion, false);
      } else {
        DecodeEncodedItem(result.reviewItems[k - d], result.schemaVersion, true);
      }
    }
  }

  /** Decoding the rows of a result gives the result: item order and the split are rebuilt from ordinals and flags. */
  lemma DecodeOfEncoded(result: AnalysisResult)
    ensures Decoded(result.run, result.capture, ModelsOf(result), DetectionsOf(result), SuggestionsOf(result)) == result
  {
    var rows := DetectionsOf(result);
    ItemsOfPrefix(result, |rows|);
    assert rows[..|rows|] == rows;
    assert Locations(SuggestionsOf(result)) == result.locations;
  }

  /**
   Round trip: whatever else the tables hold, adding the rows of a result for a run without rows and
   then reading that run's rows back in order decodes to an equal result.
   */
  lemma RoundTrip(result: AnalysisResult, detections: set<Detection>, suggestions: set<Suggestion>,
                  items: seq<Detection>, locations: seq<Suggestion>)
    requires RowsOf(detections, result.run) == {} && RowsOf(suggestions, result.run) == {}
    requires Fetched(items, detections + Elements(DetectionsOf(result)), result.run)
    requires Fetched(locations, suggestions + Elements(SuggestionsOf(result)), result.run)
    ensures Decoded(result.run, result.capture, ModelsOf(result), items, locations) == result
  {
    AddedRows(detections, DetectionsOf(result), result.run);
    AddedRows(suggestions, SuggestionsOf(result), result.run);
    FetchIsUnique(items, DetectionsOf(result));
    FetchIsUnique(locations, SuggestionsOf(result));
    DecodeOfEncoded(result);
  }

  lemma AddedRows<T>(table: set<Row<T>>, rows: seq<Row<T>>, run: RunId)
    requires RowsOf(table, run) == {} && forall row :: row in rows ==> row.run == run
    ensures RowsOf(table + Elements(rows), run) == Elements(rows)
  {
    forall row | row in table ensures row.run != run {
      assert row !in RowsOf(table, run);
    }
  }

  // ------------------------------------------------------------ table checks

  /** The check constraints of the detection table. */
  predicate DetectionOk(row: Detection) {
    var c := row.columns;
    && c.confidence >= 0.0 && c.confidence <= 1.0
    && |c.itemKey| > 0
    && |c.description| > 0
    && ((c.schemaVersion == 1 && c.name.None? && c.quantity.None? && c.unit.None? && c.workNote.None?)
        || (c.schemaVersion == 2
            && c.name.Some? && |c.name.value| > 0
            && (if c.reviewRequired then c.quantity.Some? <==> c.unit.Some? else c.quantity.Some? && c.unit.Some?)
            && (c.quantity.Some? ==> c.quantity.value >= 1)
            && (c.unit.Some? ==> |c.unit.value| > 0)
            && (c.workNote.Some? ==> |c.workNote.value| > 0)))
  }

  /** The check constraints of the suggestion table; its enumerations are types here. */
  predicate SuggestionOk(row: Suggestion) {
    var c := row.columns;
    && (c.floorStatus == Known <==> c.floorValue.Some?)
    && (c.floorValue.Some? ==> -10 <= c.floorValue.value <= 200)
    && (c.carryStatus == Known <==> c.carryValue.Some?)
    && (c.carryValue.Some? ==> 0 <= c.carryValue.value <= 100_000)
    && (c.accessNote.Some? ==> |c.accessNote.value| > 0)
    && c.confidence >= 0.0 && c.confidence <= 1.0
  }

  /** The unique constraints of the suggestion table beside its ordinals. */
  predicate DistinctPlaces(rows: seq<Suggestion>) {
    forall i, j :: 0 <= i < j < |rows| ==>
      rows[i].columns.location != rows[j].columns.location && rows[i].columns.kind != rows[j].columns.kind
  }

  /** Every row of a valid result satisfies its table's checks, so storing one is never refused. */
  lemma ValidResultsAreStorable(result: AnalysisResult)
    requires ValidResult(result)
    ensures forall row :: row in DetectionsOf(result) ==> DetectionOk(row)
    ensures forall row :: row in SuggestionsOf(result) ==> SuggestionOk(row)
    ensures DistinctPlaces(SuggestionsOf(result))
    ensures UniqueOrdinals(Elements(DetectionsOf(result))) && UniqueOrdinals(Elements(SuggestionsOf(result)))
  {
    var rows := DetectionsOf(result);
    var items := result.draftItems + result.reviewItems;
    forall k | 0 <= k < |rows| ensures DetectionOk(rows[k]) {
      assert items[k] in items && ValidItem(items[k]);
      assert k < |result.draftItems| ==> items[k] in result.draftItems;
      assert k >= |result.draftItems| ==> items[k] in result.reviewItems;
    }
    forall k | 0 <= k < |result.locations| ensures SuggestionOk(SuggestionsOf(result)[k]) {
      assert result.locations[k] in result.locations;
    }
  }

  /** What the checks enforce beyond the row itself: the stored shape decides the version of a decoded result. */
  lemma StoredShapeIsTheVersion(result: AnalysisResult)
    requires forall row :: row in DetectionsOf(result) ==> DetectionOk(row)
    requires result.draftItems != [] || result.reviewItems != []
    ensures result.schemaVersion in {1, 2}
    ensures forall item :: item in result.draftItems + result.reviewItems ==>
              (item.name.Some? <==> result.schemaVersion == 2)
  {
    var rows := DetectionsOf(result);
    var items := result.draftItems + result.reviewItems;
    assert rows[0] in rows;
    forall k | 0 <= k < |items| ensures items[k].name.Some? <==> result.schemaVersion == 2 {
      assert rows[k] in rows;
    }
  }

  // ---------------------------------------------------------- the validators

  /** The widths of the detection table's columns. */
  predicate DetectionFits(row: Detection) {
    var c := row.columns;
    && |c.itemKey| <= 100
    && |c.description| <= 2000
    && (c.name.Some? ==> |c.name.value| <= 200)
    && (c.unit.Some? ==> |c.unit.value| <= 20)
    && (c.workNote.Some? ==> |c.workNote.value| <= 500)
  }

  predicate SuggestionFits(row: Suggestion) {
    row.columns.accessNote.Some? ==> |row.columns.accessNote.value| <= 1000
  }

  /** All rows of a result are within the tables' checks, widths and unique constraints. */
  predicate TablesAccept(result: AnalysisResult) {
    && (forall row :: row in DetectionsOf(result) ==> DetectionOk(row) && DetectionFits(row))
    && (forall row :: row in SuggestionsOf(result) ==> SuggestionOk(row) && SuggestionFits(row))
    && DistinctPlaces(SuggestionsOf(result))
  }

  predicate Named(text: string) {
    text != "" && |text| <= 100
  }

  /** As many different elements as elements. */
  ghost predicate AllDifferent<T>(s: seq<T>) {
    |Elements(s)| == |s|
  }

  /** What the validators require and no table does: nothing is named twice, and everything of version 2 has its sources. */
  ghost predicate BeyondTables(result: AnalysisResult) {
    var items, locations := result.draftItems + result.reviewItems, result.locations;
    && Named(result.modelName) && Named(result.modelVersion) && Named(result.promptVersion)
    && (result.schemaVersion == 1 || result.schemaVersion == 2)
    && (result.schemaVersion == 1 ==> |locations| == 0)
    && (result.schemaVersion == 2 ==>
          && AllDifferent(seq(|items|, k requires 0 <= k < |items| => items[k].itemKey))
          && (forall k :: 0 <= k < |items| ==> |items[k].sources| > 0 && AllDifferent(items[k].sources))
          && (forall k :: 0 <= k < |locations| ==> |locations[k].sources| > 0))
    && (forall k :: 0 <= k < |locations| ==> AllDifferent(locations[k].reviewFields) && AllDifferent(locations[k].sources))
  }

  lemma {:induction false} FewElements<T>(s: seq<T>)
    ensures |Elements(s)| <= |s|
    decreases |s|
  {
    if s != [] {
      var n := |s| - 1;
      assert s[..n] + [s[n]] == s;
      ElementsAppend(s[..n], s[n]);
      FewElements(s[..n]);
    }
  }

  lemma {:induction false} UniqueIff<T>(s: seq<T>)
    ensures Unique(s) <==> AllDifferent(s)
    decreases |s|
  {
    if s != [] {
      var n := |s| - 1;
      var front, last := s[..n], s[n];
      assert front + [last] == s;
      ElementsAppend(front, last);
      UniqueIff(front);
      FewElements(front);
      if last in front {
        var i :| 0 <= i < n && front[i] == last;
        assert s[i] == s[n];
        assert Elements(front) + {last} == Elements(front);
      } else {
        assert last !in Elements(front);
        assert forall i :: 0 <= i < n ==> s[i] in front;
      }
    }
  }

  lemma KeysIff(items: seq<DraftItem>)
    ensures DistinctKeys(items) <==> AllDifferent(seq(|items|, k requires 0 <= k < |items| => items[k].itemKey))
  {
    var keys := seq(|items|, k requires 0 <= k < |items| => items[k].itemKey);
    UniqueIff(keys);
    hide AllDifferent;
    assert forall k :: 0 <= k < |items| ==> keys[k] == items[k].itemKey;
  }

  /** The columns of one item are accepted exactly if the item is valid and has its version's shape. */
  predicate ItemShape(item: DraftItem, version: int, review: bool) {
    if version == 1 then item.name.None? && item.quantity.None? && item.unit.None? && item.workNote.None?
    else item.name.Some? && (item.quantity.Some? <==> item.unit.Some?) && (review || item.quantity.Some?)
  }

  lemma ItemRowIff(run: RunId, k: nat, item: DraftItem, version: int, review: bool)
    requires version == 1 || version == 2
    ensures var row := Row(run, k, EncodeItem(item, version, review));
            DetectionOk(row) && DetectionFits(row) <==> ValidItem(item) && ItemShape(item, version, review)
  {
  }

  lemma LocationRowIff(run: RunId, k: nat, location: DraftLocation)
    ensures var row := Row(run, k, EncodeLocation(location));
            SuggestionOk(row) && SuggestionFits(row) && Unique(location.reviewFields) && Unique(location.sources)
            <==> ValidLocation(location)
  {
  }

  ghost predicate ItemsValid(items: seq<DraftItem>, version: int, review: bool) {
    forall item :: item in items ==> ValidItem(item) && ItemShape(item, version, review)
  }

  lemma DetectionRowsIff(result: AnalysisResult)
    requires result.schemaVersion == 1 || result.schemaVersion == 2
    ensures (forall row :: row in DetectionsOf(result) ==> DetectionOk(row) && DetectionFits(row))
            <==> ItemsValid(result.draftItems, result.schemaVersion, false) && ItemsValid(result.reviewItems, result.schemaVersion, true)
  {
    var rows, drafts, reviews := DetectionsOf(result), result.draftItems, result.reviewItems;
    forall k | 0 <= k < |rows|
      ensures DetectionOk(rows[k]) && DetectionFits(rows[k]) <==>
                if k < |drafts| then ValidItem(drafts[k]) && ItemShape(drafts[k], result.schemaVersion, false)
                else ValidItem(reviews[k - |drafts|]) && ItemShape(reviews[k - |drafts|], result.schemaVersion, true)
    {
      if k < |drafts| { ItemRowIff(result.run, k, drafts[k], result.schemaVersion, false); }
      else { ItemRowIff(result.run, k, reviews[k - |drafts|], result.schemaVersion, true); }
    }
    hide ValidItem, ItemShape, DetectionOk, DetectionFits;
    if forall row :: row in rows ==> DetectionOk(row) && DetectionFits(row) {
      forall k | 0 <= k < |drafts| ensures ValidItem(drafts[k]) && ItemShape(drafts[k], result.schemaVersion, false) {
        assert rows[k] in rows;
      }
      forall k | 0 <= k < |reviews| ensures ValidItem(reviews[k]) && ItemShape(reviews[k], result.schemaVersion, true) {
        assert rows[k + |drafts|] in rows;
      }
    }
  }

  lemma SuggestionRowsIff(result: AnalysisResult)
    ensures (forall row :: row in SuggestionsOf(result) ==> SuggestionOk(row) && SuggestionFits(row))
            && (forall l :: l in result.locations ==> Unique(l.reviewFields) && Unique(l.sources))
            <==> forall l :: l in result.locations ==> ValidLocation(l)
    ensures DistinctPlaces(SuggestionsOf(result)) <==> DistinctLocations(result.locations)
  {
    var rows := SuggestionsOf(result);
    forall k | 0 <= k < |rows|
      ensures ValidLocation(result.locations[k]) <==>
                && SuggestionOk(rows[k]) && SuggestionFits(rows[k])
                && Unique(result.locations[k].reviewFields) && Unique(result.locations[k].sources)
      ensures rows[k] in rows && result.locations[k] in result.locations
    {
      LocationRowIff(result.run, k, result.locations[k]);
    }
    hide SuggestionOk, SuggestionFits, ValidLocation, Unique;
  }

  lemma ShapesIff(result: AnalysisResult)
    requires result.schemaVersion == 1 || result.schemaVersion == 2
    ensures (forall item :: item in result.draftItems + result.reviewItems ==> ValidItem(item))
            && (if result.schemaVersion == 1 then ShapeOne(result) else ShapeTwo(result))
            <==> ItemsValid(result.draftItems, result.schemaVersion, false)
                 && ItemsValid(result.reviewItems, result.schemaVersion, true)
                 && (result.schemaVersion == 1 ==> result.locations == [])
                 && (result.schemaVersion == 2 ==>
                       && DistinctKeys(result.draftItems + result.reviewItems)
                       && DistinctLocations(result.locations)
                       && (forall item :: item in result.draftItems + result.reviewItems ==> item.sources != [] && Unique(item.sources))
                       && (forall l :: l in result.locations ==> l.sources != []))
  {
    hide ValidItem, DistinctKeys, DistinctLocations, Unique;
  }

  /** The validators accept exactly the results whose rows the tables accept, as far as the tables look. */
  lemma ValidatedIff(result: AnalysisResult)
    ensures ValidResult(result) <==> TablesAccept(result) && BeyondTables(result)
  {
    var items, locations := result.draftItems + result.reviewItems, result.locations;
    if result.schemaVersion == 1 || result.schemaVersion == 2 {
      DetectionRowsIff(result);
      SuggestionRowsIff(result);
      ShapesIff(result);
      KeysIff(items);
      forall k | 0 <= k < |items| ensures items[k] in items && (Unique(items[k].sources) <==> AllDifferent(items[k].sources)) {
        UniqueIff(items[k].sources);
      }
      forall k | 0 <= k < |locations|
        ensures locations[k] in locations
        ensures Unique(locations[k].reviewFields) <==> AllDifferent(locations[k].reviewFields)
        ensures Unique(locations[k].sources) <==> AllDifferent(locations[k].sources)
      {
        UniqueIff(locations[k].reviewFields);
        UniqueIff(locations[k].sources);
      }
    }
    hide ItemsValid, Unique, AllDifferent, DetectionOk, DetectionFits, SuggestionOk, SuggestionFits, DistinctKeys,
         DistinctLocations, DistinctPlaces, ValidItem, ValidLocation, ShapeOne, ShapeTwo;
  }
}
