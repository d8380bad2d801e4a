/** The provider-neutral analysis result, and what its validators accept. */
module AnalysisContracts {
  import opened Common

  type RunId = nat
  type CaptureId = nat
  type LocationId = nat

  datatype LocationKind = Origin | Destination
  datatype Residence = Apartment | Villa | Officetel | House | Studio | OtherResidence | UnknownResidence
  datatype Elevator = ElevatorAvailable | ElevatorUnavailable | UnknownElevator
  datatype StairUsage = Required | NotRequired | UnknownStairs
  datatype ParkingAccess = ParkingAvailable | ParkingRestricted | ParkingUnavailable | UnknownParking
  datatype Knowledge = Known | Unknown
  datatype ConditionField =
    ResidenceField | FloorField | ElevatorField | StairsField | ParkingField | CarryDistanceField | AccessNoteField

  /** A number with an explicit unknown state. */
  datatype Measured = Measured(status: Knowledge, value: Option<int>)

  datatype DraftItem = DraftItem(
    itemKey: string,
    description: string,
    name: Option<string>,
    quantity: Option<int>,
    unit: Option<string>,
    workNote: Option<string>,
    confidence: real,
    sources: seq<AssetId>)

  datatype DraftLocation = DraftLocation(
    location: LocationId,
    kind: LocationKind,
    residence: Residence,
    floor: Measured,
    elevator: Elevator,
    stairs: StairUsage,
    parking: ParkingAccess,
    carryDistance: Measured,
    accessNote: Option<string>,
    confidence: real,
    reviewFields: seq<ConditionField>,
    sources: seq<AssetId>)

  datatype AnalysisResult = AnalysisResult(
    run: RunId,
    capture: CaptureId,
    modelName: string,
    modelVersion: string,
    promptVersion: string,
    schemaVersion: int,
    draftItems: seq<DraftItem>,
    reviewItems: seq<DraftItem>,
    locations: seq<DraftLocation>)

  // -------------------------------------------------------------- validators

  predicate Unique<T(==)>(s: seq<T>) {
    forall i, j :: 0 <= i < j < |s| ==> s[i] != s[j]
  }

  predicate Sized(text: string, max: nat) {
    1 <= |text| <= max
  }

  predicate SizedIfAny(text: Option<string>, max: nat) {
    text.Some? ==> Sized(text.value, max)
  }

  predicate Share(confidence: real) {
    0.0 <= confidence <= 1.0
  }

  /** Known needs a value within bounds, unknown forbids one. */
  predicate MeasuredWithin(m: Measured, low: int, high: int) {
    (m.status == Known <==> m.value.Some?) && (m.value.Some? ==> low <= m.value.value <= high)
  }

  predicate ValidItem(item: DraftItem) {
    && Sized(item.itemKey, 100)
    && Sized(item.description, 2000)
    && SizedIfAny(item.name, 200)
    && (item.quantity.Some? ==> item.quantity.value >= 1)
    && SizedIfAny(item.unit, 20)
    && SizedIfAny(item.workNote, 500)
    && Share(item.confidence)
  }

  predicate ValidLocation(location: DraftLocation) {
    && MeasuredWithin(location.floor, -10, 200)
    && MeasuredWithin(location.carryDistance, 0, 100_000)
    && SizedIfAny(location.accessNote, 1000)
    && Share(location.confidence)
    && Unique(location.reviewFields)
    && Unique(location.sources)
  }

  /** Version 1 has neither structured item fields nor location conditions. */
  predicate ShapeOne(result: AnalysisResult) {
    && result.locations == []
    && forall item :: item in result.draftItems + result.reviewItems ==>
         item.name.None? && item.quantity.None? && item.unit.None? && item.workNote.None?
  }

  predicate DistinctKeys(items: seq<DraftItem>) {
    forall i, j :: 0 <= i < j < |items| ==> items[i].itemKey != items[j].itemKey
  }

  predicate DistinctLocations(locations: seq<DraftLocation>) {
    forall i, j :: 0 <= i < j < |locations| ==>
      locations[i].location != locations[j].location && locations[i].kind != locations[j].kind
  }

  predicate ShapeTwo(result: AnalysisResult) {
    var items := result.draftItems + result.reviewItems;
    && (forall item :: item in items ==> item.name.Some? && item.sources != [] && Unique(item.sources))
    && (forall item :: item in result.draftItems ==> item.quantity.Some? && item.unit.Some?)
    && (forall item :: item in result.reviewItems ==> (item.quantity.Some? <==> item.unit.Some?))
    && DistinctKeys(items)
    && DistinctLocations(result.locations)
    && (forall location :: location in result.locations ==> location.sources != [])
  }

  predicate ValidResult(result: AnalysisResult) {
    && Sized(result.modelName, 100)
    && Sized(result.modelVersion, 100)
    && Sized(result.promptVersion, 100)
    && result.schemaVersion in {1, 2}
    && (forall item :: item in result.draftItems + result.reviewItems ==> ValidItem(item))
    && (forall location :: location in result.locations ==> ValidLocation(location))
    && (if result.schemaVersion == 1 then ShapeOne(result) else ShapeTwo(result))
  }
}
