/** `TrackerStore`: trackers and the categories they are filed under. A
    tracker is found by its id (the first row with it); a category by its
    title, and created when none has it. */
module TrackerStores {
  import opened Common
  import opened WeekDays
  import opened Tables
  import opened RecordStores

  /** `fetchTracker(by:)`: the first row with the id, or `trackerNotFound`. */
  function FetchTracker(trackers: seq<TrackerRow>, id: UUID): (r: Result<nat, StoreError>)
    ensures r.Err? <==> forall row | row in trackers :: row.id != Some(id)
    ensures r.Err? ==> r.error == TrackerNotFound
    ensures r.Ok? ==> r.value < |trackers| && trackers[r.value].id == Some(id)
    ensures r.Ok? ==> forall j | 0 <= j < r.value :: trackers[j].id != Some(id)
  {
    match FirstIndex(trackers, TrackerRowId, Some(id))
    case Some(k) => Ok(k)
    case None => Err(TrackerNotFound)
  }

  /** The record rows `deleteTracker` keeps. */
  function LacksId(id: UUID): RecordRow -> bool
  {
    (row: RecordRow) => row.id != Some(id)
  }

  /** A tracker row written from `t` and filed under the category `oid`. */
  function Attached(row: TrackerRow, t: Tracker, oid: nat): TrackerRow
  {
    Written(row, t).(category := Some(oid))
  }

  /** A row written from `t` and attached to the category found for `title`
      reads back as `t`, and its category reads back as `title`. */
  lemma AttachedReadsBack(categories: seq<CategoryRow>, row: TrackerRow, t: Tracker, title: string, known: set<int>)
    requires DistinctOids(categories) && AllKnown(t.schedule, known)
    requires CategoryOidFor(categories, title).Some?
    ensures MakeTracker(Attached(row, t, CategoryOidFor(categories, title).value), known) == Some(t)
    ensures TitleOfOid(categories, CategoryOidFor(categories, title).value) == Some(title)
  {
    var oid := CategoryOidFor(categories, title).value;
    WrittenReadsBack(row, t, known);
    var i :| 0 <= i < |categories| && categories[i] == CategoryRow(oid, Some(title));
    TitleOfOidFinds(categories, i);
  }

  /** After `deleteTracker(id)` no record of the tracker is left, and every
      other tracker's records are exactly as before. */
  lemma DeleteTrackerRecordsSpec(records: seq<RecordRow>, id: UUID, other: UUID)
    requires other != id
    ensures CompletionCount(Filter(records, LacksId(id)), id) == 0
    ensures FetchRecords(Filter(records, LacksId(id)), other) == FetchRecords(records, other)
    ensures CompletionCount(Filter(records, LacksId(id)), other) == CompletionCount(records, other)
  {
    FilterNone(Filter(records, LacksId(id)), HasId(id));
    FilterSubsumed(records, LacksId(id), HasId(other));
  }

  class TrackerStore {
    const context: Context

    constructor(context: Context)
      ensures this.context == context
    {
      this.context := context;
    }

    /** `getOrCreateCategory(with:)`: the first category with the title, or
      a new one with that title. */
    method GetOrCreateCategory(title: string) returns (oid: nat)
      requires context.Valid()
      modifies context
      ensures context.Valid()
      ensures CategoryOidFor(context.categories, title) == Some(oid)
      ensures CategoryOidFor(old(context.categories), title).Some? ==>
        oid == CategoryOidFor(old(context.categories), title).value &&
        context.categories == old(context.categories) && context.nextOid == old(context.nextOid)
      ensures CategoryOidFor(old(context.categories), title).None? ==>
        oid == old(context.nextOid) && context.nextOid == old(context.nextOid) + 1 &&
        context.categories == old(context.categories) + [CategoryRow(oid, Some(title))]
      ensures context.trackers == old(context.trackers) && context.records == old(context.records)
    {
      match CategoryOidFor(context.categories, title)
      case Some(existing) =>
        oid := existing;
      case None =>
        oid := context.InsertCategory(title);
        assert context.categories[|context.categories| - 1] == CategoryRow(oid, Some(title));
    }

    /** `addTracker(_:to:)`: a new row written from the tracker, filed under
      the category with the title, which is created if needed. */
    method AddTracker(tracker: Tracker, categoryTitle: string)
      requires context.Valid()
      modifies context
      ensures context.Valid()
      ensures CategoryOidFor(context.categories, categoryTitle).Some?
      ensures context.trackers ==
        old(context.trackers) + [Attached(EmptyTrackerRow, tracker, CategoryOidFor(context.categories, categoryTitle).value)]
      ensures CategoryOidFor(old(context.categories), categoryTitle).Some? ==>
        context.categories == old(context.categories) && context.nextOid == old(context.nextOid)
      ensures CategoryOidFor(old(context.categories), categoryTitle).None? ==>
        context.categories == old(context.categories) + [CategoryRow(old(context.nextOid), Some(categoryTitle))] &&
        context.nextOid == old(context.nextOid) + 1
      ensures context.records == old(context.records)
    {
      var category := GetOrCreateCategory(categoryTitle);
      var row := Written(EmptyTrackerRow, tracker);
      row := row.(category := Some(category));
      context.trackers := context.trackers + [row];
    }

    /** `deleteTracker(_:)`: throws when no tracker has the id; otherwise
      deletes every record with the id, then the first tracker row with it. */
    method DeleteTracker(id: UUID) returns (outcome: Outcome<StoreError>)
      requires context.Valid()
      modifies context
      ensures context.Valid()
      ensures FetchTracker(old(context.trackers), id).Err? ==>
        outcome == Fail(TrackerNotFound) &&
        context.trackers == old(context.trackers) && context.records == old(context.records)
      ensures FetchTracker(old(context.trackers), id).Ok? ==>
        outcome == Pass &&
        context.trackers == RemoveAt(old(context.trackers), FetchTracker(old(context.trackers), id).value) &&
        context.records == Filter(old(context.records), LacksId(id))
      ensures context.categories == old(context.categories) && context.nextOid == old(context.nextOid)
    {
      match FetchTracker(context.trackers, id)
      case Err(e) =>
        outcome := Fail(e);
      case Ok(k) =>
        context.records := KeepOnly(context.records, LacksId(id));
        context.trackers := RemoveAt(context.trackers, k);
        outcome := Pass;
    }

    /** `updateTracker(_:in:)`: throws when no tracker has the id, before
      any category is created; otherwise rewrites the first row with the id
      and files it under the category with the title. */
    method UpdateTracker(tracker: Tracker, categoryTitle: string) returns (outcome: Outcome<StoreError>)
      requires context.Valid()
      modifies context
      ensures context.Valid()
      ensures FetchTracker(old(context.trackers), tracker.id).Err? ==>
        outcome == Fail(TrackerNotFound) &&
        context.trackers == old(context.trackers) && context.categories == old(context.categories) &&
        context.nextOid == old(context.nextOid)
      ensures FetchTracker(old(context.trackers), tracker.id).Ok? ==>
        var k := FetchTracker(old(context.trackers), tracker.id).value;
        && outcome == Pass
        && CategoryOidFor(context.categories, categoryTitle).Some?
        && context.trackers == old(context.trackers)[k :=
             Attached(old(context.trackers)[k], tracker, CategoryOidFor(context.categories, categoryTitle).value)]
        && (CategoryOidFor(old(context.categories), categoryTitle).Some? ==>
             context.categories == old(context.categories) && context.nextOid == old(context.nextOid))
        && (CategoryOidFor(old(context.categories), categoryTitle).None? ==>
             context.categories == old(context.categories) + [CategoryRow(old(context.nextOid), Some(categoryTitle))] &&
             context.nextOid == old(context.nextOid) + 1)
      ensures context.records == old(context.records)
    {
      match FetchTracker(context.trackers, tracker.id)
      case Err(e) =>
        outcome := Fail(e);
      case Ok(k) =>
        var category := GetOrCreateCategory(categoryTitle);
        context.trackers := context.trackers[k := Attached(context.trackers[k], tracker, category)];
        outcome := Pass;
    }
  }
}
