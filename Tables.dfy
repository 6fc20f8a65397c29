/** The persistent store shared by the three stores: tables of tracker,
    category and completion-record rows, whose attributes are optional as in
    the data model, and the conversions from rows to the app's values.

    A row's schedule attribute holds the JSON encoding of the raw values of
    the tracker's weekdays; the encoding is modelled as the list of raw
    values itself. A tracker row refers to its category by the category
    row's object identifier `oid`; a category's trackers are the tracker
    rows that refer to it. */
module Tables {
  import opened Common
  import opened WeekDays

  /** The second-generation tracker, as the stores read and write it. */
  datatype Tracker = Tracker(id: UUID, title: string, color: string, emoji: string,
                             schedule: seq<Weekday>, isHabit: bool)

  datatype TrackerCategory = TrackerCategory(title: string, trackers: seq<Tracker>)

  datatype TrackerRecord = TrackerRecord(id: UUID, date: Day)

  /** The errors the stores throw. */
  datatype StoreError = TrackerNotFound | CategoryNotFound

  datatype TrackerRow = TrackerRow(id: Option<UUID>, title: Option<string>, color: Option<string>,
                                   emoji: Option<string>, schedule: Option<seq<int>>, isHabit: bool,
                                   category: Option<nat>)

  datatype CategoryRow = CategoryRow(oid: nat, title: Option<string>)

  datatype RecordRow = RecordRow(id: Option<UUID>, date: Option<Day>)

  /** A freshly inserted tracker object: every attribute unset. */
  const EmptyTrackerRow: TrackerRow := TrackerRow(None, None, None, None, None, false, None)

  /** The managed object context: one table per entity, in insertion order,
      and the next unused category object identifier. */
  class Context {
    var trackers: seq<TrackerRow>
    var categories: seq<CategoryRow>
    var records: seq<RecordRow>
    var nextOid: nat

    /** Category object identifiers are all used and all distinct, and no
      tracker row links to an identifier not yet handed out. */
    ghost predicate Valid()
      reads this
    {
      && (forall i | 0 <= i < |categories| :: categories[i].oid < nextOid)
      && DistinctOids(categories)
      && LinksBelow(trackers, nextOid)
    }

    constructor()
      ensures Valid()
      ensures trackers == [] && categories == [] && records == []
    {
      trackers := [];
      categories := [];
      records := [];
      nextOid := 0;
    }

    /** `TrackerCategoryCoreData(context:)` with its title set. */
    method InsertCategory(title: string) returns (oid: nat)
      requires Valid()
      modifies this
      ensures Valid()
      ensures oid == old(nextOid) && nextOid == oid + 1
      ensures categories == old(categories) + [CategoryRow(oid, Some(title))]
      ensures forall i | 0 <= i < |old(categories)| :: old(categories)[i].oid != oid
      ensures trackers == old(trackers) && records == old(records)
    {
      oid := nextOid;
      categories := categories + [CategoryRow(oid, Some(title))];
      nextOid := nextOid + 1;
    }
  }

  /** `Filter(s, keep)` computed one element at a time, as a `forEach` over
      the fetched objects that deletes those not kept. */
  method KeepOnly<T>(s: seq<T>, keep: T -> bool) returns (kept: seq<T>)
    ensures kept == Filter(s, keep)
  {
    kept := [];
    for i := 0 to |s|
      invariant kept == Filter(s[..i], keep)
    {
      assert s[..i + 1] == s[..i] + [s[i]];
      FilterAppend(s[..i], [s[i]], keep);
      if keep(s[i]) {
        kept := kept + [s[i]];
      }
    }
    assert s[..|s|] == s;
  }

  /** The index of the first row with the given value of `key`. */
  function FirstIndex<T, K(==)>(s: seq<T>, key: T -> K, value: K): (r: Option<nat>)
    ensures r.Some? ==> r.value < |s| && key(s[r.value]) == value
    ensures r.Some? ==> forall j | 0 <= j < r.value :: key(s[j]) != value
    ensures r.None? ==> forall j | 0 <= j < |s| :: key(s[j]) != value
  {
    if s == [] then None
    else if key(s[0]) == value then Some(0)
    else match FirstIndex(s[1..], key, value)
      case Some(k) => Some(k + 1)
      case None => None
  }

  function TrackerRowId(row: TrackerRow): Option<UUID> { row.id }
  function CategoryRowTitle(row: CategoryRow): Option<string> { row.title }
  function CategoryRowOid(row: CategoryRow): nat { row.oid }

  /** Every category link of a tracker row is below `bound`. */
  predicate LinksBelow(trackers: seq<TrackerRow>, bound: nat)
  {
    forall row | row in trackers && row.category.Some? :: row.category.value < bound
  }

  /** No two category rows share an object identifier. */
  predicate DistinctOids(categories: seq<CategoryRow>)
  {
    forall i, j | 0 <= i < j < |categories| :: categories[i].oid != categories[j].oid
  }

  /** The object identifier of the first category titled `title`. */
  function CategoryOidFor(categories: seq<CategoryRow>, title: string): (oid: Option<nat>)
    ensures oid.Some? <==> exists i | 0 <= i < |categories| :: categories[i].title == Some(title)
    ensures oid.Some? ==> exists i | 0 <= i < |categories| :: categories[i] == CategoryRow(oid.value, Some(title))
  {
    match FirstIndex(categories, CategoryRowTitle, Some(title))
    case Some(k) => Some(categories[k].oid)
    case None => None
  }

  /** The title of the category row with identifier `oid`: `None` when no
      row has it (a deleted category) or the row has no title. */
  function TitleOfOid(categories: seq<CategoryRow>, oid: nat): Option<string>
  {
    match FirstIndex(categories, CategoryRowOid, oid)
    case Some(k) => categories[k].title
    case None => None
  }

  /** With distinct identifiers, the row an identifier names is the only
      row with it, so its title is found again from the identifier. */
  lemma TitleOfOidFinds(categories: seq<CategoryRow>, i: nat)
    requires DistinctOids(categories) && i < |categories|
    ensures TitleOfOid(categories, categories[i].oid) == categories[i].title
  {
    var k := FirstIndex(categories, CategoryRowOid, categories[i].oid);
    assert k.Some?;
    assert !(k.value < i) && !(i < k.value);
  }

  /** The tracker rows that belong to the category `oid`, and the others. */
  function InCategory(oid: nat): TrackerRow -> bool
  {
    (row: TrackerRow) => row.category == Some(oid)
  }

  function NotInCategory(oid: nat): TrackerRow -> bool
  {
    (row: TrackerRow) => row.category != Some(oid)
  }

  /** `s` with the element at `k` deleted. */
  function RemoveAt<T>(s: seq<T>, k: nat): (r: seq<T>)
    requires k < |s|
    ensures |r| == |s| - 1
    ensures forall j | 0 <= j < k :: r[j] == s[j]
    ensures forall j | k <= j < |r| :: r[j] == s[j + 1]
  {
    s[..k] + s[k + 1..]
  }

  // ---------------------------------------------------------------------
  // The schedule attribute

  /** `tracker.schedule.map { $0.rawValue }`, then encoded. */
  function EncodeSchedule(schedule: seq<Weekday>): (raw: seq<int>)
  {
    if schedule == [] then [] else [schedule[0].rawValue] + EncodeSchedule(schedule[1..])
  }

  /** Decoded as `[Int]`, then `compactMap { Weekday(rawValue: $0) }`. */
  function DecodeSchedule(raw: seq<int>, known: set<int>): (days: seq<Weekday>)
  {
    if raw == [] then []
    else
      var head := match WeekdayFromRaw(raw[0], known) case Some(d) => [d] case None => [];
      head + DecodeSchedule(raw[1..], known)
  }

  function IsKnown(known: set<int>): int -> bool
  {
    x => x in known
  }

  function WeekdayOf(x: int): Weekday { Weekday(x) }

  /** Decoding keeps the known raw values, in order, and drops the rest. */
  lemma {:induction false} DecodeKeepsKnownInOrder(raw: seq<int>, known: set<int>)
    ensures DecodeSchedule(raw, known) == Map(Filter(raw, IsKnown(known)), WeekdayOf)
  {
    if raw != [] {
      DecodeKeepsKnownInOrder(raw[1..], known);
    }
  }

  /** Every weekday of `schedule` is a case of `Weekday`. */
  predicate AllKnown(schedule: seq<Weekday>, known: set<int>)
  {
    forall d | d in schedule :: d.rawValue in known
  }

  /** Decoding what was encoded gives back the schedule. */
  lemma {:induction false} ScheduleRoundTrip(schedule: seq<Weekday>, known: set<int>)
    requires AllKnown(schedule, known)
    ensures DecodeSchedule(EncodeSchedule(schedule), known) == schedule
  {
    if schedule != [] {
      assert schedule[0] in schedule;
      ScheduleRoundTrip(schedule[1..], known);
      assert schedule == [schedule[0]] + schedule[1..];
    }
  }

  /** The record store decodes the data as `[Weekday]` directly: one
      unknown raw value fails the whole decode, which then gives `[]`. */
  function DecodeWholeSchedule(raw: seq<int>, known: set<int>): (days: seq<Weekday>)
  {
    if forall x | x in raw :: x in known then DecodeSchedule(raw, known) else []
  }

  /** The whole-list decode gives either every raw value as a weekday, in
      order, or nothing. */
  lemma DecodeWholeScheduleSpec(raw: seq<int>, known: set<int>)
    ensures (forall x | x in raw :: x in known) ==> DecodeWholeSchedule(raw, known) == Map(raw, WeekdayOf)
    ensures (exists x | x in raw :: x !in known) ==> DecodeWholeSchedule(raw, known) == []
  {
    DecodeKeepsKnownInOrder(raw, known);
    if forall x | x in raw :: x in known {
      FilterAll(raw, IsKnown(known));
    }
  }

  lemma {:induction false} FilterAll<T>(s: seq<T>, p: T -> bool)
    requires forall x | x in s :: p(x)
    ensures Filter(s, p) == s
  {
    if s != [] {
      assert s[0] in s;
      FilterAll(s[1..], p);
      assert s == [s[0]] + s[1..];
    }
  }

  // ---------------------------------------------------------------------
  // Rows to values

  /** The private `updateTracker(_:with:)`: writes every attribute but the
      category; the schedule is stored encoded. */
  function Written(row: TrackerRow, t: Tracker): (r: TrackerRow)
  {
    row.(id := Some(t.id), title := Some(t.title), color := Some(t.color), emoji := Some(t.emoji),
         isHabit := t.isHabit, schedule := Some(EncodeSchedule(t.schedule)))
  }

  /** `makeTracker(from:)` of the tracker and category stores: no tracker
      without id, title, color and emoji; no schedule data means no days. */
  function MakeTracker(row: TrackerRow, known: set<int>): (t: Option<Tracker>)
    ensures t.Some? <==> row.id.Some? && row.title.Some? && row.color.Some? && row.emoji.Some?
  {
    if row.id.Some? && row.title.Some? && row.color.Some? && row.emoji.Some? then
      var schedule := if row.schedule.Some? then DecodeSchedule(row.schedule.value, known) else [];
      Some(Tracker(row.id.value, row.title.value, row.color.value, row.emoji.value, schedule, row.isHabit))
    else None
  }

  /** `makeTracker(from:)` of the record store: the schedule data is
      required too, and decoded all or nothing. */
  function MakeTrackerStrict(row: TrackerRow, known: set<int>): (t: Option<Tracker>)
    ensures t.Some? <==> row.id.Some? && row.title.Some? && row.color.Some? && row.emoji.Some? && row.schedule.Some?
  {
    if row.id.Some? && row.title.Some? && row.color.Some? && row.emoji.Some? && row.schedule.Some? then
      var schedule := DecodeWholeSchedule(row.schedule.value, known);
      Some(Tracker(row.id.value, row.title.value, row.color.value, row.emoji.value, schedule, row.isHabit))
    else None
  }

  /** Reading back a written row gives the tracker that was written, by
      either conversion, and writing leaves the category link alone. */
  lemma WrittenReadsBack(row: TrackerRow, t: Tracker, known: set<int>)
    requires AllKnown(t.schedule, known)
    ensures MakeTracker(Written(row, t), known) == Some(t)
    ensures MakeTrackerStrict(Written(row, t), known) == Some(t)
    ensures Written(row, t).category == row.category
  {
    ScheduleRoundTrip(t.schedule, known);
    EncodeKeepsRawValues(t.schedule);
  }

  lemma {:induction false} EncodeKeepsRawValues(schedule: seq<Weekday>)
    ensures forall x | x in EncodeSchedule(schedule) :: exists d | d in schedule :: d.rawValue == x
  {
    if schedule != [] {
      EncodeKeepsRawValues(schedule[1..]);
      assert schedule[0] in schedule;
      forall x | x in EncodeSchedule(schedule)
        ensures exists d | d in schedule :: d.rawValue == x
      {
        if x != schedule[0].rawValue {
          assert x in EncodeSchedule(schedule[1..]);
          var d :| d in schedule[1..] && d.rawValue == x;
          assert d in schedule;
        }
      }
    }
  }

  /** `trackers.compactMap(makeTracker)`. */
  function TrackersOf(rows: seq<TrackerRow>, known: set<int>): (ts: seq<Tracker>)
    ensures |ts| <= |rows|
  {
    if rows == [] then []
    else
      var head := match MakeTracker(rows[0], known) case Some(t) => [t] case None => [];
      head + TrackersOf(rows[1..], known)
  }

  /** A tracker is read from the rows iff some row converts to it. */
  lemma {:induction false} TrackersOfMembers(rows: seq<TrackerRow>, known: set<int>, t: Tracker)
    ensures t in TrackersOf(rows, known) <==> exists row | row in rows :: MakeTracker(row, known) == Some(t)
  {
    if rows != [] {
      TrackersOfMembers(rows[1..], known, t);
      assert forall row | row in rows :: row == rows[0] || row in rows[1..];
    }
  }

  /** Rows that decode are kept, in order; the others are dropped. */
  lemma {:induction false} TrackersOfWritten(rows: seq<TrackerRow>, ts: seq<Tracker>, known: set<int>)
    requires |rows| == |ts|
    requires forall i | 0 <= i < |ts| :: MakeTracker(rows[i], known) == Some(ts[i])
    ensures TrackersOf(rows, known) == ts
  {
    if rows != [] {
      TrackersOfWritten(rows[1..], ts[1..], known);
      assert ts == [ts[0]] + ts[1..];
    }
  }

  /** `makeRecord(from:)`: a record needs both its id and its date. */
  function MakeRecord(row: RecordRow): (r: Option<TrackerRecord>)
    ensures r.Some? <==> row.id.Some? && row.date.Some?
    ensures r.Some? ==> RecordRow(Some(r.value.id), Some(r.value.date)) == row
  {
    if row.id.Some? && row.date.Some? then Some(TrackerRecord(row.id.value, row.date.value)) else None
  }

  /** The row `addRecord` writes for a record. */
  function RowOf(r: TrackerRecord): RecordRow
  {
    RecordRow(Some(r.id), Some(r.date))
  }

  /** `records.compactMap(makeRecord)`: each record as often as its row. */
  function RecordsOf(rows: seq<RecordRow>): (rs: seq<TrackerRecord>)
    ensures forall r: TrackerRecord :: multiset(rs)[r] == multiset(rows)[RowOf(r)]
  {
    if rows == [] then []
    else
      var head := match MakeRecord(rows[0]) case Some(r) => [r] case None => [];
      assert rows == [rows[0]] + rows[1..];
      head + RecordsOf(rows[1..])
  }
}
