/** `TrackerRecordStore`: completion records, one row per (tracker id, day)
    marked, kept as a multiset in the context's record table. Queries are
    functions of the record table they read. */
module RecordStores {
  import opened Common
  import opened WeekDays
  import opened Tables
  import Sorting

  /** The request predicate `id == %@`. */
  function HasId(id: UUID): RecordRow -> bool
  {
    (row: RecordRow) => row.id == Some(id)
  }

  /** The request predicate `id == %@ AND date == %@`. */
  function HasIdAndDate(id: UUID, date: Day): RecordRow -> bool
  {
    (row: RecordRow) => row.id == Some(id) && row.date == Some(date)
  }

  /** The rows `removeRecord` does not delete. */
  function NotIdAndDate(id: UUID, date: Day): RecordRow -> bool
  {
    (row: RecordRow) => !(row.id == Some(id) && row.date == Some(date))
  }

  /** `isTrackerCompleted(_:on:)`: the count of matching rows is positive. */
  predicate IsTrackerCompleted(records: seq<RecordRow>, id: UUID, date: Day)
  {
    |Filter(records, HasIdAndDate(id, date))| > 0
  }

  /** `completionCount(for:)`: the rows with the id, whatever their date. */
  function CompletionCount(records: seq<RecordRow>, id: UUID): (n: nat)
    ensures n <= |records|
    ensures n == 0 <==> forall row | row in records :: row.id != Some(id)
  {
    var matching := Filter(records, HasId(id));
    assert matching != [] ==> matching[0] in matching;
    |matching|
  }

  /** `fetchRecords(for:)`. */
  function FetchRecords(records: seq<RecordRow>, trackerId: UUID): seq<TrackerRecord>
  {
    RecordsOf(Filter(records, HasId(trackerId)))
  }

  /** `fetchAllTrackers()`: every tracker row that converts. */
  function FetchAllTrackers(trackers: seq<TrackerRow>, known: set<int>): (ts: seq<Tracker>)
    ensures |ts| <= |trackers|
    ensures forall t | t in ts :: exists row | row in trackers :: MakeTrackerStrict(row, known) == Some(t)
    ensures forall i | 0 <= i < |trackers| && MakeTrackerStrict(trackers[i], known).Some? ::
      MakeTrackerStrict(trackers[i], known).value in ts
  {
    if trackers == [] then []
    else
      var head := match MakeTrackerStrict(trackers[0], known) case Some(t) => [t] case None => [];
      assert forall row | row in trackers[1..] :: row in trackers;
      assert forall i | 1 <= i < |trackers| :: trackers[i] == trackers[1..][i - 1];
      head + FetchAllTrackers(trackers[1..], known)
  }

  /** The fetch order: date descending, then id ascending. */
  predicate LaterFirst(a: TrackerRecord, b: TrackerRecord)
  {
    a.date > b.date || (a.date == b.date && a.id <= b.id)
  }

  /** Only identical records tie, so the fetch order is fully determined. */
  lemma LaterFirstIsTotalOrder(rs: seq<TrackerRecord>)
    ensures Sorting.TotalPreorderOn(rs, LaterFirst)
    ensures forall a, b | LaterFirst(a, b) && LaterFirst(b, a) :: a == b
  {
  }

  /** A tracker is completed on a day iff its record's row is stored. */
  lemma IsTrackerCompletedSpec(records: seq<RecordRow>, id: UUID, date: Day)
    ensures IsTrackerCompleted(records, id, date) <==> RowOf(TrackerRecord(id, date)) in records
  {
    var row := RowOf(TrackerRecord(id, date));
    var matching := Filter(records, HasIdAndDate(id, date));
    if row in records {
      assert row in matching;
    }
    if |matching| > 0 {
      assert matching[0] in matching;
      assert matching[0] == row;
    }
  }

  /** After `addRecord(r)` the tracker is completed on r's date and its
      completion count has grown by one, repeats included; other trackers'
      counts are unchanged. */
  lemma AddRecordSpec(records: seq<RecordRow>, r: TrackerRecord, other: UUID)
    requires other != r.id
    ensures IsTrackerCompleted(records + [RowOf(r)], r.id, r.date)
    ensures CompletionCount(records + [RowOf(r)], r.id) == CompletionCount(records, r.id) + 1
    ensures CompletionCount(records + [RowOf(r)], other) == CompletionCount(records, other)
  {
    FilterAppend(records, [RowOf(r)], HasIdAndDate(r.id, r.date));
    FilterAppend(records, [RowOf(r)], HasId(r.id));
    FilterAppend(records, [RowOf(r)], HasId(other));
    assert Filter([RowOf(r)], HasId(r.id)) == [RowOf(r)];
    assert Filter([RowOf(r)], HasId(other)) == [];
  }

  /** After `addRecord(r)`, `fetchRecords(for: r.id)` gives one more `r`. */
  lemma AddRecordFetched(records: seq<RecordRow>, r: TrackerRecord)
    ensures multiset(FetchRecords(records + [RowOf(r)], r.id)) == multiset(FetchRecords(records, r.id)) + multiset{r}
  {
    forall x: TrackerRecord
      ensures multiset(FetchRecords(records + [RowOf(r)], r.id))[x] ==
              (multiset(FetchRecords(records, r.id)) + multiset{r})[x]
    {
      AddRecordFetchedOne(records, r, x);
    }
  }

  lemma AddRecordFetchedOne(records: seq<RecordRow>, r: TrackerRecord, x: TrackerRecord)
    ensures multiset(FetchRecords(records + [RowOf(r)], r.id))[x] ==
            multiset(FetchRecords(records, r.id))[x] + (if x == r then 1 else 0)
  {
    FilterCount(records + [RowOf(r)], HasId(r.id), RowOf(x));
    FilterCount(records, HasId(r.id), RowOf(x));
    assert multiset(records + [RowOf(r)]) == multiset(records) + multiset{RowOf(r)};
  }

  /** After `removeRecord(id, date)` the tracker is not completed on that
      date; every other row is kept as often as it was stored, so other
      trackers' counts do not change. */
  lemma RemoveRecordSpec(records: seq<RecordRow>, id: UUID, date: Day, other: UUID)
    requires other != id
    ensures !IsTrackerCompleted(Filter(records, NotIdAndDate(id, date)), id, date)
    ensures forall row | row != RowOf(TrackerRecord(id, date)) ::
      multiset(Filter(records, NotIdAndDate(id, date)))[row] == multiset(records)[row]
    ensures CompletionCount(Filter(records, NotIdAndDate(id, date)), other) == CompletionCount(records, other)
  {
    var kept := Filter(records, NotIdAndDate(id, date));
    FilterNone(kept, HasIdAndDate(id, date));
    forall row | row != RowOf(TrackerRecord(id, date))
      ensures multiset(kept)[row] == multiset(records)[row]
    {
      FilterCount(records, NotIdAndDate(id, date), row);
    }
    FilterSubsumed(records, NotIdAndDate(id, date), HasId(other));
  }

  /** `fetchRecords(for:)` gives only records of the tracker, each as often
      as its row is stored; rows missing the date are not among them. */
  lemma FetchRecordsSpec(records: seq<RecordRow>, trackerId: UUID)
    ensures forall r | r in FetchRecords(records, trackerId) :: r.id == trackerId
    ensures forall r: TrackerRecord ::
      (multiset(FetchRecords(records, trackerId))[r] == if r.id == trackerId then multiset(records)[RowOf(r)] else 0)
  {
    forall r: TrackerRecord
      ensures multiset(FetchRecords(records, trackerId))[r] ==
        if r.id == trackerId then multiset(records)[RowOf(r)] else 0
    {
      FilterCount(records, HasId(trackerId), RowOf(r));
    }
    forall r | r in FetchRecords(records, trackerId)
      ensures r.id == trackerId
    {
      assert multiset(FetchRecords(records, trackerId))[r] > 0;
    }
  }

  class TrackerRecordStore {
    const context: Context

    constructor(context: Context)
      ensures this.context == context
    {
      this.context := context;
    }

    /** `addRecord(_:)`: a new row with the record's id and date. */
    method AddRecord(record: TrackerRecord)
      modifies context
      ensures context.records == old(context.records) + [RowOf(record)]
      ensures context.trackers == old(context.trackers)
      ensures context.categories == old(context.categories) && context.nextOid == old(context.nextOid)
    {
      var row := EmptyRecordRow();
      row := row.(id := Some(record.id), date := Some(record.date));
      context.records := context.records + [row];
    }

    /** `removeRecord(with:date:)`: every row with both the id and the date
      is deleted. */
    method RemoveRecord(id: UUID, date: Day)
      modifies context
      ensures context.records == Filter(old(context.records), NotIdAndDate(id, date))
      ensures context.trackers == old(context.trackers)
      ensures context.categories == old(context.categories) && context.nextOid == old(context.nextOid)
    {
      context.records := KeepOnly(context.records, NotIdAndDate(id, date));
    }

    /** `fetchAllRecords()`: the records that convert, date descending, then
      id ascending. */
    method FetchAllRecords() returns (records: seq<TrackerRecord>)
      ensures multiset(records) == multiset(RecordsOf(context.records))
      ensures Sorting.SortedBy(records, LaterFirst)
    {
      LaterFirstIsTotalOrder(RecordsOf(context.records));
      records := Sorting.InsertionSort(RecordsOf(context.records), LaterFirst);
    }
  }

  /** `TrackerRecordCoreData(context:)`: both attributes unset. */
  function EmptyRecordRow(): RecordRow
  {
    RecordRow(None, None)
  }
}
