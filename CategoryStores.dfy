/** `TrackerCategoryStore`: categories found by title, each carrying the
    trackers filed under it. A category is stored with its own tracker
    rows; renaming and deleting act on the first category with the title. */
module CategoryStores {
  import opened Common
  import opened WeekDays
  import opened Tables
  import opened TrackerStores
  import Sorting

  /** `makeCategory(from:)`: no category without a title; its trackers are
      the rows filed under it that convert, the others dropped. */
  function MakeCategory(row: CategoryRow, trackers: seq<TrackerRow>, known: set<int>): (c: Option<TrackerCategory>)
    ensures c.Some? <==> row.title.Some?
    ensures c.Some? ==> c.value.title == row.title.value
  {
    if row.title.Some? then
      Some(TrackerCategory(row.title.value, TrackersOf(Filter(trackers, InCategory(row.oid)), known)))
    else None
  }

  /** A category read from the table holds exactly the trackers of the rows
      filed under it that convert. */
  lemma MakeCategoryMembers(row: CategoryRow, trackers: seq<TrackerRow>, known: set<int>, t: Tracker)
    requires row.title.Some?
    ensures t in MakeCategory(row, trackers, known).value.trackers <==>
      exists r | r in trackers :: r.category == Some(row.oid) && MakeTracker(r, known) == Some(t)
  {
    TrackersOfMembers(Filter(trackers, InCategory(row.oid)), known, t);
  }

  /** The index of the first category titled `title`: the fetch request
      `title == %@` and its `first`. */
  function FindCategory(categories: seq<CategoryRow>, title: string): (k: Option<nat>)
    ensures k.Some? ==> k.value < |categories| && categories[k.value].title == Some(title)
    ensures k.Some? ==> forall j | 0 <= j < k.value :: categories[j].title != Some(title)
    ensures k.None? ==> forall j | 0 <= j < |categories| :: categories[j].title != Some(title)
  {
    FirstIndex(categories, CategoryRowTitle, Some(title))
  }

  /** `fetchCategory(with:)`. */
  function FetchCategory(categories: seq<CategoryRow>, trackers: seq<TrackerRow>, title: string,
                         known: set<int>): (c: Option<TrackerCategory>)
    ensures c.None? <==> forall i | 0 <= i < |categories| :: categories[i].title != Some(title)
    ensures c.Some? ==> c.value.title == title
  {
    match FindCategory(categories, title)
    case Some(k) => MakeCategory(categories[k], trackers, known)
    case None => None
  }

  /** `getCategory(for:)`: the title of the category the tracker's first row
      is filed under, with no trackers; nil when there is no such row, it
      has no category, or the category has no title. */
  function GetCategory(trackers: seq<TrackerRow>, categories: seq<CategoryRow>, tracker: Tracker): (c: Option<TrackerCategory>)
    ensures c.Some? ==> c.value.trackers == []
    ensures (forall row | row in trackers :: row.id != Some(tracker.id)) ==> c.None?
    ensures c.Some? <==>
      && FetchTracker(trackers, tracker.id).Ok?
      && trackers[FetchTracker(trackers, tracker.id).value].category.Some?
      && TitleOfOid(categories, trackers[FetchTracker(trackers, tracker.id).value].category.value).Some?
    ensures c.Some? ==>
      c.value.title == TitleOfOid(categories, trackers[FetchTracker(trackers, tracker.id).value].category.value).value
  {
    match FetchTracker(trackers, tracker.id)
    case Err(_) => None
    case Ok(k) =>
      match trackers[k].category
      case None => None
      case Some(oid) =>
        match TitleOfOid(categories, oid)
        case None => None
        case Some(title) => Some(TrackerCategory(title, []))
  }

  /** After `addTracker(t, to: title)` of a tracker id not stored before,
      `getCategory(for: t)` names the category `title`. */
  lemma GetCategoryAfterAddTracker(trackers: seq<TrackerRow>, categories: seq<CategoryRow>, t: Tracker,
                                   title: string, known: set<int>)
    requires DistinctOids(categories) && AllKnown(t.schedule, known)
    requires CategoryOidFor(categories, title).Some?
    requires forall row | row in trackers :: row.id != Some(t.id)
    ensures GetCategory(trackers + [Attached(EmptyTrackerRow, t, CategoryOidFor(categories, title).value)],
                        categories, t) == Some(TrackerCategory(title, []))
  {
    var oid := CategoryOidFor(categories, title).value;
    var trackers' := trackers + [Attached(EmptyTrackerRow, t, oid)];
    AttachedReadsBack(categories, EmptyTrackerRow, t, title, known);
    var r := FetchTracker(trackers', t.id);
    assert trackers'[|trackers|].id == Some(t.id);
    forall j | 0 <= j < |trackers|
      ensures trackers'[j].id != Some(t.id)
    {
      assert trackers'[j] == trackers[j] && trackers[j] in trackers;
    }
    assert r.Ok? && r.value == |trackers|;
  }

  /** After a successful `updateTracker(t, in: title)`, which rewrites the
      first row with t's id and files it under the category found or created
      for `title`, `getCategory(for: t)` names the category `title`. */
  lemma GetCategoryAfterUpdateTracker(trackers: seq<TrackerRow>, categories: seq<CategoryRow>, t: Tracker,
                                      title: string, known: set<int>)
    requires DistinctOids(categories) && AllKnown(t.schedule, known)
    requires FetchTracker(trackers, t.id).Ok? && CategoryOidFor(categories, title).Some?
    ensures var k := FetchTracker(trackers, t.id).value;
      GetCategory(trackers[k := Attached(trackers[k], t, CategoryOidFor(categories, title).value)], categories, t)
        == Some(TrackerCategory(title, []))
  {
    var k := FetchTracker(trackers, t.id).value;
    var oid := CategoryOidFor(categories, title).value;
    var trackers' := trackers[k := Attached(trackers[k], t, oid)];
    AttachedReadsBack(categories, trackers[k], t, title, known);
    assert trackers'[k].id == Some(t.id);
    forall j | 0 <= j < k
      ensures trackers'[j].id != Some(t.id)
    {
      assert trackers'[j] == trackers[j];
    }
    assert FetchTracker(trackers', t.id) == Ok(k);
  }

  /** After `deleteCategory` removes the category a tracker is filed under,
      `getCategory(for:)` of that tracker gives nil. */
  lemma GetCategoryAfterDeleteCategory(trackers: seq<TrackerRow>, categories: seq<CategoryRow>, t: Tracker, title: string)
    requires DistinctOids(categories)
    requires FindCategory(categories, title).Some? && FetchTracker(trackers, t.id).Ok?
    requires trackers[FetchTracker(trackers, t.id).value].category == Some(categories[FindCategory(categories, title).value].oid)
    ensures GetCategory(trackers, RemoveAt(categories, FindCategory(categories, title).value), t) == None
  {
    DeletedCategoryIsGone(categories, FindCategory(categories, title).value);
  }

  /** The rows the private `updateCategory(_:with:)` creates: one per
      tracker of the category, in order, written and filed under `oid`. */
  function AttachAll(ts: seq<Tracker>, oid: nat): (rows: seq<TrackerRow>)
    ensures |rows| == |ts|
    ensures forall i | 0 <= i < |ts| :: rows[i] == Attached(EmptyTrackerRow, ts[i], oid)
  {
    if ts == [] then [] else [Attached(EmptyTrackerRow, ts[0], oid)] + AttachAll(ts[1..], oid)
  }

  /** Storing a category replaces the trackers filed under it with exactly
      the category's trackers, in order. */
  lemma StoringReplacesTrackers(trackers: seq<TrackerRow>, oid: nat, ts: seq<Tracker>, known: set<int>)
    requires forall t | t in ts :: AllKnown(t.schedule, known)
    ensures TrackersOf(Filter(Filter(trackers, NotInCategory(oid)) + AttachAll(ts, oid), InCategory(oid)), known) == ts
  {
    var kept := Filter(trackers, NotInCategory(oid));
    var attached := AttachAll(ts, oid);
    FilterAppend(kept, attached, InCategory(oid));
    FilterNone(kept, InCategory(oid));
    FilterAll(attached, InCategory(oid));
    assert Filter(kept + attached, InCategory(oid)) == attached;
    forall i | 0 <= i < |ts|
      ensures MakeTracker(attached[i], known) == Some(ts[i])
    {
      assert ts[i] in ts;
      WrittenReadsBack(EmptyTrackerRow, ts[i], known);
    }
    TrackersOfWritten(attached, ts, known);
  }

  /** The fetch order of the categories: title ascending. */
  predicate TitleOrder(a: TrackerCategory, b: TrackerCategory)
  {
    !Less(b.title, a.title)
  }

  lemma TitleOrderIsTotal(s: seq<TrackerCategory>)
    ensures Sorting.TotalPreorderOn(s, TitleOrder)
  {
    forall a, b | a in s && b in s
      ensures TitleOrder(a, b) || TitleOrder(b, a)
    {
      NotAfterTotal(a.title, b.title);
    }
    forall a, b, c | a in s && b in s && c in s && TitleOrder(a, b) && TitleOrder(b, c)
      ensures TitleOrder(a, c)
    {
      NotAfterTransitive(a.title, b.title, c.title);
    }
  }

  /** `categories.compactMap(makeCategory)`. */
  function CategoriesOf(categories: seq<CategoryRow>, trackers: seq<TrackerRow>, known: set<int>): (cs: seq<TrackerCategory>)
    ensures |cs| <= |categories|
    ensures forall c | c in cs :: exists i | 0 <= i < |categories| :: MakeCategory(categories[i], trackers, known) == Some(c)
    ensures forall i | 0 <= i < |categories| && categories[i].title.Some? ::
      MakeCategory(categories[i], trackers, known).value in cs
  {
    if categories == [] then []
    else
      var head := match MakeCategory(categories[0], trackers, known) case Some(c) => [c] case None => [];
      var rest := CategoriesOf(categories[1..], trackers, known);
      assert forall i | 1 <= i < |categories| :: categories[i] == categories[1..][i - 1];
      head + rest
  }

  /** After `addCategory(c)` on a context whose tracker rows all link to
      identifiers handed out before, the fetched categories include `c`. */
  lemma AddedCategoryIsFetched(categories: seq<CategoryRow>, trackers: seq<TrackerRow>, oid: nat,
                               category: TrackerCategory, known: set<int>)
    requires LinksBelow(trackers, oid)
    requires forall t | t in category.trackers :: AllKnown(t.schedule, known)
    ensures category in CategoriesOf(categories + [CategoryRow(oid, Some(category.title))],
                                     trackers + AttachAll(category.trackers, oid), known)
  {
    var categories' := categories + [CategoryRow(oid, Some(category.title))];
    FilterAll(trackers, NotInCategory(oid));
    StoringReplacesTrackers(trackers, oid, category.trackers, known);
    assert MakeCategory(categories'[|categories|], trackers + AttachAll(category.trackers, oid), known) == Some(category);
  }

  /** Deleting a category row leaves no row with its identifier, so the
      trackers filed under it read as having no category. */
  lemma DeletedCategoryIsGone(categories: seq<CategoryRow>, k: nat)
    requires DistinctOids(categories) && k < |categories|
    ensures DistinctOids(RemoveAt(categories, k))
    ensures TitleOfOid(RemoveAt(categories, k), categories[k].oid) == None
  {
    var rest := RemoveAt(categories, k);
    forall i, j | 0 <= i < j < |rest|
      ensures rest[i].oid != rest[j].oid
    {
      var i' := if i < k then i else i + 1;
      var j' := if j < k then j else j + 1;
      assert rest[i] == categories[i'] && rest[j] == categories[j'];
    }
    forall j | 0 <= j < |rest|
      ensures rest[j].oid != categories[k].oid
    {
      var j' := if j < k then j else j + 1;
      assert rest[j] == categories[j'];
    }
  }

  /** After renaming the first category titled `oldTitle` to `newTitle`,
      a category with the new title is found no later than it, and, when
      the titles differ, the old title no longer finds it or any row before
      it. */
  lemma RenamedCategoryIsFound(categories: seq<CategoryRow>, oldTitle: string, newTitle: string)
    requires FindCategory(categories, oldTitle).Some?
    ensures var k := FindCategory(categories, oldTitle).value;
      var renamed := categories[k := CategoryRow(categories[k].oid, Some(newTitle))];
      && FindCategory(renamed, newTitle).Some? && FindCategory(renamed, newTitle).value <= k
      && (newTitle != oldTitle ==> FindCategory(renamed, oldTitle).None? || FindCategory(renamed, oldTitle).value > k)
  {
    var k := FindCategory(categories, oldTitle).value;
    var renamed := categories[k := CategoryRow(categories[k].oid, Some(newTitle))];
    assert renamed[k].title == Some(newTitle);
    if newTitle != oldTitle {
      forall j | 0 <= j <= k
        ensures renamed[j].title != Some(oldTitle)
      {
        if j < k {
          assert renamed[j] == categories[j];
        }
      }
    }
  }

  class TrackerCategoryStore {
    const context: Context

    constructor(context: Context)
      ensures this.context == context
    {
      this.context := context;
    }

    /** `addCategory(_:)`: a new category row, then stored with the
      category's trackers. */
    method AddCategory(category: TrackerCategory)
      requires context.Valid()
      modifies context
      ensures context.Valid()
      ensures context.categories == old(context.categories) + [CategoryRow(old(context.nextOid), Some(category.title))]
      ensures context.trackers == old(context.trackers) + AttachAll(category.trackers, old(context.nextOid))
      ensures context.records == old(context.records) && context.nextOid == old(context.nextOid) + 1
    {
      FilterAll(context.trackers, NotInCategory(context.nextOid));
      var oid := context.InsertCategory(category.title);
      StoreCategory(|context.categories| - 1, category);
    }

    /** The private `updateCategory(_:with:)`: sets the title of the row at
      `k`, deletes the trackers filed under it, and files new rows written
      from the category's trackers. */
    method StoreCategory(k: nat, category: TrackerCategory)
      requires context.Valid() && k < |context.categories|
      modifies context
      ensures context.Valid()
      ensures context.categories == old(context.categories)[k := CategoryRow(old(context.categories)[k].oid, Some(category.title))]
      ensures context.trackers ==
        Filter(old(context.trackers), NotInCategory(old(context.categories)[k].oid)) +
        AttachAll(category.trackers, old(context.categories)[k].oid)
      ensures context.records == old(context.records) && context.nextOid == old(context.nextOid)
    {
      var oid := context.categories[k].oid;
      context.categories := context.categories[k := CategoryRow(oid, Some(category.title))];
      var kept := KeepOnly(context.trackers, NotInCategory(oid));
      context.trackers := kept + AttachAll(category.trackers, oid);
    }

    /** `updateCategory(_:with:)`: throws when no category has the old
      title; otherwise renames the first one with it, and only that one. */
    method UpdateCategory(category: TrackerCategory, newTitle: string) returns (outcome: Outcome<StoreError>)
      requires context.Valid()
      modifies context
      ensures context.Valid()
      ensures FindCategory(old(context.categories), category.title).None? ==>
        outcome == Fail(CategoryNotFound) && context.categories == old(context.categories)
      ensures FindCategory(old(context.categories), category.title).Some? ==>
        var k := FindCategory(old(context.categories), category.title).value;
        outcome == Pass &&
        context.categories == old(context.categories)[k := CategoryRow(old(context.categories)[k].oid, Some(newTitle))]
      ensures context.trackers == old(context.trackers) && context.records == old(context.records)
      ensures context.nextOid == old(context.nextOid)
    {
      match FindCategory(context.categories, category.title)
      case None =>
        outcome := Fail(CategoryNotFound);
      case Some(k) =>
        var row := context.categories[k];
        context.categories := context.categories[k := row.(title := Some(newTitle))];
        outcome := Pass;
    }

    /** `deleteCategory(_:)`: throws when no category has the title;
      otherwise deletes the first one with it, and only that one. */
    method DeleteCategory(category: TrackerCategory) returns (outcome: Outcome<StoreError>)
      requires context.Valid()
      modifies context
      ensures context.Valid()
      ensures FindCategory(old(context.categories), category.title).None? ==>
        outcome == Fail(CategoryNotFound) && context.categories == old(context.categories)
      ensures FindCategory(old(context.categories), category.title).Some? ==>
        outcome == Pass &&
        context.categories == RemoveAt(old(context.categories), FindCategory(old(context.categories), category.title).value)
      ensures context.trackers == old(context.trackers) && context.records == old(context.records)
      ensures context.nextOid == old(context.nextOid)
    {
      match FindCategory(context.categories, category.title)
      case None =>
        outcome := Fail(CategoryNotFound);
      case Some(k) =>
        DeletedCategoryIsGone(context.categories, k);
        context.categories := RemoveAt(context.categories, k);
        outcome := Pass;
    }

    /** `fetchAllCategories()`: the categories that convert, by title. */
    method FetchAllCategories(known: set<int>) returns (categories: seq<TrackerCategory>)
      ensures multiset(categories) == multiset(CategoriesOf(context.categories, context.trackers, known))
      ensures Sorting.SortedBy(categories, TitleOrder)
    {
      var all := CategoriesOf(context.categories, context.trackers, known);
      TitleOrderIsTotal(all);
      categories := Sorting.InsertionSort(all, TitleOrder);
    }
  }

  /** Adding a category whose title no category has, then fetching that
      title, gives back the category. */
  lemma AddThenFetchCategory(categories: seq<CategoryRow>, trackers: seq<TrackerRow>, oid: nat,
                             category: TrackerCategory, known: set<int>)
    requires forall i | 0 <= i < |categories| :: categories[i].title != Some(category.title)
    requires forall t | t in category.trackers :: AllKnown(t.schedule, known)
    ensures FetchCategory(categories + [CategoryRow(oid, Some(category.title))],
                          Filter(trackers, NotInCategory(oid)) + AttachAll(category.trackers, oid),
                          category.title, known) == Some(category)
  {
    var categories' := categories + [CategoryRow(oid, Some(category.title))];
    var k := FindCategory(categories', category.title);
    forall j | 0 <= j < |categories|
      ensures categories'[j].title != Some(category.title)
    {
      assert categories'[j] == categories[j];
    }
    assert categories'[|categories|].title == Some(category.title);
    assert k == Some(|categories|);
    StoringReplacesTrackers(trackers, oid, category.trackers, known);
  }
}
