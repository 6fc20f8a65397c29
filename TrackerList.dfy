/** The main tracker list: trackers grouped into one section per category,
    sorted by category name, narrowed by the search text or by the weekday of
    the chosen date, and a plus button that marks or unmarks a tracker as done
    on the chosen date. */
module TrackerList {
  import opened Common
  import opened WeekDays
  import opened Palette
  import Sorting

  /** A first-generation tracker. Everything but the completion dates is fixed
      at creation; the list's sections share the same objects, so marking a
      tracker done is seen through every section that holds it. */
  class Tracker {
    const id: UUID
    const name: string
    const categoryUuid: UUID
    const schedule: Option<seq<WeekDay>>
    const emoji: string
    const color: Colors
    var completeAt: seq<Day>

    constructor(id: UUID, name: string, categoryUuid: UUID, schedule: Option<seq<WeekDay>>,
                emoji: string, color: Colors, completeAt: seq<Day>)
      ensures this.id == id && this.name == name && this.categoryUuid == categoryUuid
      ensures this.schedule == schedule && this.emoji == emoji && this.color == color
      ensures this.completeAt == completeAt
    {
      this.id := id;
      this.name := name;
      this.categoryUuid := categoryUuid;
      this.schedule := schedule;
      this.emoji := emoji;
      this.color := color;
      this.completeAt := completeAt;
    }

    predicate IsCompleted(day: Day)
      reads this
    {
      day in completeAt
    }

    /** Records `day` unless it is already recorded; reports whether it added it. */
    method MarkCompleted(day: Day) returns (added: bool)
      modifies this
      ensures added == !old(IsCompleted(day))
      ensures completeAt == if added then old(completeAt) + [day] else old(completeAt)
    {
      if day in completeAt {
        return false;
      }
      completeAt := completeAt + [day];
      added := true;
    }

    /** Removes the first record of `day`; reports whether there was one. */
    method UnmarkCompleted(day: Day) returns (removed: bool)
      modifies this
      ensures removed == old(IsCompleted(day))
      ensures completeAt == RemoveFirst(old(completeAt), day)
    {
      var idx := 0;
      while idx < |completeAt| && completeAt[idx] != day
        invariant 0 <= idx <= |completeAt|
        invariant day !in completeAt[..idx]
      {
        idx := idx + 1;
      }
      RemoveFirstAt(completeAt, day, idx);
      removed := idx < |completeAt|;
      if removed {
        completeAt := completeAt[..idx] + completeAt[idx + 1..];
      }
    }
  }

  /** `s` without its first occurrence of `x`. */
  function RemoveFirst<T(==)>(s: seq<T>, x: T): seq<T>
  {
    if s == [] then []
    else if s[0] == x then s[1..]
    else [s[0]] + RemoveFirst(s[1..], x)
  }

  /** Cutting out the element at the first index holding `x` is `RemoveFirst`. */
  lemma {:induction false} RemoveFirstAt<T>(s: seq<T>, x: T, idx: nat)
    requires idx <= |s| && x !in s[..idx]
    requires idx < |s| ==> s[idx] == x
    ensures RemoveFirst(s, x) == if idx < |s| then s[..idx] + s[idx + 1..] else s
  {
    if s != [] && idx > 0 {
      assert s[0] in s[..idx];
      assert s[1..][..idx - 1] == s[..idx][1..];
      RemoveFirstAt(s[1..], x, idx - 1);
      if idx < |s| {
        assert s[..idx] + s[idx + 1..] == [s[0]] + (s[1..][..idx - 1] + s[1..][idx..]);
      }
    }
  }

  /** `RemoveFirst` takes away exactly one occurrence of `x`, if there is one. */
  lemma {:induction false} RemoveFirstCounts<T>(s: seq<T>, x: T)
    ensures multiset(RemoveFirst(s, x)) == multiset(s) - multiset{x}
  {
    if s != [] {
      assert s == [s[0]] + s[1..];
      RemoveFirstCounts(s[1..], x);
    }
  }

  /** What the plus button does to a tracker's completion dates when the chosen
      day is not in the future: unmark it if done, otherwise mark it. */
  function Toggled(completeAt: seq<Day>, day: Day): seq<Day>
  {
    if day in completeAt then RemoveFirst(completeAt, day) else completeAt + [day]
  }

  /** On dates recorded at most once, the plus button flips whether the chosen
      day is done, leaves every other day as it was, and keeps every date
      recorded at most once. */
  lemma ToggleFlipsOnlyThatDay(completeAt: seq<Day>, day: Day)
    requires NoDuplicates(completeAt)
    ensures day in Toggled(completeAt, day) <==> day !in completeAt
    ensures forall e | e != day :: e in Toggled(completeAt, day) <==> e in completeAt
    ensures NoDuplicates(Toggled(completeAt, day))
  {
    var t := Toggled(completeAt, day);
    if day in completeAt {
      RemoveFirstCounts(completeAt, day);
      NoDuplicatesAtMostOnce(completeAt, day);
      assert multiset(t)[day] == 0;
      forall e | e != day
        ensures e in t <==> e in completeAt
      {
        assert multiset(t)[e] == multiset(completeAt)[e];
      }
      forall i, j | 0 <= i < j < |t|
        ensures t[i] != t[j]
      {
        if t[i] == t[j] {
          TwoOccurrences(t, i, j);
          NoDuplicatesAtMostOnce(completeAt, t[i]);
        }
      }
    }
  }

  /** Pressing the plus button twice on the same day restores the same set of
      completion dates. */
  lemma ToggleTwiceRestores(completeAt: seq<Day>, day: Day)
    requires NoDuplicates(completeAt)
    ensures multiset(Toggled(Toggled(completeAt, day), day)) == multiset(completeAt)
  {
    ToggleFlipsOnlyThatDay(completeAt, day);
    var once := Toggled(completeAt, day);
    if day in completeAt {
      RemoveFirstCounts(completeAt, day);
      assert multiset(once + [day]) == multiset(once) + multiset{day};
    } else {
      assert day in once;
      RemoveFirstCounts(once, day);
      assert multiset(once) == multiset(completeAt) + multiset{day};
    }
  }

  lemma {:induction false} NoDuplicatesAtMostOnce<T>(s: seq<T>, x: T)
    requires NoDuplicates(s)
    ensures multiset(s)[x] <= 1
  {
    if s != [] {
      assert s == [s[0]] + s[1..];
      NoDuplicatesAtMostOnce(s[1..], x);
      if s[0] == x {
        assert x !in s[1..];
      }
    }
  }

  lemma TwoOccurrences<T>(s: seq<T>, j: nat, k: nat)
    requires j < k < |s| && s[j] == s[k]
    ensures multiset(s)[s[j]] >= 2
  {
    assert s == s[..k] + [s[k]] + s[k + 1..];
    assert s[j] in s[..k];
  }

  datatype Category = Category(uuid: UUID, name: string)

  datatype CollectionSection = CollectionSection(category: Category, items: seq<Tracker>)

  /** `categories.first { $0.uuid == uuid }`. */
  function FindCategory(categories: seq<Category>, uuid: UUID): (r: Option<Category>)
    ensures r.Some? ==> r.value in categories && r.value.uuid == uuid
    ensures r.None? ==> forall c | c in categories :: c.uuid != uuid
  {
    if categories == [] then None
    else if categories[0].uuid == uuid then Some(categories[0])
    else FindCategory(categories[1..], uuid)
  }

  /** The keys of `Dictionary(grouping: trackers, by: categoryUuid)`: every
      category uuid the trackers use, once, in order of first use. (Swift
      leaves the dictionary's order open; the sort that follows makes only
      the order of sections with equal names depend on it.) */
  function CategoryUuids(trackers: seq<Tracker>): (r: seq<UUID>)
    ensures NoDuplicates(r)
    ensures forall t | t in trackers :: t.categoryUuid in r
    ensures forall u | u in r :: exists t | t in trackers :: t.categoryUuid == u
  {
    if trackers == [] then []
    else
      var rest := CategoryUuids(trackers[..|trackers| - 1]);
      var last := trackers[|trackers| - 1];
      assert forall t | t in trackers :: t in trackers[..|trackers| - 1] || t == last;
      if last.categoryUuid in rest then rest else rest + [last.categoryUuid]
  }

  /** The group of one key: the trackers of that category, in their order. */
  function InCategory(trackers: seq<Tracker>, uuid: UUID): seq<Tracker>
  {
    Filter(trackers, (t: Tracker) => t.categoryUuid == uuid)
  }

  /** The section a group becomes, if the category is known. */
  function SectionOf(categories: seq<Category>, trackers: seq<Tracker>, uuid: UUID): seq<CollectionSection>
  {
    match FindCategory(categories, uuid)
    case None => []
    case Some(c) => [CollectionSection(c, InCategory(trackers, uuid))]
  }

  function SectionsOf(categories: seq<Category>, trackers: seq<Tracker>, keys: seq<UUID>): seq<CollectionSection>
  {
    if keys == [] then []
    else SectionsOf(categories, trackers, keys[..|keys| - 1]) + SectionOf(categories, trackers, keys[|keys| - 1])
  }

  /** The sections before sorting. */
  function Grouped(categories: seq<Category>, trackers: seq<Tracker>): seq<CollectionSection>
  {
    SectionsOf(categories, trackers, CategoryUuids(trackers))
  }

  /** The sort's "comes no later than": by category name, ascending. */
  predicate NameOrder(a: CollectionSection, b: CollectionSection) {
    !Less(b.category.name, a.category.name)
  }

  /** What `willCollectSections` produces for `categories` and `trackers`. */
  ghost predicate IsSectionsOf(categories: seq<Category>, trackers: seq<Tracker>, sections: seq<CollectionSection>) {
    && Sorting.SortedBy(sections, NameOrder)
    && multiset(sections) == multiset(Grouped(categories, trackers))
  }

  /** The section for the group of a known category. */
  ghost predicate SectionFits(categories: seq<Category>, trackers: seq<Tracker>, s: CollectionSection) {
    && FindCategory(categories, s.category.uuid) == Some(s.category)
    && s.items == InCategory(trackers, s.category.uuid)
  }

  lemma {:induction false} SectionsOfFacts(categories: seq<Category>, trackers: seq<Tracker>, keys: seq<UUID>)
    ensures forall s | s in SectionsOf(categories, trackers, keys) ::
              SectionFits(categories, trackers, s) && s.category.uuid in keys
    ensures forall u | u in keys && FindCategory(categories, u).Some? ::
              CollectionSection(FindCategory(categories, u).value, InCategory(trackers, u)) in SectionsOf(categories, trackers, keys)
    ensures NoDuplicates(keys) ==> NoDuplicates(SectionsOf(categories, trackers, keys))
  {
    if keys != [] {
      var init := keys[..|keys| - 1];
      var last := keys[|keys| - 1];
      SectionsOfFacts(categories, trackers, init);
      assert forall u | u in keys :: u in init || u == last;
      if NoDuplicates(keys) {
        assert NoDuplicates(init);
        assert last !in init;
      }
    }
  }

  /** Two sections that fit and share a category uuid are the same section. */
  lemma FitsDeterminedByUuid(categories: seq<Category>, trackers: seq<Tracker>, a: CollectionSection, b: CollectionSection)
    requires SectionFits(categories, trackers, a) && SectionFits(categories, trackers, b)
    requires a.category.uuid == b.category.uuid
    ensures a == b
  {
  }

  /** Every section holds a category taken from `categories` (the first with
      its uuid), and exactly the trackers of that category, in their original
      order; so every tracker in it carries that category's uuid. */
  lemma SectionsHoldTheirCategory(categories: seq<Category>, trackers: seq<Tracker>, sections: seq<CollectionSection>)
    requires IsSectionsOf(categories, trackers, sections)
    ensures forall k | 0 <= k < |sections| ::
              && sections[k].category in categories
              && FindCategory(categories, sections[k].category.uuid) == Some(sections[k].category)
              && sections[k].items == InCategory(trackers, sections[k].category.uuid)
              && forall t | t in sections[k].items :: t in trackers && t.categoryUuid == sections[k].category.uuid
  {
    SectionsOfFacts(categories, trackers, CategoryUuids(trackers));
    forall k | 0 <= k < |sections|
      ensures SectionFits(categories, trackers, sections[k])
    {
      assert sections[k] in multiset(Grouped(categories, trackers));
    }
  }

  /** No two sections share a category uuid. */
  lemma SectionsHaveDistinctCategories(categories: seq<Category>, trackers: seq<Tracker>, sections: seq<CollectionSection>)
    requires IsSectionsOf(categories, trackers, sections)
    ensures forall j, k | 0 <= j < k < |sections| :: sections[j].category.uuid != sections[k].category.uuid
  {
    var grouped := Grouped(categories, trackers);
    SectionsOfFacts(categories, trackers, CategoryUuids(trackers));
    SectionsHoldTheirCategory(categories, trackers, sections);
    forall j, k | 0 <= j < k < |sections|
      ensures sections[j].category.uuid != sections[k].category.uuid
    {
      if sections[j].category.uuid == sections[k].category.uuid {
        FitsDeterminedByUuid(categories, trackers, sections[j], sections[k]);
        TwoOccurrences(sections, j, k);
        NoDuplicatesAtMostOnce(grouped, sections[j]);
      }
    }
  }

  /** A tracker whose category is unknown is in no section; every other
      tracker is in exactly one section. */
  lemma EveryTrackerPlacedOnce(categories: seq<Category>, trackers: seq<Tracker>, sections: seq<CollectionSection>, t: Tracker)
    requires IsSectionsOf(categories, trackers, sections)
    requires t in trackers
    ensures FindCategory(categories, t.categoryUuid).None? ==>
              forall k | 0 <= k < |sections| :: t !in sections[k].items
    ensures FindCategory(categories, t.categoryUuid).Some? ==>
              exists k | 0 <= k < |sections| ::
                t in sections[k].items && forall j | 0 <= j < |sections| && j != k :: t !in sections[j].items
  {
    SectionsHoldTheirCategory(categories, trackers, sections);
    SectionsHaveDistinctCategories(categories, trackers, sections);
    var u := t.categoryUuid;
    if FindCategory(categories, u).Some? {
      var grouped := Grouped(categories, trackers);
      SectionsOfFacts(categories, trackers, CategoryUuids(trackers));
      var s := CollectionSection(FindCategory(categories, u).value, InCategory(trackers, u));
      assert s in grouped;
      assert s in multiset(sections);
      var k :| 0 <= k < |sections| && sections[k] == s;
      assert t in sections[k].items;
      forall j | 0 <= j < |sections| && j != k
        ensures t !in sections[j].items
      {
        assert sections[j].category.uuid != u;
      }
    }
  }

  /** `NameOrder` is a total preorder, as `sort` needs. */
  lemma NameOrderIsTotal(s: seq<CollectionSection>)
    ensures Sorting.TotalPreorderOn(s, NameOrder)
  {
    forall a, b | a in s && b in s
      ensures NameOrder(a, b) || NameOrder(b, a)
    {
      NotAfterTotal(a.category.name, b.category.name);
    }
    forall a, b, c | a in s && b in s && c in s && NameOrder(a, b) && NameOrder(b, c)
      ensures NameOrder(a, c)
    {
      NotAfterTransitive(a.category.name, b.category.name, c.category.name);
    }
  }

  /** `willCollectSections`: group by category uuid, keep the groups whose
      category is known, then sort by category name. */
  method CollectSections(categories: seq<Category>, trackers: seq<Tracker>) returns (collection: seq<CollectionSection>)
    ensures IsSectionsOf(categories, trackers, collection)
  {
    var keys := CategoryUuids(trackers);
    collection := [];
    var i := 0;
    while i < |keys|
      invariant 0 <= i <= |keys|
      invariant collection == SectionsOf(categories, trackers, keys[..i])
    {
      var category := FindCategory(categories, keys[i]);
      if category.Some? {
        collection := collection + [CollectionSection(category.value, InCategory(trackers, keys[i]))];
      }
      assert keys[..i + 1][..i] == keys[..i];
      i := i + 1;
    }
    assert keys[..|keys|] == keys;
    NameOrderIsTotal(collection);
    collection := Sorting.InsertionSort(collection, NameOrder);
  }

  /** The search filter: trackers whose lowercased name contains the
      lowercased query. `lowercased` stands for Foundation's `lowercased()`. */
  function MatchingName(items: seq<Tracker>, query: string, lowercased: string -> string): seq<Tracker>
  {
    Filter(items, (t: Tracker) => Contains(lowercased(t.name), lowercased(query)))
  }

  /** The trackers the search shows: all of them for an empty query. */
  function SearchResults(items: seq<Tracker>, query: string, lowercased: string -> string): seq<Tracker>
  {
    if |query| > 0 then MatchingName(items, query, lowercased) else items
  }

  /** An empty query shows every tracker; otherwise exactly the trackers whose
      lowercased name contains the lowercased query are shown, each as often
      as in `items`, and the result of a concatenation is the concatenation of
      the results, so the original order is kept. */
  lemma SearchResultsSpec(items: seq<Tracker>, query: string, lowercased: string -> string, more: seq<Tracker>)
    ensures |query| == 0 ==> SearchResults(items, query, lowercased) == items
    ensures |query| > 0 ==> forall t: Tracker ::
              multiset(SearchResults(items, query, lowercased))[t] ==
              if Contains(lowercased(t.name), lowercased(query)) then multiset(items)[t] else 0
    ensures SearchResults(items + more, query, lowercased) ==
            SearchResults(items, query, lowercased) + SearchResults(more, query, lowercased)
  {
    var p := (t: Tracker) => Contains(lowercased(t.name), lowercased(query));
    forall t: Tracker {
      FilterCount(items, p, t);
    }
    FilterAppend(items, more, p);
  }

  /** A tracker is shown on a weekday if it has no schedule or its schedule
      names that day. */
  predicate ScheduledOn(t: Tracker, day: WeekDay) {
    match t.schedule
    case None => true
    case Some(days) => day in days
  }

  function DueOn(items: seq<Tracker>, day: WeekDay): seq<Tracker>
  {
    Filter(items, (t: Tracker) => ScheduledOn(t, day))
  }

  /** The date filter keeps every unscheduled tracker and keeps a scheduled
      one iff its schedule contains the weekday; combined with the grouping,
      an unscheduled tracker of a known category is on screen on every date. */
  lemma DueOnSpec(categories: seq<Category>, items: seq<Tracker>, day: WeekDay, sections: seq<CollectionSection>)
    requires IsSectionsOf(categories, DueOn(items, day), sections)
    ensures forall t | t in items :: t in DueOn(items, day) <==> t.schedule.None? || day in t.schedule.value
    ensures forall t | t in items && t.schedule.None? && FindCategory(categories, t.categoryUuid).Some? ::
              exists k | 0 <= k < |sections| :: t in sections[k].items
  {
    forall t | t in items && t.schedule.None? && FindCategory(categories, t.categoryUuid).Some?
      ensures exists k | 0 <= k < |sections| :: t in sections[k].items
    {
      EveryTrackerPlacedOnce(categories, DueOn(items, day), sections, t);
    }
  }

  /** The main screen's state. `selectedDate` is the date picker's day. */
  class TrackerViewController {
    var categories: seq<Category>
    var sections: seq<CollectionSection>
    var resultSections: seq<CollectionSection>
    var items: seq<Tracker>
    var selectedDate: Day

    /** `viewDidLoad`: the trackers to show (`fetchData`) and the picker's
        date are given; both section lists hold the full grouping. */
    constructor(categories: seq<Category>, items: seq<Tracker>, selectedDate: Day)
      ensures this.categories == categories && this.items == items && this.selectedDate == selectedDate
      ensures IsSectionsOf(categories, items, sections) && resultSections == sections
    {
      this.categories := categories;
      this.items := items;
      this.selectedDate := selectedDate;
      var collected := CollectSections(categories, items);
      sections := collected;
      resultSections := collected;
    }

    /** `searchBar(_:textDidChange:)`. */
    method SearchTextDidChange(searchText: string, lowercased: string -> string)
      modifies this`resultSections
      ensures IsSectionsOf(categories, SearchResults(items, searchText, lowercased), resultSections)
    {
      var itemsFilter := MatchingName(items, searchText, lowercased);
      if |searchText| > 0 {
        resultSections := CollectSections(categories, itemsFilter);
      } else {
        resultSections := CollectSections(categories, items);
      }
    }

    /** `changeDate(sender:)`: the calendar's weekday number of `date` is
        given. The date is taken even when the number does not convert. */
    method ChangeDate(date: Day, calendarWeekday: int)
      modifies this`selectedDate, this`resultSections
      ensures selectedDate == date
      ensures FromCalendarWeekday(calendarWeekday).None? ==> resultSections == old(resultSections)
      ensures FromCalendarWeekday(calendarWeekday).Some? ==>
                IsSectionsOf(categories, DueOn(items, FromCalendarWeekday(calendarWeekday).value), resultSections)
    {
      selectedDate := date;
      var selectedWeekDay := FromCalendarWeekday(calendarWeekday);
      if selectedWeekDay.None? {
        return;
      }
      var filtered := DueOn(items, selectedWeekDay.value);
      resultSections := CollectSections(categories, filtered);
    }

    /** `createTrackerDidCreate(_:)`: append, regroup, and show everything. */
    method CreateTrackerDidCreate(tracker: Tracker)
      modifies this`items, this`sections, this`resultSections
      ensures items == old(items) + [tracker]
      ensures IsSectionsOf(categories, items, sections) && resultSections == sections
    {
      items := items + [tracker];
      sections := CollectSections(categories, items);
      resultSections := sections;
    }

    /** `trackerCellDidTapPlus(_:)` for the cell at (`section`, `row`) of the
        shown sections, with `today` the current day. A future date changes
        nothing; otherwise the tracker is unmarked if done on the chosen date
        and marked if not. */
    method TrackerCellDidTapPlus(section: nat, row: nat, today: Day)
      requires section < |resultSections| && row < |resultSections[section].items|
      modifies resultSections[section].items[row]
      ensures resultSections[section].items[row].completeAt ==
                if selectedDate > today then old(resultSections[section].items[row].completeAt)
                else Toggled(old(resultSections[section].items[row].completeAt), selectedDate)
    {
      var tracker := resultSections[section].items[row];
      if selectedDate > today {
        return;
      }
      var wasCompleted := tracker.IsCompleted(selectedDate);
      if wasCompleted {
        var removed := tracker.UnmarkCompleted(selectedDate);
      } else {
        var added := tracker.MarkCompleted(selectedDate);
      }
    }
  }
}
