/** `CategoriesViewModel`: the categories shown on the category screen and
    the index of the selected one. Every getter checks the index against the
    categories it holds; the selected index is stored as given, unchecked. */
module CategorySelection {
  import opened Common
  import opened Tables
  import opened CategoryStores
  import Sorting

  class CategoriesViewModel {
    const store: TrackerCategoryStore
    var categories: seq<TrackerCategory>
    var selectedCategoryIndex: Option<int>

    /** `init(trackerCategoryStore:)`: observes the store, then loads. */
    constructor(store: TrackerCategoryStore, known: set<int>)
      ensures this.store == store
      ensures multiset(categories) == multiset(CategoriesOf(store.context.categories, store.context.trackers, known))
      ensures Sorting.SortedBy(categories, TitleOrder)
      ensures selectedCategoryIndex.None?
    {
      this.store := store;
      new;
      categories := store.FetchAllCategories(known);
      selectedCategoryIndex := None;
    }

    /** The store's change callback installed by `setupObservers`; returns
      the empty-state flag it reports. */
    method CategoriesDidChange(fetched: seq<TrackerCategory>) returns (isEmpty: bool)
      modifies this`categories
      ensures categories == fetched
      ensures isEmpty <==> fetched == []
    {
      categories := fetched;
      isEmpty := |categories| == 0;
    }

    /** `loadCategories()`: replaces the categories with the store's, by
      title; the selection is kept. Returns the empty-state flag. */
    method LoadCategories(known: set<int>) returns (isEmpty: bool)
      modifies this`categories
      ensures multiset(categories) == multiset(CategoriesOf(store.context.categories, store.context.trackers, known))
      ensures Sorting.SortedBy(categories, TitleOrder)
      ensures isEmpty <==> categories == []
      ensures selectedCategoryIndex == old(selectedCategoryIndex)
    {
      categories := store.FetchAllCategories(known);
      isEmpty := |categories| == 0;
    }

    /** `selectCategory(at:)`: any index is stored, in range or not. */
    method SelectCategory(index: int)
      modifies this`selectedCategoryIndex
      ensures selectedCategoryIndex == Some(index)
      ensures IsCategorySelected(index)
    {
      selectedCategoryIndex := Some(index);
    }

    /** `handleCategorySelection(at:)`: selects the index; the title passed
      to `onCategorySelect` is returned, `None` when none is passed. */
    method HandleCategorySelection(index: int) returns (selectedTitle: Option<string>)
      modifies this`selectedCategoryIndex
      ensures selectedCategoryIndex == Some(index)
      ensures selectedTitle.Some? <==> 0 <= index < |categories|
      ensures selectedTitle.Some? ==> selectedTitle.value == categories[index].title
      ensures selectedTitle == GetSelectedCategoryTitle()
    {
      SelectCategory(index);
      selectedTitle := GetCategoryTitle(index);
    }

    /** `getCategory(at:)`: an index out of range is a fatal error. */
    function GetCategory(index: int): (c: TrackerCategory)
      reads this
      requires 0 <= index < |categories|
      ensures c in categories
      ensures GetCategoryTitle(index) == Some(c.title)
    {
      categories[index]
    }

    /** `getCategoryTitle(at:)`. */
    function GetCategoryTitle(index: int): (title: Option<string>)
      reads this
      ensures title.None? <==> index < 0 || index >= |categories|
      ensures title.Some? ==> title.value == categories[index].title
    {
      if index >= 0 && index < |categories| then Some(categories[index].title) else None
    }

    /** `getCategoriesCount()`. */
    function GetCategoriesCount(): (n: nat)
      reads this
      ensures n == |categories|
      ensures forall i | 0 <= i < n :: GetCategoryTitle(i).Some?
      ensures GetCategoryTitle(n).None?
    {
      |categories|
    }

    /** `isCategorySelected(at:)`. */
    predicate IsCategorySelected(index: int)
      reads this
      ensures IsCategorySelected(index) <==> selectedCategoryIndex == Some(index)
    {
      match selectedCategoryIndex
      case Some(selected) => selected == index
      case None => false
    }

    /** `getSelectedCategoryTitle()`: none when nothing is selected or the
      stored index is out of range. */
    function GetSelectedCategoryTitle(): (title: Option<string>)
      reads this
      ensures selectedCategoryIndex.None? ==> title.None?
      ensures selectedCategoryIndex.Some? && !(0 <= selectedCategoryIndex.value < |categories|) ==> title.None?
      ensures title.Some? ==> exists i | 0 <= i < |categories| :: IsCategorySelected(i) && title.value == categories[i].title
      ensures selectedCategoryIndex.Some? && 0 <= selectedCategoryIndex.value < |categories| ==>
        title == Some(categories[selectedCategoryIndex.value].title)
    {
      match selectedCategoryIndex
      case None => None
      case Some(index) => GetCategoryTitle(index)
    }

    /** `addNewCategory(title:)`: a category with the title and no trackers. */
    method AddNewCategory(title: string)
      requires store.context.Valid()
      modifies store.context
      ensures store.context.Valid()
      ensures store.context.categories ==
        old(store.context.categories) + [CategoryRow(old(store.context.nextOid), Some(title))]
      ensures store.context.trackers == old(store.context.trackers)
      ensures store.context.records == old(store.context.records)
      ensures store.context.nextOid == old(store.context.nextOid) + 1
    {
      store.AddCategory(TrackerCategory(title, []));
    }

    /** `deleteCategory(at:)`: deletes the first stored category with the
      title of the one at the index; the store's error is passed on. */
    method DeleteCategory(index: int) returns (outcome: Outcome<StoreError>)
      requires 0 <= index < |categories|
      requires store.context.Valid()
      modifies store.context
      ensures store.context.Valid()
      ensures FindCategory(old(store.context.categories), categories[index].title).None? ==>
        outcome == Fail(CategoryNotFound) && store.context.categories == old(store.context.categories)
      ensures FindCategory(old(store.context.categories), categories[index].title).Some? ==>
        outcome == Pass &&
        store.context.categories ==
          RemoveAt(old(store.context.categories), FindCategory(old(store.context.categories), categories[index].title).value)
      ensures store.context.trackers == old(store.context.trackers) && store.context.records == old(store.context.records)
      ensures store.context.nextOid == old(store.context.nextOid)
    {
      var category := GetCategory(index);
      outcome := store.DeleteCategory(category);
    }
  }

  /** At most one index is selected at a time. */
  lemma AtMostOneSelected(vm: CategoriesViewModel, i: int, j: int)
    requires vm.IsCategorySelected(i) && vm.IsCategorySelected(j)
    ensures i == j
  {
  }
}
