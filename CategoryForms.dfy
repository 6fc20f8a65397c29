/** `NewCategoryViewController` and `EditCategoryViewController`: a title
    field, a done button enabled by the field's text, and a done action that
    adds or renames a category in the store. */
module CategoryForms {
  import opened Common
  import opened Tables
  import opened CategoryStores

  /** What a tap on done led to: nothing, the store changed and the screen
      dismissed, or the store threw (an alert for a rename, a log line for
      an add). */
  datatype DoneResult = Ignored | Dismissed | ShowedAlert

  /** The new-category form's done button: some non-empty text. */
  predicate NewDoneEnabled(text: Option<string>)
  {
    text.Some? && text.value != ""
  }

  /** The edit form's done button: non-empty text that differs from the
      category's current title. */
  predicate EditDoneEnabled(text: Option<string>, original: string)
  {
    text.Some? && text.value != "" && text.value != original
  }

  /** Editing accepts strictly fewer texts than creating: exactly those that
      are not the original title. */
  lemma EditEnabledIsNewEnabledButChanged(text: Option<string>, original: string)
    ensures EditDoneEnabled(text, original) <==> NewDoneEnabled(text) && text != Some(original)
    ensures !EditDoneEnabled(Some(original), original)
    ensures !NewDoneEnabled(None) && !NewDoneEnabled(Some(""))
  {
  }

  class NewCategoryViewController {
    const store: TrackerCategoryStore
    var text: Option<string>
    var doneEnabled: bool

    /** The button starts disabled, over an empty field. */
    constructor(store: TrackerCategoryStore)
      ensures this.store == store && text == Some("") && !doneEnabled
      ensures doneEnabled == NewDoneEnabled(text)
    {
      this.store := store;
      text := Some("");
      doneEnabled := false;
    }

    /** `textFieldDidChange` then `updateDoneButtonState()`. */
    method TextFieldDidChange(newText: Option<string>)
      modifies this`text, this`doneEnabled
      ensures text == newText
      ensures doneEnabled <==> NewDoneEnabled(newText)
    {
      text := newText;
      doneEnabled := text.Some? && |text.value| > 0;
    }

    /** `doneButtonTapped()`: nothing on empty text; otherwise a category
      with exactly the typed title and no trackers is added. */
    method DoneButtonTapped() returns (result: DoneResult)
      requires store.context.Valid()
      modifies store.context
      ensures store.context.Valid()
      ensures result != ShowedAlert
      ensures result == Dismissed <==> NewDoneEnabled(text)
      ensures result == Ignored ==>
        store.context.categories == old(store.context.categories) &&
        store.context.trackers == old(store.context.trackers) &&
        store.context.nextOid == old(store.context.nextOid)
      ensures result == Dismissed ==>
        store.context.categories ==
          old(store.context.categories) + [CategoryRow(old(store.context.nextOid), Some(text.value))] &&
        store.context.trackers == old(store.context.trackers) &&
        store.context.nextOid == old(store.context.nextOid) + 1
      ensures store.context.records == old(store.context.records)
    {
      if text.None? || text.value == "" {
        return Ignored;
      }
      store.AddCategory(TrackerCategory(text.value, []));
      result := Dismissed;
    }
  }

  class EditCategoryViewController {
    const store: TrackerCategoryStore
    const category: TrackerCategory
    var text: Option<string>
    var doneEnabled: bool

    /** The field starts with the category's title, so after `viewDidLoad`
      the button is disabled. */
    constructor(store: TrackerCategoryStore, category: TrackerCategory)
      ensures this.store == store && this.category == category
      ensures text == Some(category.title) && !doneEnabled
      ensures doneEnabled == EditDoneEnabled(text, category.title)
    {
      this.store := store;
      this.category := category;
      text := Some(category.title);
      doneEnabled := false;
    }

    /** `textFieldDidChange` then `updateDoneButtonState()`. */
    method TextFieldDidChange(newText: Option<string>)
      modifies this`text, this`doneEnabled
      ensures text == newText
      ensures doneEnabled <==> EditDoneEnabled(newText, category.title)
    {
      text := newText;
      doneEnabled := text.Some? && |text.value| > 0 && text.value != category.title;
    }

    /** `doneButtonTapped()`: nothing on empty or unchanged text; otherwise
      the store renames the first category with the original title, and
      the screen is dismissed, or an alert shown when none has it. */
    method DoneButtonTapped() returns (result: DoneResult)
      requires store.context.Valid()
      modifies store.context
      ensures store.context.Valid()
      ensures result == Ignored <==> !EditDoneEnabled(text, category.title)
      ensures result != Dismissed ==> store.context.categories == old(store.context.categories)
      ensures result == ShowedAlert <==>
        EditDoneEnabled(text, category.title) && FindCategory(old(store.context.categories), category.title).None?
      ensures result == Dismissed ==>
        var k := FindCategory(old(store.context.categories), category.title).value;
        store.context.categories ==
          old(store.context.categories)[k := CategoryRow(old(store.context.categories)[k].oid, Some(text.value))]
      ensures store.context.trackers == old(store.context.trackers)
      ensures store.context.records == old(store.context.records)
    {
      if text.None? || text.value == "" || text.value == category.title {
        return Ignored;
      }
      var outcome := store.UpdateCategory(category, text.value);
      result := if outcome.Pass? then Dismissed else ShowedAlert;
    }
  }
}
