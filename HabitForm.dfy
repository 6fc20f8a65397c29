/** `HabitViewController`: the form that creates a habit or edits one. Its
    state is the title field's text, the chosen weekdays, emoji, colour and
    category title, and, when editing, the tracker's completion count shown
    as a day count. */
module HabitForm {
  import opened Common
  import opened WeekDays
  import opened Tables
  import opened RecordStores
  import opened TrackerStores
  import opened CategoryStores
  import Localization

  /** The longest title the field keeps. */
  const MaxTitleLength: nat := 38

  /** The emoji choices, in display order. */
  const Emojis: seq<string> := ["🙂", "😻", "🌺", "🐶", "❤️", "😱", "😇", "😡", "🥶",
                                "🤔", "🙌", "🍔", "🥦", "🏓", "🥇", "🎸", "🏝", "😪"]

  /** `(1...18).map { "selection_\($0)" }`. */
  function ColorName(n: nat): string
  {
    "selection_" + NatToDecimal(n)
  }

  const ColorOptions: seq<string> := seq(18, i requires 0 <= i < 18 => ColorName(i + 1))

  /** The colour options are "selection_1" to "selection_18" in order, one
      per emoji. */
  lemma ColorOptionsSpec()
    ensures |ColorOptions| == |Emojis| == 18
    ensures forall i | 0 <= i < 18 :: ColorOptions[i] == "selection_" + NatToDecimal(i + 1)
    ensures ColorOptions[0] == "selection_1" && ColorOptions[17] == "selection_18"
  {
    assert NatToDecimal(1) == "1";
    assert NatToDecimal(18) == NatToDecimal(1) + [DigitChar(8)] == "18";
  }

  datatype Mode = Create | Edit(original: Tracker)

  /** `String(text.prefix(38))` when the text is longer than 38. */
  function Truncated(text: string): string
  {
    if |text| > MaxTitleLength then text[..MaxTitleLength] else text
  }

  /** Truncation keeps at most 38 characters, keeps a prefix of the text,
      changes no text of 38 or fewer, and a second truncation changes
      nothing. */
  lemma TruncatedSpec(text: string)
    ensures |Truncated(text)| <= MaxTitleLength
    ensures Truncated(text) <= text
    ensures |text| <= MaxTitleLength ==> Truncated(text) == text
    ensures |text| > MaxTitleLength ==> |Truncated(text)| == MaxTitleLength
    ensures Truncated(Truncated(text)) == Truncated(text)
  {
  }

  /** `updateCreateButtonState`: a title, at least one day, and an emoji, a
      colour and a category chosen. A nil text counts as empty. */
  predicate CreateEnabled(text: Option<string>, days: seq<Weekday>, emoji: Option<string>,
                          color: Option<string>, category: Option<string>)
  {
    && text.Some? && text.value != ""
    && days != []
    && emoji.Some? && color.Some? && category.Some?
  }

  /** The tracker and category title `createButtonTapped` passes to
      `onSave`, if any. A new habit gets the id `newId` (Foundation's
      `UUID()`); an edited one keeps the original id and `isHabit`. */
  function Saved(mode: Mode, text: Option<string>, days: seq<Weekday>, emoji: Option<string>,
                 color: Option<string>, category: Option<string>, newId: UUID): Option<(Tracker, string)>
  {
    if text.Some? && text.value != "" && emoji.Some? && color.Some? && category.Some? then
      match mode
      case Create =>
        Some((Tracker(newId, text.value, color.value, emoji.value, days, true), category.value))
      case Edit(original) =>
        Some((Tracker(original.id, text.value, color.value, emoji.value, days, original.isHabit), category.value))
    else None
  }

  /** Tapping saves iff the title is non-empty and an emoji, a colour and a
      category are chosen; the saved tracker carries the form's fields; in
      edit mode it keeps the original's id and `isHabit`, and a new habit
      is a habit. */
  lemma SavedSpec(mode: Mode, text: Option<string>, days: seq<Weekday>, emoji: Option<string>,
                  color: Option<string>, category: Option<string>, newId: UUID)
    ensures Saved(mode, text, days, emoji, color, category, newId).Some? <==>
      text.Some? && text.value != "" && emoji.Some? && color.Some? && category.Some?
    ensures Saved(mode, text, days, emoji, color, category, newId).Some? ==>
      var (t, title) := Saved(mode, text, days, emoji, color, category, newId).value;
      && t.title == text.value && t.color == color.value && t.emoji == emoji.value
      && t.schedule == days && title == category.value
      && (mode.Edit? ==> t.id == mode.original.id && t.isHabit == mode.original.isHabit)
      && (mode.Create? ==> t.id == newId && t.isHabit)
  {
  }

  /** An enabled button always saves; the tap itself does not re-check the
      days, so a form with no days but everything else chosen saves too. */
  lemma EnabledButtonSaves(mode: Mode, text: Option<string>, days: seq<Weekday>, emoji: Option<string>,
                           color: Option<string>, category: Option<string>, newId: UUID)
    ensures CreateEnabled(text, days, emoji, color, category) ==>
      Saved(mode, text, days, emoji, color, category, newId).Some?
    ensures text.Some? && text.value != "" && emoji.Some? && color.Some? && category.Some? ==>
      !CreateEnabled(text, [], emoji, color, category) &&
      Saved(mode, text, [], emoji, color, category, newId).Some?
  {
  }

  /** The schedule row's subtitle: none for no days, `everyDay` for all
      seven, otherwise the short names in selection order joined by ", ".
      `shortName` and `everyDay` are localized strings. */
  function ScheduleSubtitle(days: seq<Weekday>, shortName: Weekday -> string, everyDay: string): Option<string>
  {
    if days == [] then None
    else if |days| == 7 then Some(everyDay)
    else Some(Join(Map(days, shortName), ", "))
  }

  lemma {:induction false} JoinStartsWithFirst(parts: seq<string>, sep: string)
    requires parts != []
    ensures |parts[0]| <= |Join(parts, sep)| && Join(parts, sep)[..|parts[0]|] == parts[0]
    ensures |parts| > 1 ==> Join(parts, sep) == parts[0] + sep + Join(parts[1..], sep)
  {
  }

  /** The subtitle is absent exactly when no day is chosen; it names every
      day when all seven are; one day shows that day's short name; several
      start with the first chosen day's short name and a separator. */
  lemma ScheduleSubtitleSpec(days: seq<Weekday>, shortName: Weekday -> string, everyDay: string)
    ensures ScheduleSubtitle(days, shortName, everyDay).None? <==> days == []
    ensures |days| == 7 ==> ScheduleSubtitle(days, shortName, everyDay) == Some(everyDay)
    ensures |days| == 1 ==> ScheduleSubtitle(days, shortName, everyDay) == Some(shortName(days[0]))
    ensures 1 < |days| < 7 ==>
      ScheduleSubtitle(days, shortName, everyDay).value ==
        shortName(days[0]) + ", " + Join(Map(days[1..], shortName), ", ")
  {
    if 1 < |days| < 7 {
      var names := Map(days, shortName);
      JoinStartsWithFirst(names, ", ");
      assert names[1..] == Map(days[1..], shortName);
    }
  }

  class HabitViewController {
    const mode: Mode
    const categoryStore: TrackerCategoryStore
    const recordStore: TrackerRecordStore
    /** The locale's language code, for the day count. */
    const language: Option<string>

    var text: Option<string>
    var selectedDays: seq<Weekday>
    var selectedEmoji: Option<string>
    var selectedColor: Option<string>
    var selectedCategoryTitle: Option<string>
    var completedTrackersCount: int
    var completedTrackersLabel: string
    var createEnabled: bool

    /** The form as created: empty, with the create button disabled. */
    constructor(mode: Mode, categoryStore: TrackerCategoryStore, recordStore: TrackerRecordStore,
                language: Option<string>)
      ensures this.mode == mode && this.categoryStore == categoryStore
      ensures this.recordStore == recordStore && this.language == language
      ensures text == Some("") && selectedDays == []
      ensures selectedEmoji.None? && selectedColor.None? && selectedCategoryTitle.None?
      ensures completedTrackersCount == 0
      ensures completedTrackersLabel == Localization.DaysCount(language, 0)
      ensures !createEnabled
    {
      this.mode := mode;
      this.categoryStore := categoryStore;
      this.recordStore := recordStore;
      this.language := language;
      text := Some("");
      selectedDays := [];
      selectedEmoji := None;
      selectedColor := None;
      selectedCategoryTitle := None;
      completedTrackersCount := 0;
      completedTrackersLabel := Localization.DaysCount(language, 0);
      createEnabled := false;
    }

    /** `updateCreateButtonState()`. */
    method UpdateCreateButtonState()
      modifies this`createEnabled
      ensures createEnabled == CreateEnabled(text, selectedDays, selectedEmoji, selectedColor, selectedCategoryTitle)
    {
      var isTitleValid := text.Some? && |text.value| != 0;
      var isScheduleSelected := |selectedDays| != 0;
      createEnabled := isTitleValid && isScheduleSelected && selectedEmoji.Some? && selectedColor.Some?
        && selectedCategoryTitle.Some?;
    }

    /** `populateWithTracker(_:)`: copies the tracker's fields into the form,
      takes the category title when the store finds one, and loads the
      completion count. */
    method PopulateWithTracker(tracker: Tracker)
      modifies this
      ensures text == Some(tracker.title) && selectedDays == tracker.schedule
      ensures selectedEmoji == Some(tracker.emoji) && selectedColor == Some(tracker.color)
      ensures var found := GetCategory(categoryStore.context.trackers, categoryStore.context.categories, tracker);
        selectedCategoryTitle == if found.Some? then Some(found.value.title) else old(selectedCategoryTitle)
      ensures completedTrackersCount == CompletionCount(recordStore.context.records, tracker.id)
      ensures completedTrackersLabel == Localization.DaysCount(language, completedTrackersCount)
      ensures createEnabled == CreateEnabled(text, selectedDays, selectedEmoji, selectedColor, selectedCategoryTitle)
    {
      text := Some(tracker.title);
      selectedDays := tracker.schedule;
      selectedEmoji := Some(tracker.emoji);
      selectedColor := Some(tracker.color);
      var category := GetCategory(categoryStore.context.trackers, categoryStore.context.categories, tracker);
      if category.Some? {
        selectedCategoryTitle := Some(category.value.title);
      }
      completedTrackersCount := CompletionCount(recordStore.context.records, tracker.id);
      completedTrackersLabel := Localization.DaysCount(language, completedTrackersCount);
      UpdateCreateButtonState();
    }

    /** `textFieldDidChange(_:)`: cuts the text to 38 characters. */
    method TextFieldDidChange()
      modifies this`text, this`createEnabled
      ensures text == if old(text).Some? then Some(Truncated(old(text).value)) else None
      ensures createEnabled == CreateEnabled(text, selectedDays, selectedEmoji, selectedColor, selectedCategoryTitle)
    {
      if text.Some? && |text.value| > MaxTitleLength {
        text := Some(text.value[..MaxTitleLength]);
      }
      UpdateCreateButtonState();
    }

    /** `createButtonTapped()`: what is passed to `onSave`, if anything. */
    method CreateButtonTapped(newId: UUID) returns (saved: Option<(Tracker, string)>)
      ensures saved == Saved(mode, text, selectedDays, selectedEmoji, selectedColor, selectedCategoryTitle, newId)
    {
      if text.None? || text.value == "" || selectedEmoji.None? || selectedColor.None? || selectedCategoryTitle.None? {
        return None;
      }
      var title := text.value;
      match mode {
        case Create =>
          saved := Some((Tracker(newId, title, selectedColor.value, selectedEmoji.value, selectedDays, true),
                         selectedCategoryTitle.value));
        case Edit(original) =>
          saved := Some((Tracker(original.id, title, selectedColor.value, selectedEmoji.value, selectedDays,
                                 original.isHabit), selectedCategoryTitle.value));
      }
    }

    /** The category screen's `onCategorySelect` callback. */
    method CategorySelected(categoryTitle: string)
      modifies this`selectedCategoryTitle, this`createEnabled
      ensures selectedCategoryTitle == Some(categoryTitle)
      ensures createEnabled == CreateEnabled(text, selectedDays, selectedEmoji, selectedColor, selectedCategoryTitle)
    {
      selectedCategoryTitle := Some(categoryTitle);
      UpdateCreateButtonState();
    }

    /** The schedule screen's `onDaysSelected` callback. */
    method DaysSelected(days: seq<Weekday>)
      modifies this`selectedDays, this`createEnabled
      ensures selectedDays == days
      ensures createEnabled == CreateEnabled(text, selectedDays, selectedEmoji, selectedColor, selectedCategoryTitle)
    {
      selectedDays := days;
      UpdateCreateButtonState();
    }

    /** `collectionView(_:didSelectItemAt:)` in the emoji collection, which
      has one item per emoji. */
    method DidSelectEmoji(item: nat)
      requires item < |Emojis|
      modifies this`selectedEmoji, this`createEnabled
      ensures selectedEmoji == Some(Emojis[item])
      ensures createEnabled == CreateEnabled(text, selectedDays, selectedEmoji, selectedColor, selectedCategoryTitle)
    {
      selectedEmoji := Some(Emojis[item]);
      UpdateCreateButtonState();
    }

    /** `collectionView(_:didSelectItemAt:)` in the colour collection. */
    method DidSelectColor(item: nat)
      requires item < |ColorOptions|
      modifies this`selectedColor, this`createEnabled
      ensures selectedColor == Some(ColorOptions[item])
      ensures createEnabled == CreateEnabled(text, selectedDays, selectedEmoji, selectedColor, selectedCategoryTitle)
    {
      selectedColor := Some(ColorOptions[item]);
      UpdateCreateButtonState();
    }
  }

  /** Editing a tracker with a title and days, filed under a category the
      store finds, enables the save button at once; saving then keeps the
      tracker's id and `isHabit`. */
  lemma EditFormStartsEnabled(tracker: Tracker, categoryTitle: string, newId: UUID)
    requires tracker.title != "" && tracker.schedule != []
    ensures CreateEnabled(Some(tracker.title), tracker.schedule, Some(tracker.emoji), Some(tracker.color), Some(categoryTitle))
    ensures Saved(Edit(tracker), Some(tracker.title), tracker.schedule, Some(tracker.emoji), Some(tracker.color),
                  Some(categoryTitle), newId) == Some((tracker, categoryTitle))
  {
  }
}
