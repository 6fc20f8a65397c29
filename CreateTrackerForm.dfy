/** `CreateTrackerViewController`: the first-generation creation form. It
    holds the name field's text (at most 38 characters are let in), the
    chosen weekdays with their summary line, the chosen emoji and colour
    indices, and the colour and category the new tracker gets. */
module CreateTrackerForm {
  import opened Common
  import opened WeekDays
  import opened Palette
  import TrackerList

  const MaxNameLength: nat := 38

  /** The emoji choices, in display order. */
  const Emojis: seq<string> := ["😀", "😃", "😅", "😍", "😎", "🤩", "🤓", "😴", "🤔",
                                "😇", "😬", "😭", "😡", "👍", "👎", "👏", "🎯", "🌟"]

  /** The emoji a tracker gets when none is chosen. */
  const DefaultEmoji: string := "⭐"

  /** Foundation's `.whitespacesAndNewlines`: Unicode's White_Space code
      points. */
  predicate IsWhitespace(c: char)
  {
    var u := c as int;
    || (0x09 <= u <= 0x0D) || u == 0x20 || u == 0x85 || u == 0xA0 || u == 0x1680
    || (0x2000 <= u <= 0x200A) || u == 0x2028 || u == 0x2029 || u == 0x202F
    || u == 0x205F || u == 0x3000
  }

  /** Where the text starts once leading whitespace is skipped. */
  function LeadingEnd(s: string, from: nat): (i: nat)
    requires from <= |s|
    ensures from <= i <= |s|
    ensures forall k | from <= k < i :: IsWhitespace(s[k])
    ensures i < |s| ==> !IsWhitespace(s[i])
    decreases |s| - from
  {
    if from < |s| && IsWhitespace(s[from]) then LeadingEnd(s, from + 1) else from
  }

  /** Where the text ends once trailing whitespace is dropped, not going
      below `lo`. */
  function TrailingStart(s: string, lo: nat, hi: nat): (j: nat)
    requires lo <= hi <= |s|
    ensures lo <= j <= hi
    ensures forall k | j <= k < hi :: IsWhitespace(s[k])
    ensures j > lo ==> !IsWhitespace(s[j - 1])
    decreases hi
  {
    if hi > lo && IsWhitespace(s[hi - 1]) then TrailingStart(s, lo, hi - 1) else hi
  }

  /** `trimmingCharacters(in: .whitespacesAndNewlines)`. */
  function Trim(s: string): (t: string)
    ensures |t| <= |s|
    ensures t != [] ==> !IsWhitespace(t[0]) && !IsWhitespace(t[|t| - 1])
  {
    var i := LeadingEnd(s, 0);
    s[i..TrailingStart(s, i, |s|)]
  }

  /** Trimming drops only whitespace, from both ends, and leaves text that
      neither starts nor ends with whitespace; trimming again changes
      nothing; text that is all whitespace trims to nothing. */
  lemma TrimSpec(s: string)
    ensures var i := LeadingEnd(s, 0); var j := TrailingStart(s, i, |s|);
      && Trim(s) == s[i..j]
      && (forall k | 0 <= k < i :: IsWhitespace(s[k]))
      && (forall k | j <= k < |s| :: IsWhitespace(s[k]))
    ensures Trim(s) != [] ==> !IsWhitespace(Trim(s)[0]) && !IsWhitespace(Trim(s)[|Trim(s)| - 1])
    ensures Trim(Trim(s)) == Trim(s)
    ensures Trim(s) == [] <==> forall k | 0 <= k < |s| :: IsWhitespace(s[k])
  {
    var t := Trim(s);
    var i := LeadingEnd(s, 0);
    var j := TrailingStart(s, i, |s|);
    if t != [] {
      assert t[0] == s[i] && t[|t| - 1] == s[j - 1];
      var i' := LeadingEnd(t, 0);
      assert i' == 0;
      var j' := TrailingStart(t, 0, |t|);
      assert j' == |t|;
      assert t[0..|t|] == t;
    }
  }

  /** The emoji a new tracker gets. */
  function ChosenEmoji(selectedEmojiIndex: Option<nat>): string
    requires selectedEmojiIndex.Some? ==> selectedEmojiIndex.value < |Emojis|
  {
    if selectedEmojiIndex.Some? then Emojis[selectedEmojiIndex.value] else DefaultEmoji
  }

  /** `textField(_:shouldChangeCharactersIn:replacementString:)` followed by
      the field applying an accepted edit: the text after replacing
      `length` characters at `location` with `replacement`. */
  function Replaced(current: string, location: int, length: int, replacement: string): Option<string>
  {
    if 0 <= location && 0 <= length && location + length <= |current| then
      Some(current[..location] + replacement + current[location + length..])
    else None
  }

  /** One keyboard edit: replace `length` characters at `location`. */
  datatype KeyEdit = KeyEdit(location: int, length: int, replacement: string)

  /** The field's text after an edit, accepted or rejected. */
  function AfterEdit(text: string, e: KeyEdit): (r: string)
    ensures r == text || (Replaced(text, e.location, e.length, e.replacement) == Some(r) && |r| <= MaxNameLength)
    ensures |text| <= MaxNameLength ==> |r| <= MaxNameLength
  {
    match Replaced(text, e.location, e.length, e.replacement)
    case Some(updated) => if |updated| <= MaxNameLength then updated else text
    case None => text
  }

  /** The field's text after a run of edits, first to last. */
  function AfterEdits(text: string, edits: seq<KeyEdit>): string
    decreases |edits|
  {
    if edits == [] then text else AfterEdits(AfterEdit(text, edits[0]), edits[1..])
  }

  /** Starting from a name within the limit, no run of edits can take the
      name past 38 characters. */
  lemma {:induction false} EditsStayWithinLimit(text: string, edits: seq<KeyEdit>)
    requires |text| <= MaxNameLength
    ensures |AfterEdits(text, edits)| <= MaxNameLength
    decreases |edits|
  {
    if edits != [] {
      EditsStayWithinLimit(AfterEdit(text, edits[0]), edits[1..]);
    }
  }

  /** Typing at the end is accepted exactly while the result fits. */
  lemma AppendAccepted(text: string, typed: string)
    ensures AfterEdit(text, KeyEdit(|text|, 0, typed)) ==
      if |text| + |typed| <= MaxNameLength then text + typed else text
  {
    assert text[..|text|] + typed + text[|text|..] == text + typed;
  }

  /** The list of item indices to reload after selecting `item` when
      `previous` was selected. */
  function ReloadList(previous: Option<nat>, item: nat): seq<nat>
  {
    [item] + (if previous.Some? && previous.value != item then [previous.value] else [])
  }

  /** The reload list always holds the new index first, and the previous
      index exactly when it differs; no index appears twice. */
  lemma ReloadListSpec(previous: Option<nat>, item: nat)
    ensures ReloadList(previous, item)[0] == item
    ensures forall p :: p in ReloadList(previous, item) <==> p == item || (previous == Some(p) && p != item)
    ensures NoDuplicates(ReloadList(previous, item))
  {
  }

  class CreateTrackerViewController {
    var text: string
    var nameWarningHidden: bool
    var selectedScheduleDays: seq<WeekDay>
    var scheduleSummaryHidden: bool
    var scheduleSummaryText: Option<string>
    var selectedEmojiIndex: Option<nat>
    var selectedColorIndex: Option<nat>
    var defaultColor: Colors
    var defaultCategoryUuid: UUID

    ghost predicate Valid()
      reads this
    {
      && (selectedEmojiIndex.Some? ==> selectedEmojiIndex.value < |Emojis|)
      && |text| <= MaxNameLength
    }

    /** The form as `viewDidLoad` leaves it: the colour index points at the
      default colour. `categoryUuid` is the default category (a fresh UUID
      unless the presenter sets one). */
    constructor(categoryUuid: UUID)
      ensures Valid()
      ensures text == "" && nameWarningHidden && selectedScheduleDays == []
      ensures scheduleSummaryHidden && scheduleSummaryText.None?
      ensures selectedEmojiIndex.None? && defaultColor == PinkEnergy && defaultCategoryUuid == categoryUuid
      ensures selectedColorIndex == Some(0) && AllColors[0] == defaultColor
    {
      text := "";
      nameWarningHidden := true;
      selectedScheduleDays := [];
      scheduleSummaryHidden := true;
      scheduleSummaryText := None;
      selectedEmojiIndex := None;
      defaultColor := PinkEnergy;
      defaultCategoryUuid := categoryUuid;
      selectedColorIndex := Some(0);
    }

    /** A keyboard edit: rejected when the range does not fit the text or
      the result would pass 38 characters (then the warning shows). */
    method EditName(location: int, length: int, replacement: string) returns (accepted: bool)
      requires Valid()
      modifies this`text, this`nameWarningHidden
      ensures Valid()
      ensures accepted <==>
        Replaced(old(text), location, length, replacement).Some? &&
        |Replaced(old(text), location, length, replacement).value| <= MaxNameLength
      ensures accepted ==> text == Replaced(old(text), location, length, replacement).value && nameWarningHidden
      ensures !accepted ==> text == old(text)
      ensures Replaced(old(text), location, length, replacement).Some? && !accepted ==> !nameWarningHidden
      ensures Replaced(old(text), location, length, replacement).None? ==> nameWarningHidden == old(nameWarningHidden)
      ensures text == AfterEdit(old(text), KeyEdit(location, length, replacement))
    {
      var updated := Replaced(text, location, length, replacement);
      if updated.None? {
        return false;
      }
      if |updated.value| > MaxNameLength {
        nameWarningHidden := false;
        return false;
      }
      nameWarningHidden := |updated.value| <= MaxNameLength;
      text := updated.value;
      accepted := true;
    }

    /** `nameFieldChanged(_:)`: the warning shows iff the name is over the
      limit, which an accepted edit never leaves it. */
    method NameFieldChanged()
      requires Valid()
      modifies this`nameWarningHidden
      ensures nameWarningHidden <==> |text| <= MaxNameLength
      ensures nameWarningHidden
    {
      nameWarningHidden := |text| <= MaxNameLength;
    }

    /** `textFieldShouldClear(_:)`, then the field empties itself. */
    method ClearName()
      requires Valid()
      modifies this`text, this`nameWarningHidden
      ensures Valid()
      ensures text == "" && nameWarningHidden
    {
      nameWarningHidden := true;
      text := "";
    }

    /** `scheduleViewController(_:didSelectDays:)`: the summary is hidden
      iff no day is chosen, and otherwise lists the short names. */
    method DidSelectDays(days: seq<WeekDay>, shortName: WeekDay -> string)
      modifies this`selectedScheduleDays, this`scheduleSummaryHidden, this`scheduleSummaryText
      ensures selectedScheduleDays == days
      ensures scheduleSummaryHidden <==> days == []
      ensures scheduleSummaryText == if days == [] then None else Some(Join(Map(days, shortName), ", "))
    {
      selectedScheduleDays := days;
      if |days| == 0 {
        scheduleSummaryHidden := true;
        scheduleSummaryText := None;
      } else {
        scheduleSummaryHidden := false;
        scheduleSummaryText := Some(Join(Map(days, shortName), ", "));
      }
    }

    /** `collectionView(_:didSelectItemAt:)` in the emoji collection. */
    method DidSelectEmoji(item: nat) returns (reload: seq<nat>)
      requires Valid() && item < |Emojis|
      modifies this`selectedEmojiIndex
      ensures Valid()
      ensures selectedEmojiIndex == Some(item)
      ensures reload == ReloadList(old(selectedEmojiIndex), item)
    {
      var previous := selectedEmojiIndex;
      selectedEmojiIndex := Some(item);
      reload := [item];
      if previous.Some? && previous.value != item {
        reload := reload + [previous.value];
      }
    }

    /** `collectionView(_:didSelectItemAt:)` in the colour collection: the
      default colour follows the index only while it names a colour. */
    method DidSelectColor(item: nat) returns (reload: seq<nat>)
      modifies this`selectedColorIndex, this`defaultColor
      ensures selectedColorIndex == Some(item)
      ensures reload == ReloadList(old(selectedColorIndex), item)
      ensures item < |AllColors| ==> defaultColor == AllColors[item]
      ensures item >= |AllColors| ==> defaultColor == old(defaultColor)
    {
      var previous := selectedColorIndex;
      selectedColorIndex := Some(item);
      reload := [item];
      if previous.Some? && previous.value != item {
        reload := reload + [previous.value];
      }
      if item < |AllColors| {
        defaultColor := AllColors[item];
      }
    }

    /** `createTapped()`: nothing for a blank name; otherwise a tracker
      with the trimmed name, the default category and colour, the chosen
      days (nil for none), the chosen emoji or ⭐, and no completions.
      `newId` is the fresh `UUID()`. */
    method CreateTapped(newId: UUID) returns (created: Option<TrackerList.Tracker>)
      requires Valid()
      ensures Trim(text) == "" <==> created.None?
      ensures created.Some? ==>
        var t := created.value;
        && fresh(t)
        && t.id == newId && t.name == Trim(text) && t.categoryUuid == defaultCategoryUuid
        && t.schedule == (if selectedScheduleDays == [] then None else Some(selectedScheduleDays))
        && t.emoji == ChosenEmoji(selectedEmojiIndex)
        && t.color == defaultColor
        && t.completeAt == []
    {
      var name := Trim(text);
      if name == "" {
        return None;
      }
      var emoji := if selectedEmojiIndex.Some? then Emojis[selectedEmojiIndex.value] else DefaultEmoji;
      var schedule := if selectedScheduleDays == [] then None else Some(selectedScheduleDays);
      var tracker := new TrackerList.Tracker(newId, name, defaultCategoryUuid, schedule, emoji, defaultColor, []);
      created := Some(tracker);
    }
  }
}
