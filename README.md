# Tracker habit app: a verified model of its core logic

This project models the logic of an iOS habit tracker. The app's trackers are habits with a name, an emoji, a colour and an optional weekly schedule; users mark them done day by day and file them under categories. Two generations of the data model coexist in the app, and each part of the model follows the generation its source file uses.

- **Main list** (`TrackerList`): groups first-generation trackers into one section per known category, sorted by category name. It filters them by a search text or by the weekday of the chosen date. Its plus button marks or unmarks a tracker on the chosen day, and never on a future day.
- **Schedule picker** (`Schedule`): a seven-flag array over the weekdays. It is built from the initial days, toggled in place, and read back as days in week order.
- **Day-count text** (`Localization`): "N day(s)" in English and the three Russian plural forms.
- **Stores** (`Tables`, `RecordStores`, `TrackerStores`, `CategoryStores`): the persistence layer over an in-memory table of rows. The rows stand in for the CoreData entities, including their optional attributes. The stores cover:
  - record add, remove, exists and count
  - tracker fetch, add, update and delete (delete also removes the tracker's records)
  - category get-or-create, rename, delete and fetch
  - the schedule's raw-value encoding
- **View models and forms** (`CategorySelection`, `HabitForm`, `CreateTrackerForm`, `CategoryForms`):
  - the category list with its selected index
  - the two tracker forms, with their enabling rules, name limits and default values
  - the new-category and edit-category forms
- **Analytics** (`Analytics`): the event's name and parameter map. A parser shows that the pair determines the event.

The first-generation `Tracker` class and `WeekDay` enum follow the app's model files (`Models /Tracker.swift` lines 21-61 and `Models /WeekDay.swift` lines 9-40); because that directory name holds a space, the table below cites the lines that call them.

Dates are whole day numbers. Anything the app reads from the system becomes a parameter:
- the current day
- the calendar weekday number
- the language code
- `lowercased()`
- the weekday short names
- the set of raw values `Weekday(rawValue:)` accepts
- fresh UUIDs

## Model

| member | source | states |
|---|---|---|
| TrackerList.Tracker.constructor | Scence/CreateTrackerViewController.swift:391-399 | every field holds the given value |
| TrackerList.Tracker.MarkCompleted | Scence/TrackerViewController.swift:180 | adds the day at the end iff it was not done, and reports whether it did |
| TrackerList.Tracker.UnmarkCompleted | Scence/TrackerViewController.swift:169 | removes the first occurrence of the day, and reports whether there was one |
| TrackerList.RemoveFirstCounts | Scence/TrackerViewController.swift:169 | unmarking takes away exactly one occurrence of the day, when there is one |
| TrackerList.ToggleFlipsOnlyThatDay | Scence/TrackerViewController.swift:165-189 | on duplicate-free dates the plus button flips whether the chosen day is done, leaves every other day alone, and keeps dates duplicate-free |
| TrackerList.ToggleTwiceRestores | Scence/TrackerViewController.swift:165-189 | pressing plus twice on the same day restores the same dates |
| TrackerList.CategoryUuids | Scence/TrackerViewController.swift:256 | the grouping keys are exactly the trackers' category uuids, each once |
| TrackerList.FindCategory | Scence/TrackerViewController.swift:260 | finds a category with the uuid from the list, or reports that none has it |
| TrackerList.CollectSections | Scence/TrackerViewController.swift:255-271 | the sections are sorted by category name and are a permutation of one section per grouping key whose category is known |
| TrackerList.SectionsHoldTheirCategory | Scence/TrackerViewController.swift:256-264 | each section holds the first category with its uuid and exactly that category's trackers in their original order |
| TrackerList.SectionsHaveDistinctCategories | Scence/TrackerViewController.swift:256-264 | no two sections share a category uuid |
| TrackerList.EveryTrackerPlacedOnce | Scence/TrackerViewController.swift:256-264 | a tracker of an unknown category is in no section; every other tracker is in exactly one section |
| TrackerList.NameOrderIsTotal | Scence/TrackerViewController.swift:266-268 | the name comparison is a total preorder, so the sort is well defined |
| TrackerList.SearchResultsSpec | Scence/TrackerViewController.swift:13-22 | empty text shows all trackers; otherwise it shows exactly those whose lowercased name contains the lowercased text, with multiplicities and order kept |
| TrackerList.DueOnSpec | Scence/TrackerViewController.swift:36-42 | the date filter keeps a tracker iff it has no schedule or its schedule holds the weekday; an unscheduled tracker of a known category is always shown |
| TrackerList.TrackerViewController.constructor | Scence/TrackerViewController.swift:255-271 | both section lists hold the full grouping of the loaded trackers |
| TrackerList.TrackerViewController.SearchTextDidChange | Scence/TrackerViewController.swift:13-22 | the shown sections are the grouping of the search results |
| TrackerList.TrackerViewController.ChangeDate | Scence/TrackerViewController.swift:29-45 | the date is always taken; an unconvertible weekday leaves the sections as they were; otherwise they are the grouping of the trackers due that weekday |
| TrackerList.TrackerViewController.CreateTrackerDidCreate | Scence/TrackerViewController.swift:51-54 | the tracker is appended, and both section lists become the full grouping |
| TrackerList.TrackerViewController.TrackerCellDidTapPlus | Scence/TrackerViewController.swift:156-189 | a future date changes nothing; otherwise the tapped tracker's dates are toggled on the chosen day |
| WeekDays.Index | Scence/ScheduleViewController.swift:44-46 | the index is the day's position in `allCases` |
| WeekDays.IndexInjective | Scence/ScheduleViewController.swift:44-46 | distinct days have distinct indices |
| WeekDays.CalendarWeekdayConversion | Scence/TrackerViewController.swift:33-34 | the conversion succeeds iff the number is 1 to 7, and maps Sunday=1 and Monday=2 onto week positions |
| WeekDays.CalendarWeekdayOnto | Scence/TrackerViewController.swift:33-34 | every day is reached by some calendar number |
| WeekDays.WeekdayFromRaw | CoreDate/Stores/TrackerStore.swift:129 | the second-generation weekday exists iff the raw value is known, and then it carries that raw value |
| Schedule.FlagsOf | Scence/ScheduleViewController.swift:44-48 | one flag per weekday |
| Schedule.ChosenAmongSpec | Scence/ScheduleViewController.swift:102-104 | the days read back are exactly the flagged ones among the first n, in strictly increasing week order |
| Schedule.SelectedDaysSpec | Scence/ScheduleViewController.swift:102-104 | done reports exactly the flagged days, in `allCases` order, without duplicates |
| Schedule.ChosenAmongFlagsOf | Scence/ScheduleViewController.swift:44-48 | reading back the flags built from days D gives the members of D among the first n weekdays, in week order |
| Schedule.OpenThenDoneRoundTrip | Scence/ScheduleViewController.swift:44-47 | opening with days D and pressing done at once reports D, de-duplicated and in week order |
| Schedule.ToggleRowSpec | Scence/ScheduleViewController.swift:142 | selecting a row flips only its flag and keeps the length; selecting it twice restores the flags |
| Schedule.ScheduleViewController.constructor | Scence/ScheduleViewController.swift:43-50 | the fresh seven-flag array has flag i set iff some initial day has index i |
| Schedule.ScheduleViewController.DoneTapped | Scence/ScheduleViewController.swift:101-107 | reports the days whose flags are set |
| Schedule.ScheduleViewController.DidSelectRow | Scence/ScheduleViewController.swift:141-148 | the array becomes the old one with the row's flag flipped |
| Schedule.ScheduleViewController.SwitchChanged | Scence/ScheduleViewController.swift:157-161 | an out-of-range tag changes nothing; an in-range tag sets only that flag to the switch value |
| Localization.LanguageOrDefault | Resources/Localization.swift:68 | a missing language code reads as "en" |
| Localization.DaysCountShape | Resources/Localization.swift:67-96 | the text is the decimal count, a space and one of the nouns of its language; languages other than Russian all give the English text |
| Localization.EnglishForms | Resources/Localization.swift:88-94 | outside Russian, 1 gives "day" and every other count gives "days" |
| Localization.RussianCasesAsWritten | Resources/Localization.swift:71-86 | the Russian switch as written: last digit 1 with remainder from 11 up gives "дней"; "день" iff the remainder mod 100 is 1; "дня" iff the last digit is 2 to 4 outside 12 to 14; negative counts give "дней" |
| Localization.TruncRemDigits | Resources/Localization.swift:72-73 | Swift's truncating remainder agrees with the mathematical one for non-negative counts, and is never positive for negative ones |
| Localization.RussianNounIntended | Resources/Localization.swift:71-86 | the corrected rule: the noun depends on count mod 100; 11 to 19 give "дней"; otherwise the last digit decides, and "день" iff the last digit is 1 and the remainder is not 11 |
| Localization.AsWrittenDiffersFromIntended | Resources/Localization.swift:76-77 | the switch as written and the corrected rule differ exactly on last digit 1 with remainder at least 21 |
| Localization.TwentyOneAsWritten | Resources/Localization.swift:76-77 | 21 reads "21 дней" as written and "21 день" when corrected |
| Tables.Context.InsertCategory | CoreDate/Stores/TrackerStore.swift:110-112 | a new category row with a fresh object id is appended; nothing else changes |
| Tables.KeepOnly | CoreDate/Stores/TrackerRecordStore.swift:62-63 | the deleting loop keeps exactly the rows that pass, in order |
| Tables.CategoryOidFor | CoreDate/Stores/TrackerStore.swift:102-108 | a category is found iff some row has the title, and the found row has it |
| Tables.TitleOfOidFinds | CoreDate/Stores/TrackerCategoryStore.swift:95-98 | with distinct object ids, a row's object id leads back to its title |
| Tables.RemoveAt | CoreDate/Stores/TrackerStore.swift:72 | deleting one row shifts the later rows down by one and keeps the earlier ones |
| Tables.DecodeKeepsKnownInOrder | CoreDate/Stores/TrackerStore.swift:128-129 | decoding drops unknown raw values and keeps the known ones in order |
| Tables.ScheduleRoundTrip | CoreDate/Stores/TrackerStore.swift:128-129 | decoding what was encoded returns the same weekday list when every raw value is known |
| Tables.EncodeKeepsRawValues | CoreDate/Stores/TrackerStore.swift:152 | every encoded value is the raw value of a scheduled day |
| Tables.DecodeWholeScheduleSpec | CoreDate/Stores/TrackerRecordStore.swift:137-145 | the record store's decode returns all days when every raw value is known, and nothing when one is not |
| Tables.MakeTracker | CoreDate/Stores/TrackerStore.swift:116-143 | a tracker exists iff id, title, color and emoji are present; a missing schedule gives an empty one |
| Tables.MakeTrackerStrict | CoreDate/Stores/TrackerRecordStore.swift:115-135 | a tracker exists iff id, title, color, emoji and schedule data are all present |
| Tables.WrittenReadsBack | CoreDate/Stores/TrackerStore.swift:145-161 | a row written from a tracker reads back as that tracker in both stores, and keeps its category |
| Tables.TrackersOf | CoreDate/Stores/TrackerCategoryStore.swift:114-141 | converting rows drops rows and never invents them |
| Tables.TrackersOfMembers | CoreDate/Stores/TrackerCategoryStore.swift:114-121 | a tracker is in the result iff some row converts to it |
| Tables.TrackersOfWritten | CoreDate/Stores/TrackerCategoryStore.swift:114-141 | rows that each convert to the matching tracker give exactly those trackers |
| Tables.MakeRecord | CoreDate/Stores/TrackerRecordStore.swift:107-113 | a record exists iff id and date are present, and it carries them |
| Tables.RecordsOf | CoreDate/Stores/TrackerRecordStore.swift:48-50 | each record appears as often as its complete row |
| RecordStores.FetchAllTrackers | CoreDate/Stores/TrackerRecordStore.swift:91-103 | every fetched tracker comes from a row that converts to it, and every row that converts contributes its tracker |
| RecordStores.LaterFirstIsTotalOrder | CoreDate/Stores/TrackerRecordStore.swift:19-22 | date descending then id ascending is a total order |
| RecordStores.CompletionCount | CoreDate/Stores/TrackerRecordStore.swift:82-87 | the count is zero iff no record carries the id, and never exceeds the number of rows |
| RecordStores.IsTrackerCompletedSpec | CoreDate/Stores/TrackerRecordStore.swift:75-80 | completed iff a record with exactly that id and date is stored |
| RecordStores.AddRecordSpec | CoreDate/Stores/TrackerRecordStore.swift:52-56 | after adding, the tracker is completed that day, its count grows by one even for a repeat, and other ids' counts stay |
| RecordStores.AddRecordFetched | CoreDate/Stores/TrackerRecordStore.swift:67-73 | after adding, the tracker's fetched records grow by exactly that record |
| RecordStores.AddRecordFetchedOne | CoreDate/Stores/TrackerRecordStore.swift:67-73 | adding raises the record's multiplicity by one and leaves others unchanged |
| RecordStores.RemoveRecordSpec | CoreDate/Stores/TrackerRecordStore.swift:58-65 | after removing, the tracker is not completed that day; every other row and every other id's count stay |
| RecordStores.FetchRecordsSpec | CoreDate/Stores/TrackerRecordStore.swift:67-73 | the fetch returns exactly the complete records with the id, as often as stored |
| RecordStores.TrackerRecordStore.constructor | CoreDate/Stores/TrackerRecordStore.swift:10-14 | the store works on the given table |
| RecordStores.TrackerRecordStore.AddRecord | CoreDate/Stores/TrackerRecordStore.swift:52-56 | one row with exactly the record's id and date is appended; nothing else changes |
| RecordStores.TrackerRecordStore.RemoveRecord | CoreDate/Stores/TrackerRecordStore.swift:58-65 | every row with that id and date is deleted and all others kept in order |
| RecordStores.TrackerRecordStore.FetchAllRecords | CoreDate/Stores/TrackerRecordStore.swift:48-50 | the complete records, reordered by date descending then id ascending |
| TrackerStores.FetchTracker | CoreDate/Stores/TrackerStore.swift:86-97 | `trackerNotFound` iff no row has the id; otherwise the first row with it |
| TrackerStores.AttachedReadsBack | CoreDate/Stores/TrackerStore.swift:54-62 | a row written from a tracker and filed under a title reads back as the tracker, and its category reads back as the title |
| TrackerStores.DeleteTrackerRecordsSpec | CoreDate/Stores/TrackerStore.swift:64-74 | after deleting, the tracker has no records, and other trackers keep theirs exactly |
| TrackerStores.TrackerStore.constructor | CoreDate/Stores/TrackerStore.swift:12-16 | the store works on the given table |
| TrackerStores.TrackerStore.GetOrCreateCategory | CoreDate/Stores/TrackerStore.swift:101-114 | the existing category with the title, or a new one appended with that title |
| TrackerStores.TrackerStore.AddTracker | CoreDate/Stores/TrackerStore.swift:54-62 | one row written from the tracker is appended under the category with the title, created if needed |
| TrackerStores.TrackerStore.DeleteTracker | CoreDate/Stores/TrackerStore.swift:64-74 | an unknown id throws and changes nothing; otherwise the tracker's records and its first row are deleted; the store's invariant is kept |
| TrackerStores.TrackerStore.UpdateTracker | CoreDate/Stores/TrackerStore.swift:76-84 | an unknown id throws before any category is created; otherwise the first row keeps its place, is rewritten and moves to the named category |
| CategoryStores.MakeCategory | CoreDate/Stores/TrackerCategoryStore.swift:108-144 | no category without a title; otherwise it carries the title |
| CategoryStores.MakeCategoryMembers | CoreDate/Stores/TrackerCategoryStore.swift:114-121 | the category's trackers are exactly those filed under it that convert |
| CategoryStores.FindCategory | CoreDate/Stores/TrackerCategoryStore.swift:55-59 | the first row with the title, or none |
| CategoryStores.FetchCategory | CoreDate/Stores/TrackerCategoryStore.swift:80-87 | nil iff no category has the title; otherwise one with that title |
| CategoryStores.GetCategory | CoreDate/Stores/TrackerCategoryStore.swift:89-105 | a category iff the tracker's first row exists, links to a category and that category row has a title; the result is that title with no trackers |
| CategoryStores.GetCategoryAfterUpdateTracker | CoreDate/Stores/TrackerCategoryStore.swift:89-105 | after a successful update of a tracker under a title, the lookup gives that title with no trackers |
| CategoryStores.GetCategoryAfterDeleteCategory | CoreDate/Stores/TrackerCategoryStore.swift:89-105 | after the tracker's category is deleted, the lookup gives nil |
| CategoryStores.GetCategoryAfterAddTracker | CoreDate/Stores/TrackerCategoryStore.swift:89-105 | after adding a tracker under a title, the lookup gives back that title with no trackers |
| CategoryStores.AttachAll | CoreDate/Stores/TrackerCategoryStore.swift:153-157 | one row per tracker, each written from it and filed under the category |
| CategoryStores.StoringReplacesTrackers | CoreDate/Stores/TrackerCategoryStore.swift:146-160 | after storing, the category's trackers read back as exactly the given trackers |
| CategoryStores.TitleOrderIsTotal | CoreDate/Stores/TrackerCategoryStore.swift:19 | title order is a total preorder |
| CategoryStores.CategoriesOf | CoreDate/Stores/TrackerCategoryStore.swift:44-46 | every fetched category is what some row converts to, and every row with a title contributes its category |
| CategoryStores.AddedCategoryIsFetched | CoreDate/Stores/TrackerCategoryStore.swift:44-52 | after adding a category, fetching all categories includes it with exactly its trackers |
| CategoryStores.DeletedCategoryIsGone | CoreDate/Stores/TrackerCategoryStore.swift:67-78 | after deleting a row, the object ids stay distinct and the deleted one names no category |
| CategoryStores.RenamedCategoryIsFound | CoreDate/Stores/TrackerCategoryStore.swift:54-65 | after a rename, the new title is found at or before the renamed row, and the old title no longer finds it |
| CategoryStores.AddThenFetchCategory | CoreDate/Stores/TrackerCategoryStore.swift:48-52 | adding a category with a new title makes fetching it return that title with the given trackers |
| CategoryStores.TrackerCategoryStore.constructor | CoreDate/Stores/TrackerCategoryStore.swift:10-14 | the store works on the given table |
| CategoryStores.TrackerCategoryStore.AddCategory | CoreDate/Stores/TrackerCategoryStore.swift:48-52 | a row with a fresh identifier and the title is appended, the category's trackers are appended filed under it, and existing tracker rows and records are untouched |
| CategoryStores.TrackerCategoryStore.StoreCategory | CoreDate/Stores/TrackerCategoryStore.swift:146-178 | the row takes the title; its old trackers are deleted and new rows written from the given trackers are filed under it |
| CategoryStores.TrackerCategoryStore.UpdateCategory | CoreDate/Stores/TrackerCategoryStore.swift:54-65 | `categoryNotFound` iff no row has the old title; otherwise only the first match is renamed |
| CategoryStores.TrackerCategoryStore.DeleteCategory | CoreDate/Stores/TrackerCategoryStore.swift:67-78 | `categoryNotFound` iff no row has the title; otherwise only the first match is removed; tracker rows, records and the identifier counter are untouched |
| CategoryStores.TrackerCategoryStore.FetchAllCategories | CoreDate/Stores/TrackerCategoryStore.swift:44-46 | the categories that convert, reordered by title ascending |
| CategorySelection.CategoriesViewModel.constructor | Scence/Category/CategoryViewModel.swift:17-21 | the categories are the store's, by title, and nothing is selected |
| CategorySelection.CategoriesViewModel.CategoriesDidChange | Scence/Category/CategoryViewModel.swift:24-30 | the categories are replaced, and the empty flag says whether there are none |
| CategorySelection.CategoriesViewModel.LoadCategories | Scence/Category/CategoryViewModel.swift:33-41 | the store's categories replace the list, the empty flag matches, and the selection is kept |
| CategorySelection.CategoriesViewModel.SelectCategory | Scence/Category/CategoryViewModel.swift:43-45 | only the selected index changes, to the given index even when it is out of range |
| CategorySelection.CategoriesViewModel.HandleCategorySelection | Scence/Category/CategoryViewModel.swift:47-54 | the index is always selected; a title is reported iff the index is in range, and it is that category's title |
| CategorySelection.CategoriesViewModel.GetCategory | Scence/Category/CategoryViewModel.swift:56-61 | callers must pass an index in range; the result is a listed category whose title is the one at that index |
| CategorySelection.CategoriesViewModel.GetCategoryTitle | Scence/Category/CategoryViewModel.swift:63-66 | nil for an index below 0 or at least the count; otherwise that category's title |
| CategorySelection.CategoriesViewModel.GetCategoriesCount | Scence/Category/CategoryViewModel.swift:68-70 | the count of categories, which is exactly the range where titles exist |
| CategorySelection.CategoriesViewModel.IsCategorySelected | Scence/Category/CategoryViewModel.swift:72-74 | true iff the index is the stored one |
| CategorySelection.CategoriesViewModel.GetSelectedCategoryTitle | Scence/Category/CategoryViewModel.swift:95-98 | nil when nothing is selected or the index is out of range; otherwise the selected category's title |
| CategorySelection.CategoriesViewModel.AddNewCategory | Scence/Category/CategoryViewModel.swift:76-83 | a category row with the title and a fresh identifier is appended; tracker rows and records are untouched |
| CategorySelection.CategoriesViewModel.DeleteCategory | Scence/Category/CategoryViewModel.swift:85-93 | the first stored category with the shown title is deleted, or `categoryNotFound` is passed on; tracker rows, records and the identifier counter are untouched |
| CategorySelection.AtMostOneSelected | Scence/Category/CategoryViewModel.swift:72-74 | at most one index is selected |
| HabitForm.ColorOptionsSpec | Scence/HabitViewController.swift:23-24 | 18 colour names, "selection_1" to "selection_18" in order, as many as the emojis |
| HabitForm.TruncatedSpec | Scence/HabitViewController.swift:441-446 | the title is cut to its first 38 characters, shorter titles are untouched, and cutting twice equals cutting once |
| HabitForm.SavedSpec | Scence/HabitViewController.swift:407-439 | a tracker is saved iff title, emoji, colour and category are set; edit mode keeps the original id and `isHabit`, and create mode uses the new id with `isHabit` true |
| HabitForm.EnabledButtonSaves | Scence/HabitViewController.swift:391-411 | an enabled button always saves, and saving does not re-check that days were chosen |
| HabitForm.JoinStartsWithFirst | Scence/HabitViewController.swift:468 | the joined text starts with the first name, and joining more names adds the separator after it |
| HabitForm.ScheduleSubtitleSpec | Scence/HabitViewController.swift:463-470 | nil with no days, the every-day text with seven, and otherwise the short names joined by ", " in selection order |
| HabitForm.EditFormStartsEnabled | Scence/HabitViewController.swift:241-257 | a populated edit form of a valid tracker is enabled and saves the tracker back unchanged |
| HabitForm.HabitViewController.constructor | Scence/HabitViewController.swift:182-232 | the form starts empty with the button disabled and a zero day count |
| HabitForm.HabitViewController.UpdateCreateButtonState | Scence/HabitViewController.swift:391-400 | the button is enabled iff title, days, emoji, colour and category are all chosen |
| HabitForm.HabitViewController.PopulateWithTracker | Scence/HabitViewController.swift:241-267 | title, schedule, emoji and colour come from the tracker, and the category and day count from the stores |
| HabitForm.HabitViewController.TextFieldDidChange | Scence/HabitViewController.swift:441-446 | the title is truncated to 38 characters and the button recomputed |
| HabitForm.HabitViewController.CreateButtonTapped | Scence/HabitViewController.swift:407-439 | the saved tracker and category title are those the save rule gives |
| HabitForm.HabitViewController.CategorySelected | Scence/HabitViewController.swift:502-508 | the category is taken and the button recomputed |
| HabitForm.HabitViewController.DaysSelected | Scence/HabitViewController.swift:515-521 | the days are taken and the button recomputed |
| HabitForm.HabitViewController.DidSelectEmoji | Scence/HabitViewController.swift:588-599 | the emoji at the item is chosen and the button recomputed |
| HabitForm.HabitViewController.DidSelectColor | Scence/HabitViewController.swift:588-599 | the colour name at the item is chosen and the button recomputed |
| CreateTrackerForm.LeadingEnd | Scence/CreateTrackerViewController.swift:386 | skips exactly the leading whitespace |
| CreateTrackerForm.TrailingStart | Scence/CreateTrackerViewController.swift:386 | drops exactly the trailing whitespace |
| CreateTrackerForm.Trim | Scence/CreateTrackerViewController.swift:386 | the trimmed text is no longer than the text and neither starts nor ends with whitespace |
| CreateTrackerForm.TrimSpec | Scence/CreateTrackerViewController.swift:386 | trimming removes only whitespace at both ends, leaves no whitespace at either end, is idempotent, and gives nothing iff the text is all whitespace |
| CreateTrackerForm.AfterEdit | Scence/CreateTrackerViewController.swift:428-440 | an edit leaves the text as it was, or replaces it by the edited text when that fits in 38 characters; text within the limit stays within it |
| CreateTrackerForm.EditsStayWithinLimit | Scence/CreateTrackerViewController.swift:428-440 | from a name of at most 38 characters, no run of edits can make it longer |
| CreateTrackerForm.AppendAccepted | Scence/CreateTrackerViewController.swift:428-440 | typing at the end is accepted exactly while the result fits in 38 characters |
| CreateTrackerForm.ReloadListSpec | Scence/CreateTrackerViewController.swift:474-488 | the reload list holds the new index first, plus the previous one only when it differs, with no repeats |
| CreateTrackerForm.CreateTrackerViewController.constructor | Scence/CreateTrackerViewController.swift:205-231 | the form starts empty with both labels hidden, pink as the default colour and the colour index on it |
| CreateTrackerForm.CreateTrackerViewController.NameFieldChanged | Scence/CreateTrackerViewController.swift:405-408 | the warning shows iff the name is over 38 characters, which the edit rule never allows |
| CreateTrackerForm.CreateTrackerViewController.ClearName | Scence/CreateTrackerViewController.swift:442-445 | clearing empties the name and hides the warning |
| CreateTrackerForm.CreateTrackerViewController.EditName | Scence/CreateTrackerViewController.swift:428-440 | an edit is accepted iff its range fits and the result has at most 38 characters; a rejected edit leaves the text, and an over-long one shows the warning |
| CreateTrackerForm.CreateTrackerViewController.DidSelectDays | Scence/CreateTrackerViewController.swift:413-423 | the days are taken; the summary is hidden iff there are none, and otherwise shows the short names joined by ", " |
| CreateTrackerForm.CreateTrackerViewController.DidSelectEmoji | Scence/CreateTrackerViewController.swift:473-481 | the index replaces the previous one, and the reload list is built from both |
| CreateTrackerForm.CreateTrackerViewController.DidSelectColor | Scence/CreateTrackerViewController.swift:482-494 | the index replaces the previous one; the default colour follows only an index below the colour count |
| CreateTrackerForm.CreateTrackerViewController.CreateTapped | Scence/CreateTrackerViewController.swift:385-403 | nothing for a blank name; otherwise a fresh tracker with the trimmed name, nil schedule for no days, the chosen emoji or ⭐, the default colour and category, and no completed dates |
| CategoryForms.EditEnabledIsNewEnabledButChanged | Scence/Category/EditCategoryViewController.swift:100-104 | the edit form's button takes exactly the non-empty texts that differ from the title; it is off for the title itself |
| CategoryForms.NewCategoryViewController.constructor | Scence/Category/NewCategoryViewController.swift:32 | the done button starts disabled |
| CategoryForms.NewCategoryViewController.TextFieldDidChange | Scence/Category/NewCategoryViewController.swift:91-100 | done is enabled iff the text is non-empty |
| CategoryForms.NewCategoryViewController.DoneButtonTapped | Scence/Category/NewCategoryViewController.swift:102-114 | empty or nil text does nothing; otherwise a category with exactly the typed title and no trackers is added with a fresh identifier, existing tracker rows untouched, and the screen dismissed |
| CategoryForms.EditCategoryViewController.constructor | Scence/Category/EditCategoryViewController.swift:22-57 | the field starts with the title, so done starts disabled |
| CategoryForms.EditCategoryViewController.TextFieldDidChange | Scence/Category/EditCategoryViewController.swift:100-109 | done is enabled iff the text is non-empty and differs from the title |
| CategoryForms.EditCategoryViewController.DoneButtonTapped | Scence/Category/EditCategoryViewController.swift:111-122 | empty or unchanged text does nothing; otherwise the first category with the title is renamed and the screen dismissed, or an alert shown when none has it |
| Analytics.ScreenFromRaw | Analytics/AnalyticsEvent.swift:24-27 | a parsed screen has that raw value |
| Analytics.ItemFromRaw | Analytics/AnalyticsEvent.swift:16-22 | a parsed item has that raw value |
| Analytics.RawValuesRoundTrip | Analytics/AnalyticsEvent.swift:16-27 | every screen and item raw value parses back to its case, so distinct cases have distinct raw values |
| Analytics.Name | Analytics/AnalyticsEvent.swift:8-14 | "open", "close" and "click" for the three cases |
| Analytics.Params | Analytics/AnalyticsEvent.swift:29-37 | open and close carry only "screen"; click carries exactly "screen" and "item", with their raw values |
| Analytics.SerialisationRoundTrip | Analytics/AnalyticsEvent.swift:8-37 | the name and parameters parse back to the event, so two events serialised alike are equal |
| Analytics.ParseIsExact | Analytics/AnalyticsEvent.swift:8-37 | whatever parses serialises back to the same name and parameters |

## Left out

- UIKit layout, cells, navigation, alerts' presentation, colours of buttons and all CGFloat sizing: presentation only.
- The CoreData stack, `save()` and fetch errors, and the fetched-results-controller notifications: the stores work on an in-memory table whose writes cannot fail. The view model's store callback is modelled as `CategoriesDidChange`, called with the fetched list.
- JSON encoding of schedules: modelled as the identity on the list of raw values.
- Calendar and `Date`: dates are day numbers (`startOfDay` is the identity and "same day" is equality). The calendar weekday number, the current day, the locale's language code, `lowercased()`, the weekday short names and fresh UUIDs are parameters.
- `WeekDays.WeekdayFromRaw`: the second-generation `Weekday` enum is not part of this model; `Weekday(rawValue:)` is taken to accept exactly a given set of raw values.
- AppMetrica reporting, `NSLocalizedString` lookups and `DispatchQueue` hops: foreign calls and timing only.
- `TrackerStore`'s `fetchAllTrackers`: it only converts every row, like `RecordStores.FetchAllTrackers`; its sort order is not modelled.
- Category deletion leaves the category's trackers pointing at no category (read back as none); the data model's delete rule is not part of this model.
- A category's tracker `Set` is modelled in table order; only its members matter to the source.
- `TrackerList.CollectSections`: `Dictionary(grouping:)` has no defined key order, so the sections are specified up to a permutation before sorting, and their order is fixed only among different names.
- `CreateTrackerForm.CreateTrackerViewController.EditName`: Swift counts grapheme clusters and `NSRange` counts UTF-16 units; the model counts characters for both.
- `HabitForm.TruncatedSpec`: the 38-character cut counts characters, not grapheme clusters.
- `CreateTrackerForm.TrimSpec`: whitespace is the Unicode White_Space code points; Foundation's exact character set is not part of this model.
- `CategoryForms.NewCategoryViewController.DoneButtonTapped`: the model's `addCategory` cannot throw, so the logged-error branch never happens.
- `CategorySelection.CategoriesViewModel.AddNewCategory`: the model's `addCategory` cannot throw, so the `onError` branch never happens.
- `CategorySelection.CategoriesViewModel.DeleteCategory`: callers must pass an index in range, as `getCategory(at:)` is a fatal error otherwise.
- `CreateTrackerForm.CreateTrackerViewController.CreateTapped`: the tracker initialiser it calls (`categoryId:`, `completedDates:`) is not the one shown in `Models /Tracker.swift`; the model reads it as that one, with an empty completion list.
- `TrackerList.TrackerViewController.TrackerCellDidTapPlus`: the index path is given; a cell the collection cannot locate is not modelled. The cell refresh is left out.
- Every "first match" (`TrackerStores.FetchTracker`, `Tables.CategoryOidFor`, `CategoryStores.FindCategory`) is the first row in table order; a CoreData fetch without sort descriptors promises no order, so the source may pick any matching row.
- `TrackerList.NameOrder` and `CategoryStores.TitleOrder` compare strings character by character by code point; Swift's `<` on `String` treats canonically equivalent strings as equal, and the sort descriptor's comparison is not part of this model.
- The statistics screen, onboarding, filters screen and the commented-out code: no logic to model.

## Findings

| source | as written | input that shows it | evidently intended | confidence | as-written member | corrected member |
|---|---|---|---|---|---|---|
| Resources/Localization.swift:76 | `case (1, 11...)` gives "дней" whenever the last digit is 1 and `count % 100` is at least 11 | count 21 in Russian gives "21 дней" | only 11 takes "дней", so 21, 31, …, 91, 121 read "день": "21 день" | high, not executed | Localization.TwentyOneAsWritten | Localization.RussianNounIntended |
