# Expense tracker core in Dafny

This project models the core of a mobile expense tracker. The app keeps a
list of expense records and a user profile in device storage. It shows the
records filtered by category and by a title search, newest first. Records
are added and edited through two form dialogs, and dates are picked in a
calendar dialog.

The model covers four parts of the app:

- **The app store** (`AppContext`, class `Store`). It loads or seeds the
  stored data, and it adds, updates and deletes records. Every operation
  sets the in-memory state first and then writes storage. A failed write
  is reported and the in-memory change stays.
  - The pure list operations behind the store are in `ExpenseList`:
    `NextId`, `Replaced` and `Removed`.
  - The derived list on show is in `Query`: a filter, then a stable sort by
    date, newest first.
- **The calendar dialog** (`DatePicker`): month lengths, month navigation,
  the year list, the grid of weeks, and the `YYYY-MM-DD` string it returns.
  The week-splitting loop is a method with loop invariants.
- **The shared form logic** (`ExpenseForm`): the six ordered checks of
  `handleSave`, their messages, and the way a saved record is built.
- **The two form dialogs** (`AddExpenseModal.AddExpenseForm` and
  `EditExpenseModal.EditExpenseForm`). Each is a class over the form fields,
  and its save calls the store.

Some outside inputs are passed in as parameters:

- whether a storage write succeeds (`writeOk`);
- today's date;
- the weekday of the first of a month;
- the uri and name a camera or file picker returns.

Values are represented as follows:

- Amounts are the number `parseFloat` yields, with `None` for `NaN`.
- Dates are (year, month, day) triples, ordered lexicographically.
- The form's date is `None` for the empty string.

Two behaviours of the code are worth knowing, and the model proves both:

- Ids are not monotonic. A new record takes one more than the current
  largest id, so deleting the newest record and adding again gives out the
  same id (`ExpenseList.DeleteNewestThenAddReusesId`).
- The month and year lists of the calendar do not clamp the selected day.
  Picking the 31st and then February confirms `2025-02-31`
  (`DatePicker.MonthSelectKeepsDay`).

## Model

| member | source | states |
|---|---|---|
| ExpenseList.NextId | context/AppContext.tsx:202 | the new id is 1 for an empty list, otherwise one more than an id in the list and greater than every id in it |
| ExpenseList.MaxId | context/AppContext.tsx:202 | `Math.max` over the ids is attained by some record and bounds all of them |
| ExpenseList.AddKeepsIdsUnique | context/AppContext.tsx:202-204 | appending a record under `NextId` keeps ids distinct |
| ExpenseList.Replaced | context/AppContext.tsx:216-218 | same length; each position holds the argument if its id matches, else the old record |
| ExpenseList.ReplacedKeepsIds | context/AppContext.tsx:216-218 | replacing keeps every position's id and distinct ids, is a no-op for an absent id, and is idempotent |
| ExpenseList.ReplacedWithHeld | context/AppContext.tsx:216-218 | with distinct ids, writing back a record the list holds leaves the list unchanged |
| ExpenseList.Removed | context/AppContext.tsx:230 | `deleteExpense`'s filter never lengthens the list; its members and order are stated by the lemmas below |
| ExpenseList.RemovedMembers | context/AppContext.tsx:230 | a record is kept iff it was in the list and its id differs from the deleted id |
| ExpenseList.RemovedConcat | context/AppContext.tsx:230 | deleting distributes over concatenation, so the kept records stay in list order |
| ExpenseList.RemovedAbsent | context/AppContext.tsx:230 | deleting an id no record has changes nothing |
| ExpenseList.RemovedIdempotent | context/AppContext.tsx:230 | deleting twice equals deleting once |
| ExpenseList.RemovedKeepsIdsUnique | context/AppContext.tsx:230 | deleting keeps the remaining ids distinct |
| ExpenseList.RemovedOne | context/AppContext.tsx:230 | with distinct ids, deleting a present id removes exactly one record |
| ExpenseList.DeleteNewestThenAddReusesId | context/AppContext.tsx:202-237 | deleting the newest record and adding again reuses its id |
| AppContext.Store.constructor | context/AppContext.tsx:153-156 | the store starts with no records, the default profile, filter `'all'` and an empty search |
| AppContext.Store.LoadData | context/AppContext.tsx:159-186 | a stored list is taken as is; a missing list seeds the samples, writes them, and stops silently if the write fails; then a stored profile is taken or the default one is written; an unreadable key ends the load |
| AppContext.Store.AddExpense | context/AppContext.tsx:200-211 | the list becomes the old list plus one record under `NextId`; the new id exceeds every old id; distinct ids stay distinct; storage is written only on success; the error is rethrown without rollback; its frame leaves the profile and the filters alone |
| AppContext.Store.UpdateExpense | context/AppContext.tsx:214-225 | the list becomes `Replaced(old, u)`, keeping distinct ids; same storage and failure behaviour as add |
| AppContext.Store.DeleteExpense | context/AppContext.tsx:228-237 | the list becomes `Removed(old, id)`, keeping distinct ids; same storage and failure behaviour |
| AppContext.Store.UpdateUserProfile | context/AppContext.tsx:240-248 | the profile is replaced and written; the records are untouched |
| AppContext.Store.SetFilterCategory | context/AppContext.tsx:251-253 | sets only the filter category |
| AppContext.Store.SetSearchTerm | context/AppContext.tsx:156 | sets only the search term |
| AppContext.Store.FilteredExpenses | context/AppContext.tsx:189-197 | the records in the store that pass the current filter and search, and only those, newest first |
| AppContext.FirstRun | context/AppContext.tsx:159-179 | a first run with working storage holds and stores the six samples (distinct ids) and stores the default profile |
| Query.CategoryMatches | context/AppContext.tsx:192 | `'all'` passes every category, and a category key passes exactly the category it names |
| Query.SearchMatches | context/AppContext.tsx:193 | an empty term passes every title |
| Query.SearchMatchesOccurs | context/AppContext.tsx:193 | the search passes iff the lower-cased term occurs at some position of the lower-cased title |
| Query.Matches | context/AppContext.tsx:191-195 | with `'all'` and an empty term every record passes; a passing record has filter `'all'` or its own category's key |
| Query.Filter | context/AppContext.tsx:190-195 | `filter` never lengthens the list; `FilterMembers` and `FilterConcat` state what it keeps and in which order |
| Query.FilterMembers | context/AppContext.tsx:190-195 | `filter` keeps a record iff it is in the list and the callback accepts it |
| Query.FilterConcat | context/AppContext.tsx:190-195 | `filter` distributes over concatenation, so kept records stay in list order |
| Query.FilterKeepsAll | context/AppContext.tsx:190-195 | a callback that accepts every record keeps the list as it is |
| Query.FilterBy | context/AppContext.tsx:190-195 | the filtered list is no longer than the store's |
| Query.FilterByMembers | context/AppContext.tsx:190-195 | a record is kept iff it is in the list and passes both the category and the search condition |
| Query.FilterByConcat | context/AppContext.tsx:190-195 | filtering distributes over concatenation (it keeps list order) |
| Query.FilterAllKeepsEverything | context/AppContext.tsx:192-193 | filter `'all'` with an empty term keeps the whole list in order |
| Query.NewestFirstCons | context/AppContext.tsx:196 | a list with a head is newest-first iff no later record is newer than the head and the tail is newest-first |
| Query.InsertByDate | context/AppContext.tsx:196 | one insertion step adds exactly the inserted record (multiset) |
| Query.InsertNoneNewer | context/AppContext.tsx:196 | an insertion step keeps a bound on how new the records are |
| Query.InsertKeepsNewestFirst | context/AppContext.tsx:196 | inserting into a newest-first list keeps it newest-first |
| Query.SortNewestFirst | context/AppContext.tsx:196 | the sort is a permutation of its input, ordered by date non-increasing |
| Query.InsertOnDate | context/AppContext.tsx:196 | an inserted record goes in front of the records of its own date |
| Query.SortIsStable | context/AppContext.tsx:196 | records of equal date keep their list order |
| Query.FilteredExpenses | context/AppContext.tsx:189-197 | exactly the matching records, as a permutation of the filtered list, newest first |
| Query.FilteredExpensesStable | context/AppContext.tsx:189-197 | within a date the shown list follows store order |
| Query.FoodFilterExample | context/AppContext.tsx:192 | a food record and a travel record filtered by `'food'` give just the food record |
| Model.DefaultProfile | context/AppContext.tsx:59-65 | the default profile has no image |
| Model.SampleExpenses | context/AppContext.tsx:68-142 | six sample records with ids 1 to 6 in list order |
| Model.SampleReceiptWithoutUri | context/AppContext.tsx:69-79 | a sample record has a receipt flag without a uri, so the flag does not imply a uri |
| Model.CategoryName | context/AppContext.tsx:6 | no category key is `'all'` |
| Model.CategoryNameInjective | context/AppContext.tsx:6 | distinct categories have distinct keys |
| Model.CategoryIcon | context/AppContext.tsx:278-287 | every category has a non-empty icon name |
| Model.CategoryColor | context/AppContext.tsx:289-298 | every category has a seven-character background and text colour starting with `#` |
| Model.CategoryLookupsInjective | context/AppContext.tsx:278-298 | icons, colour pairs and text colours each tell the categories apart |
| Model.DateLeTotalOrder | context/AppContext.tsx:196 | date order is a total order: reflexive, total, antisymmetric and transitive |
| Strings.TrimStart | components/expense/AddExpenseModal.tsx:66 | the result is a suffix of the input, only white space was removed, and it does not start with white space |
| Strings.TrimEnd | components/expense/AddExpenseModal.tsx:66 | the result is a prefix of the input, only white space was removed, and it does not end with white space |
| Strings.Trim | components/expense/AddExpenseModal.tsx:66 | the result neither starts nor ends with white space (`IsTrimmed`) |
| Strings.TrimSplits | components/expense/AddExpenseModal.tsx:66 | the input is a white-space prefix, then the trimmed string, then a white-space suffix |
| Strings.TrimEmptyIff | components/expense/AddExpenseModal.tsx:66 | trimming gives the empty string iff the input is all white space |
| Strings.TrimFixedIff | components/expense/AddExpenseModal.tsx:66 | trimming leaves a string unchanged iff it has no white space at either end |
| Strings.TrimIdempotent | components/expense/AddExpenseModal.tsx:66 | trimming twice equals trimming once |
| Strings.ToLower | context/AppContext.tsx:193 | same length; each character is lower-cased |
| Strings.ToLowerIdempotent | context/AppContext.tsx:193 | lower-casing is idempotent and leaves no upper-case ASCII letter |
| Strings.Contains | context/AppContext.tsx:193 | the empty term is contained in every string, and a contained term is no longer than the string |
| Strings.OccursThenContains | context/AppContext.tsx:193 | a term occurring at some position of the title makes `includes` hold |
| Strings.ContainsThenOccurs | context/AppContext.tsx:193 | when `includes` holds it yields a position where the term occurs |
| Strings.ContainsAt | context/AppContext.tsx:193 | `includes` holds iff the term occurs at some position of the title |
| Strings.NatToString | components/DatePickerModal.tsx:82-84 | `String(n)` is a non-empty digit string without a leading zero whose decimal value is n |
| Strings.NatToStringLength | components/DatePickerModal.tsx:84 | a number from 10^(k-1) up to but not including 10^k is written with k digits |
| Strings.IntToString | components/DatePickerModal.tsx:84 | a non-empty numeral: for n >= 0 digits of value n without a leading zero, for a negative number `-` and then the magnitude's digits without a leading zero |
| Strings.PadStart | components/DatePickerModal.tsx:82-83 | the result has the target length (or the input's), ends with the input, and is filled in front |
| Strings.LeadingZeros | components/DatePickerModal.tsx:82-83 | leading zeros do not change a numeral's value |
| Strings.TwoDigits | components/DatePickerModal.tsx:81-82 | `padStart(2, '0')` gives at least two characters, zeros then the numeral of n |
| Strings.TwoDigitsValue | components/DatePickerModal.tsx:82-83 | below 100 the padded numeral has two digits and reads back as the number |
| DatePicker.DaysInMonth | components/DatePickerModal.tsx:44-46 | 31 days for months 0, 2, 4, 6, 7, 9 and 11; 30 days for months 3, 5, 8 and 10; February has 29 days iff the year is a leap year (years 0-99 read as 19xx) |
| DatePicker.YearLength | components/DatePickerModal.tsx:44-46 | the month lengths add up to 366 days in a leap year and 365 otherwise |
| DatePicker.MonthAfter | components/DatePickerModal.tsx:64-72 | the month stays in 0..11 and the result is the next month in sequence |
| DatePicker.MonthBefore | components/DatePickerModal.tsx:54-62 | the month stays in 0..11 and the result is the previous month in sequence |
| DatePicker.MonthNumberInjective | components/DatePickerModal.tsx:54-72 | a (year, month) pair with the month in range is determined by its month count |
| DatePicker.NavigationRoundTrip | components/DatePickerModal.tsx:54-72 | next then previous, and previous then next, restore the month on show |
| DatePicker.YearsAround | components/DatePickerModal.tsx:91-94 | 21 consecutive years from ten before to ten after the current year, and no others |
| DatePicker.IsoDate | components/DatePickerModal.tsx:81-83 | for month and day below 100 the string is the year as `String` writes it, a hyphen, the month padded to two digits, a hyphen, and the day padded to two digits |
| DatePicker.HyphenJoinParts | components/DatePickerModal.tsx:83 | in `y-mm-dd` with two-character `mm` and `dd`, the year, both hyphens, the month and the day sit at fixed offsets from the ends |
| DatePicker.ParseJoined | components/DatePickerModal.tsx:83 | four, two and two digits joined by hyphens parse back as the numbers they denote |
| DatePicker.IsoDateRoundTrip | components/DatePickerModal.tsx:80-88 | for a four-digit year the confirmed string has 10 characters and parses back as the picked date in the ISO 8601 extended format |
| DatePicker.ShortYearIsNotIso | components/DatePickerModal.tsx:84 | a year below 1000 gives a string that is not an ISO 8601 calendar date |
| DatePicker.FillerSlots | components/DatePickerModal.tsx:129 | fewer than seven fillers, and they complete the last week |
| DatePicker.FillerCompletesWeek | components/DatePickerModal.tsx:129 | `(7 - (len % 7)) % 7` lies in 0..6 and brings the length to a multiple of 7 |
| DatePicker.CompleteSlots | components/DatePickerModal.tsx:120-131 | firstDay blanks, then days 1..n in order, then blanks; the length is a multiple of 7 |
| DatePicker.GridHoldsEachDayOnce | components/DatePickerModal.tsx:120-131 | every day of the month is in the grid, only days 1..n are in it, and they increase strictly, so each appears once |
| DatePicker.SplitWeeks | components/DatePickerModal.tsx:133-137 | consecutive slices of seven slots that put back together give the input; all have seven slots when the length is a multiple of 7 |
| DatePicker.CalendarWeeks | components/DatePickerModal.tsx:115-137 | four to six weeks of exactly seven slots holding the month's slots in order |
| DatePicker.Picker.constructor | components/DatePickerModal.tsx:32-41 | the dialog opens on the given date with both list pickers closed |
| DatePicker.Picker.HandlePrevMonth | components/DatePickerModal.tsx:54-62 | shows the previous month (wrapping December/January) and selects day 1 |
| DatePicker.Picker.HandleNextMonth | components/DatePickerModal.tsx:64-72 | shows the next month (wrapping December/January) and selects day 1 |
| DatePicker.Picker.HandleSelectDay | components/DatePickerModal.tsx:75-77 | selects the tapped day and changes nothing else |
| DatePicker.Picker.OpenMonthPicker | components/DatePickerModal.tsx:208-211 | opens the month list and closes the year list |
| DatePicker.Picker.OpenYearPicker | components/DatePickerModal.tsx:221-224 | opens the year list and closes the month list |
| DatePicker.Picker.HandleMonthSelect | components/DatePickerModal.tsx:109-112 | sets only the month and closes its list; the day is not clamped |
| DatePicker.Picker.HandleYearSelect | components/DatePickerModal.tsx:103-106 | sets only the year and closes its list; the day is not clamped |
| DatePicker.Picker.HandleConfirm | components/DatePickerModal.tsx:80-88 | returns the selected year as `String` writes it, then month + 1 and the day, each padded to two digits; `IsoDateRoundTrip` shows this parses back for four-digit years |
| DatePicker.MonthSelectKeepsDay | components/DatePickerModal.tsx:103-112 | in any four-digit year, selecting day 31 and then February confirms a date February does not have |
| ExpenseForm.Message | components/expense/AddExpenseModal.tsx:66-95 | every check's message is non-empty, so the message box shows it |
| ExpenseForm.MessagesDistinct | components/expense/AddExpenseModal.tsx:66-95 | each check has its own message |
| ExpenseForm.NoCheckFails | components/expense/AddExpenseModal.tsx:66-95 | when each check passes in turn, no check fails |
| ExpenseForm.FirstFailure | components/expense/AddExpenseModal.tsx:66-95 | no result iff each of the six conditions holds |
| ExpenseForm.FirstFailureIsFirst | components/expense/AddExpenseModal.tsx:66-95 | no result iff no check fails; otherwise the result is a failing check and every earlier check passes |
| ExpenseForm.SavedRemarks | components/expense/AddExpenseModal.tsx:104 | remarks are saved as absent iff they are all white space, and trimmed otherwise |
| ExpenseForm.SavedCustomTag | components/expense/AddExpenseModal.tsx:108 | a tag is saved iff the category is `other`, and it is the trimmed tag |
| ExpenseForm.SavedFieldsNormalized | components/expense/AddExpenseModal.tsx:97-109 | a record built from checked fields has a trimmed non-empty title, a positive amount, an activity, trimmed non-empty remarks and tag when present, and the tag exactly for `other` |
| ExpenseForm.NewExpenseData | components/expense/AddExpenseModal.tsx:97-109 | the added record has the trimmed title, the checked amount, date, category and activity, the remarks as `trim() or null`, and the tag trimmed exactly for `other`; `hasReceipt` holds iff a non-empty uri is attached; file name and uri pass through; the record is normalized |
| AddExpenseModal.AddExpenseForm.constructor | components/expense/AddExpenseModal.tsx:31-40 | the form opens blank and dated today |
| AddExpenseModal.AddExpenseForm.ResetForm | components/expense/AddExpenseModal.tsx:44-55 | every field goes back to its default: empty strings, no selections, no receipt, no message, today's date |
| AddExpenseModal.AddExpenseForm.HandleSave | components/expense/AddExpenseModal.tsx:64-117 | a failing check sets its message and leaves the fields and the store unchanged; otherwise the built record is added under the next id |
| AddExpenseModal.AddExpenseForm.Submit | components/expense/AddExpenseModal.tsx:97-116 | the record is appended; on success the form is blanked; on failure the form is kept and the failure message is set |
| AddExpenseModal.AddExpenseForm.HandleRemoveReceipt | components/expense/AddExpenseModal.tsx:205-208 | clears uri and file name and nothing else |
| AddExpenseModal.AddExpenseForm.HandlePhotoTaken | components/expense/AddExpenseModal.tsx:137-141 | the photo's uri and its name, or `receipt.jpg` |
| AddExpenseModal.AddExpenseForm.HandleFileChosen | components/expense/AddExpenseModal.tsx:157-161 | the chosen document's uri and name |
| AddExpenseModal.SaveAddsOneRecord | components/expense/AddExpenseModal.tsx:64-117 | saving a valid form adds exactly one normalized record under a fresh id and blanks the form |
| EditExpenseModal.OrEmpty | components/expense/EditExpenseModal.tsx:53-54 | `s or ''` keeps a non-empty string and turns anything else into the empty string |
| EditExpenseModal.OrNull | components/expense/EditExpenseModal.tsx:55-56 | `s or null` keeps a non-empty string and turns anything else into null |
| EditExpenseModal.MergedHasReceipt | components/expense/EditExpenseModal.tsx:122 | the flag is set iff the receipt was not removed and either a uri is attached or the record had a receipt |
| EditExpenseModal.MergedReference | components/expense/EditExpenseModal.tsx:133-134 | null once removed; otherwise the form's value if set, else the record's |
| EditExpenseModal.EditedExpense | components/expense/EditExpenseModal.tsx:121-136 | keeps the original id; takes the trimmed title, the checked amount, date, category and activity, the remarks as `trim() or null` and the tag trimmed exactly for `other`; drops the receipt when removed; otherwise sets the flag as line 122 does and takes the form's uri and file name when non-empty, else the record's; keeps records normalized |
| EditExpenseModal.RemarksRoundTrip | components/expense/EditExpenseModal.tsx:53-131 | saved remarks survive loading into the form and saving again |
| EditExpenseModal.CustomTagRoundTrip | components/expense/EditExpenseModal.tsx:54-135 | a saved tag survives loading and saving again, and passes the tag check |
| EditExpenseModal.ReferenceRoundTrip | components/expense/EditExpenseModal.tsx:55-134 | a receipt reference survives loading and saving again |
| EditExpenseModal.LoadedFields | components/expense/EditExpenseModal.tsx:47-58 | the form loaded from a normalized record passes every check of the save |
| EditExpenseModal.LoadThenSaveIsIdentity | components/expense/EditExpenseModal.tsx:46-136 | opening a normalized record and saving unchanged builds the same record |
| EditExpenseModal.EditExpenseForm.constructor | components/expense/EditExpenseModal.tsx:32-43 | the form opens empty with no record |
| EditExpenseModal.EditExpenseForm.Load | components/expense/EditExpenseModal.tsx:47-58 | the form holds exactly the given fields (the effect passes `LoadedFields` of the record), with no message and no pending removal |
| EditExpenseModal.EditExpenseForm.SetExpense | components/expense/EditExpenseModal.tsx:46-60 | a new record reloads the form; no record leaves it as it is |
| EditExpenseModal.EditExpenseForm.ResetForm | components/expense/EditExpenseModal.tsx:63-77 | reloads the record; does nothing without one |
| EditExpenseModal.EditExpenseForm.HandleSave | components/expense/EditExpenseModal.tsx:86-143 | without a record nothing happens; a failing check sets its message and leaves the store alone; otherwise the merged record replaces the one with its id, and the form is not reset |
| EditExpenseModal.EditExpenseForm.Submit | components/expense/EditExpenseModal.tsx:121-142 | the record is replaced by id; a failed write sets the failure message |
| EditExpenseModal.EditExpenseForm.HandleRemoveReceipt | components/expense/EditExpenseModal.tsx:230-234 | clears uri and file name and sets the removal flag |
| EditExpenseModal.EditExpenseForm.HandlePhotoTaken | components/expense/EditExpenseModal.tsx:196-201 | the photo's uri and name (or `receipt.jpg`), and the removal flag cleared |
| EditExpenseModal.EditExpenseForm.HandleFileChosen | components/expense/EditExpenseModal.tsx:217-222 | the document's uri and name, and the removal flag cleared |
| EditExpenseModal.SaveOfLoadedKeepsList | components/expense/EditExpenseModal.tsx:46-136 | the form of a held normalized record passes the checks, and writing it back leaves a list of distinct ids unchanged |
| EditExpenseModal.SaveUnchangedKeepsList | components/expense/EditExpenseModal.tsx:86-143 | saving a form that shows a stored record unchanged leaves the list as it was and stores it |
| EditExpenseModal.OpenAndSaveUnchanged | components/expense/EditExpenseModal.tsx:46-143 | opening a stored normalized record and saving at once leaves the store's list unchanged |

## Left out

- Device storage and JSON: reads, writes, `JSON.parse` and `JSON.stringify` are not modelled. The storage keys are fields holding a missing, present or unreadable value. Whether a write succeeds is a parameter.
- Async code: `async`/`await` is modelled as sequential calls. Interleaved saves and React's batched state updates are not modelled.
- React plumbing: hooks, memoisation and re-rendering are not modelled. `filteredExpenses` is a function of the store's state, and the `expense` prop change is an explicit `SetExpense` call.
- `parseFloat`: the amount field holds the parsed number, or `None` for `NaN`. The text of the amount input is not modelled. `amount.toString()` followed by `parseFloat` is taken to give back the same number.
- Floating point: amounts are `real`. `formatCurrency` (`toFixed(2)`) is not modelled.
- Date handling: date strings are (year, month, day) triples. The following are not modelled:
  - `new Date(...)` parsing and time zones (the picker's initial date is a constructor input);
  - the date-fns formatting in `formatDate`, `formatDateWithDay`, `getDayOfWeek` and the month label;
  - the sort comparator's `getTime` arithmetic. The model orders every record by its (year, month, day) triple. A date that does not exist, such as `2025-02-31` (which the calendar can confirm), sits between 28 February and 1 March. A year below 1000 gives a string that is not an ISO date (`DatePicker.ShortYearIsNotIso`), and it sorts by its numbers. In the source, `new Date(...)` of such a string is either an invalid date or one rolled over into March, depending on the JavaScript engine. With an invalid date the comparator returns `NaN`, which the sort treats as 0, and the resulting order is not one the model describes.
- Today's date and the current year are parameters. The weekday of the first of a month (`getFirstDayOfMonth`) is an input in 0..6.
- Strings.ToLower: maps only the ASCII letters A-Z, so it does not model Unicode case mapping beyond ASCII.
- Platform dialogs: camera and document-picker permissions, `Alert`, and the add-receipt action sheet are not modelled. A picked photo or file arrives as the uri and name passed to `HandlePhotoTaken` or `HandleFileChosen`.
- Callbacks: `onSave`, `onClose` and `handleClose` are not modelled. `handleClose` is `ResetForm` followed by the callback.
- The `default` branches of `getCategoryIcon` and `getCategoryColor` are unreachable, because `Category` is a closed datatype.
- Display-only code is not modelled: the view modal, list item and category chip components, the rendered JSX and the styles. The build and privacy-policy scripts are not modelled either.
- Report export is not part of this model.
