# Baby food tracker: weekly schedule, local cache and remote week store

This project models the core of a small web tracker for a baby's meals. A week is identified by the
date of its Monday. For each of the seven French day names (Lundi … Dimanche) it holds seven text
fields: morning, vegetable, protein, fruit_lunch, snack, evening and remarks. The model has four
modules:

- `Week` (`week.dfy`): dates as day numbers counted from 1970-01-01, the weekday numbering of
  JavaScript's `getDay`, `getMonday`, and whole-week navigation.
- `Schedules` (`schedule.dfy`): the list of days, the empty week built day by day, the cell
  lookup `getDayData` and the point update of one cell.
- `Tracker` (`tracker.dfy`): the form component. Its transitions are written as functions on a
  `State` (current week, shown schedule, localStorage cache). Class `FoodTracker` then performs
  them on its fields, and each method is proved equal to its transition. Lemmas about the
  transitions state:
  - the invariant the component keeps (a Monday is shown, and every schedule has the form's shape);
  - the frame of an edit;
  - that cache entries are per week;
  - what `createNewWeek` does, both as the code is written and as intended (see Findings).
- `WeekStore` (`week_store.dfy`): the remote adapter `foodTrackerAPI` over one table keyed by
  (week_start, day_name). Class `FoodTrackerApi` holds the table and a `configured` flag that says
  whether a client exists. The model covers:
  - `saveWeek` as an upsert of one record per day entry, `loadWeek` as a fold of the week's rows,
    `resetWeek` as a delete, and `getWeeksHistory` as a descending select followed by
    order-keeping de-duplication;
  - the save/load round trip;
  - the no-client and store-error paths.

JavaScript objects are open, so schedules are `map<string, map<string, string>>`: a cached or edited
schedule may hold other keys. "Well formed" means exactly the seven day names, each with exactly
the seven fields.

A localStorage entry is one of three things:
- a schedule that parses;
- an empty string, which `if (saved)` treats as a miss;
- text that does not parse, in which case `JSON.parse` throws and the caught exception leaves the
  shown schedule unchanged.

Inputs of the model:
- For the remote store, whether a client exists (`configured`) and whether a call returns an error
  (`storeError`). The model takes an error to mean that the store rejected the call: the table is
  left unchanged and the source's failure value is returned. The code itself cannot tell a rejected
  call from one that committed before its response was lost (see "## Left out").
- Today's date for `initializeWeek` and `goToCurrentWeek`.

Two facts about the code shape the model:
- `lib/supabase.js` keeps no local cache: on any fault it returns `null`, `false` or `[]`.
- `components/FoodTracker.js` never calls `foodTrackerAPI`, so the two halves of the model are
  independent.

## Model

| member | source | states |
|---|---|---|
| Week.Weekday | components/FoodTracker.js:74 | The weekday of a day number lies in 0..6, with 0 for Sunday as `getDay` gives it. |
| Week.GetMonday | components/FoodTracker.js:72-77 | The week start of any date is a Monday, at most six days before the date. |
| Week.GetMondayUnique | components/FoodTracker.js:72-77 | The week start is the only Monday among the seven days that end at the date. |
| Week.GetMondayOfMonday | components/FoodTracker.js:72-77 | A Monday is its own week start. |
| Week.GetMondayIdempotent | components/FoodTracker.js:72-77 | Normalising a date twice gives the same Monday as normalising it once. |
| Week.GetMondaySameWeek | components/FoodTracker.js:72-77 | All seven days from a week's Monday on have that Monday as their week start. |
| Week.GetMondayMonotonic | components/FoodTracker.js:72-77 | A later date never has an earlier week start. |
| Week.NextWeek | components/FoodTracker.js:130-137 | Stepping by whole weeks and normalising always lands on a Monday. |
| Week.NextWeekFromMonday | components/FoodTracker.js:130-137 | From a Monday `m`, navigating by `dir` gives exactly `m + 7*dir`. |
| Week.NextWeekInverse | components/FoodTracker.js:130-137 | Going `n` weeks forward and then `n` weeks back returns to the same Monday. |
| Week.NavigationExample | components/FoodTracker.js:130-137 | 2024-06-03 is a Monday; one week forward is 2024-06-10 and one week back is 2024-05-27. |
| Schedules.EmptyWeek | components/FoodTracker.js:86-98 | Defines the empty week: every day name of the list, each with the empty day object. `NewEmptyWeek` and `EmptyWeekShape` state its properties. |
| Schedules.EmptyDay | components/FoodTracker.js:88-96 | An empty day object has exactly the seven field names, each the empty string. |
| Schedules.DayNamesDistinct | components/FoodTracker.js:5-13 | The day list names exactly Lundi … Dimanche, no name twice, so there are seven names. |
| Schedules.NewEmptyWeek | components/FoodTracker.js:86-98 | The loop over the day list builds the empty week: every day name, each with the seven fields empty, and every cell reads `''`. |
| Schedules.EmptyWeekShape | components/FoodTracker.js:86-98 | The empty week is well formed, has seven entries, and every cell of it reads `''`. |
| Schedules.GetDayData | components/FoodTracker.js:125-127 | Defines the cell lookup: the stored value, or `''` when the day or the field is absent. `GetDayDataDefault` and `GetDayDataAfterSetCell` state its properties. |
| Schedules.GetDayDataDefault | components/FoodTracker.js:125-127 | A cell whose day or field is absent reads as `''`. |
| Schedules.SetCell | components/FoodTracker.js:113-120 | Defines the spread-based point update of one cell; an absent day spreads to an empty object. `SetCellFrame` and `SetCellWellFormed` state its properties. |
| Schedules.SetCellFrame | components/FoodTracker.js:113-120 | The point update sets the one cell to the value, adds the day and field if they were absent, and leaves every other day and every other field of that day unchanged. |
| Schedules.GetDayDataAfterSetCell | components/FoodTracker.js:113-127 | Read through `getDayData`, the edited cell shows the new value and every other cell shows what it showed before. |
| Schedules.SetCellWellFormed | components/FoodTracker.js:113-120 | Editing one of the seven fields of one of the seven days keeps the schedule well formed. |
| Tracker.LoadedFromCache | components/FoodTracker.js:79-103 | Defines the schedule a load gives: the cached one on a hit, the empty week on a miss or `''`, the previous one when parsing throws. `LoadMiss`, `LoadAfterSave` and `LoadWellFormed` state its properties. |
| Tracker.Initial | components/FoodTracker.js:52-70 | Defines the first render: today's Monday, loaded over the initial empty object. `InitialGood` states its properties. |
| Tracker.SwitchTo | components/FoodTracker.js:130-144 | Defines showing a given week, loaded from the cache without writing it. `SwitchToGood` states its properties. |
| Tracker.Navigated | components/FoodTracker.js:130-137 | Defines `navigateWeek`: the normalised week `7*direction` days on. `NavigatedGood` and `EditSurvivesNavigation` state its properties. |
| Tracker.AtCurrentWeek | components/FoodTracker.js:139-144 | Defines `goToCurrentWeek`: the Monday of today's week. `AtCurrentWeekGood` states its properties. |
| Tracker.Edited | components/FoodTracker.js:113-123 | Defines `handleInputChange`: the point update, and the new schedule saved under the current week. `EditedFrame` and `EditedGood` state its properties. |
| Tracker.WithNewWeekAsWritten | components/FoodTracker.js:162-183 | Defines `createNewWeek` as written: the next week shown empty, with the empty week saved under the week being left. `WithNewWeekAsWrittenErasesPrevious` and `WithNewWeekAsWrittenLosesEdit` state its effect. |
| Tracker.WithNewWeek | components/FoodTracker.js:162-183 | Defines `createNewWeek` as intended: the next week shown empty and cached under that week. `WithNewWeekKeepsPrevious` and `WithNewWeekKeepsEdit` state its effect. |
| Tracker.LoadMiss | components/FoodTracker.js:79-99 | With no entry, or an empty-string entry, the loaded week has exactly the seven day names and every cell is `''`. |
| Tracker.LoadAfterSave | components/FoodTracker.js:79-111 | Once data is written for a week, a load of that week returns exactly that data; a load of any other week returns what it returned before. |
| Tracker.LoadWellFormed | components/FoodTracker.js:79-103 | Over a cache of well-formed schedules, a load keeps a well-formed shown schedule, including when the entry does not parse. |
| Tracker.InitialGood | components/FoodTracker.js:52-70 | Over a cache of well-formed schedules, the first render shows a Monday at most six days before today, and its schedule is well formed unless today's entry does not parse. |
| Tracker.SaveKeepsCacheWellFormed | components/FoodTracker.js:105-111 | Writing a well-formed schedule under any week keeps every cached schedule well formed. |
| Tracker.SwitchToGood | components/FoodTracker.js:130-144 | Showing another Monday keeps the invariant and never writes the cache. |
| Tracker.NavigatedGood | components/FoodTracker.js:130-137 | `navigateWeek` moves exactly `7*direction` days, keeps the invariant and leaves the cache unchanged. |
| Tracker.AtCurrentWeekGood | components/FoodTracker.js:139-144 | `goToCurrentWeek` shows a Monday at most six days before today, keeps the invariant and leaves the cache unchanged. |
| Tracker.EditedGood | components/FoodTracker.js:113-123 | An edit of one of the seven fields of one of the seven days keeps the invariant. |
| Tracker.EditedFrame | components/FoodTracker.js:105-123 | An edit changes only its cell, writes the new schedule under the current week, keeps the week, and leaves every other week's entry unchanged. |
| Tracker.EditSurvivesNavigation | components/FoodTracker.js:105-137 | After an edit, navigating `n` weeks away and back shows the edited schedule again, with the new value in its cell. |
| Tracker.WithNewWeekGood | components/FoodTracker.js:162-183 | Both the as-written and the intended `createNewWeek` keep the invariant. |
| Tracker.WithNewWeekAsWrittenErasesPrevious | components/FoodTracker.js:162-183 | As written, `createNewWeek` moves seven days on, but stores the empty week under the week it leaves, so going back shows the empty week. |
| Tracker.WithNewWeekAsWrittenLosesEdit | components/FoodTracker.js:162-183 | As written, a non-empty value entered this week reads back as `''` after "new week" then "previous week". |
| Tracker.WithNewWeekKeepsPrevious | components/FoodTracker.js:162-183 | The intended `createNewWeek`: seven days on, every cell `''`, the empty week cached under the new week, every other entry kept, and going back loads what was saved there. |
| Tracker.WithNewWeekKeepsEdit | components/FoodTracker.js:162-183 | With the intended `createNewWeek`, a value entered this week is still there after "new week" then "previous week". |
| Tracker.FoodTracker.constructor | components/FoodTracker.js:52-70 | Mounting shows the Monday of today's week, loaded from the stored cache over the initial empty object. |
| Tracker.FoodTracker.LoadFromLocalStorage | components/FoodTracker.js:79-103 | The shown schedule becomes the cached schedule on a hit, the empty week on a miss, and stays unchanged when the entry does not parse. |
| Tracker.FoodTracker.SaveToLocalStorage | components/FoodTracker.js:105-111 | Writes the data under the current week's key and changes no other entry. |
| Tracker.FoodTracker.HandleInputChange | components/FoodTracker.js:113-123 | Performs the edit transition: the point update, then the save under the current week. |
| Tracker.FoodTracker.NavigateWeek | components/FoodTracker.js:130-137 | Performs the navigation transition: the normalised week `7*direction` days on, loaded from the cache. |
| Tracker.FoodTracker.GoToCurrentWeek | components/FoodTracker.js:139-144 | Performs the return to today's week, loaded from the cache. |
| Tracker.FoodTracker.CreateNewWeekAsWritten | components/FoodTracker.js:162-183 | Performs `createNewWeek` as written: the next week is shown empty, and the empty week is saved under the previous week. |
| Tracker.FoodTracker.CreateNewWeek | components/FoodTracker.js:162-183 | Performs `createNewWeek` as intended: the next week is shown empty and cached under that week. |
| WeekStore.DayOrder | lib/supabase.js:135-141 | Defines `getDayOrder` as the lookup in the seven-name table with 0 as the default. `DayOrderSpec` and `DayOrderInjective` state its properties. |
| WeekStore.DayOrderSpec | lib/supabase.js:135-141 | Lundi … Dimanche get 1 … 7, matching the form's day list, and any other name gets 0. |
| WeekStore.DayOrderInjective | lib/supabase.js:135-141 | Two names with the same non-zero order are the same name. |
| WeekStore.ToRecord | lib/supabase.js:27-39 | Defines the record of one day entry: week start, day name, `getDayOrder`, and each field or `''`. `RowDataOfRecord` and `RecordsSpec` state its properties. |
| WeekStore.Records | lib/supabase.js:27-39 | Defines the records `saveWeek` sends, one per day entry under its key. `RecordsKeys` and `RecordsSpec` state their properties. |
| WeekStore.Upsert | lib/supabase.js:41-43 | Defines the upsert on (week_start, day_name) as overriding the table by the records. `UpsertSpec` states its properties. |
| WeekStore.Normalize | lib/supabase.js:31-37 | Defines what a row keeps of a day object: the seven fields, unset ones as `''`. `NormalizeShape` states its properties. |
| WeekStore.RowDataOfRecord | lib/supabase.js:31-37 | A record keeps the seven fields of its day, each the value given or `''` when unset. |
| WeekStore.NormalizeShape | lib/supabase.js:31-37 | The stored form of a day has exactly the seven fields, each agreeing with the input, and equals a day that already has exactly those fields. |
| WeekStore.NormalizeWeekShape | lib/supabase.js:27-39 | Normalising a schedule of the seven days gives a well-formed schedule whose cells agree with the input. |
| WeekStore.NormalizeWellFormed | lib/supabase.js:27-39 | Normalising changes nothing in a well-formed schedule. |
| WeekStore.RecordsKeys | lib/supabase.js:27-39 | The records are keyed by the week start and each day name of the schedule, one per day entry. |
| WeekStore.RecordsSpec | lib/supabase.js:27-39 | Exactly one record per day entry, keyed (weekStart, day name), with `day_order` from `getDayOrder` and each field the value given or `''`. |
| WeekStore.UpsertSpec | lib/supabase.js:41-43 | The upsert overwrites the row of a key it writes instead of adding a second one. Rows with other keys are unchanged, and the table grows only by the keys that were new. |
| WeekStore.UpsertRecordsValid | lib/supabase.js:27-43 | Saving keeps every row stored under its own (week_start, day_name), and every row it writes has the `day_order` of its day name. |
| WeekStore.LoadedWeek | lib/supabase.js:61-84 | Defines the fold of a week's rows into a schedule keyed by day name. `LoadedWeekSpec` states its properties, and `FoodTrackerApi.LoadWeek` is proved to compute it. |
| WeekStore.LoadedWeekSpec | lib/supabase.js:61-84 | The loaded week has a day name exactly when a row (weekStart, that name) exists, and holds that row's seven fields. It is empty exactly when no row has that week start. |
| WeekStore.SaveLoad | lib/supabase.js:19-89 | Loading a week after saving a schedule for it gives the week's previous rows, overridden by the saved schedule with unset fields as `''`. |
| WeekStore.SaveLeavesOtherWeeks | lib/supabase.js:19-89 | Saving one week does not change what any other week loads. |
| WeekStore.SaveReplacesWeek | lib/supabase.js:19-89 | When the week's earlier rows are all among the seven names, loading after saving a seven-day schedule gives exactly that schedule in stored form. |
| WeekStore.SaveLoadRoundTrip | lib/supabase.js:19-89 | After saving a schedule of all seven days, loading the week returns it with unset fields as `''` (exactly it when well formed), provided the week's earlier rows are all among the seven names. |
| WeekStore.SaveLoadExample | lib/supabase.js:19-89 | Saved into a table with no earlier rows for that week, week 2024-06-03 with only Tuesday's morning set to "210ml eau + 7 mesures lait 2ème âge" loads back exactly, all other cells `''`. |
| WeekStore.DeleteWeek | lib/supabase.js:98-105 | Defines the delete filtered on week_start. `DeleteWeekSpec` and `ResetLeavesOtherWeeks` state its properties. |
| WeekStore.DeleteWeekSpec | lib/supabase.js:98-105 | The reset removes every row of the week and no other, keeps the other rows' contents, and leaves the week loading as nothing. |
| WeekStore.ResetLeavesOtherWeeks | lib/supabase.js:98-105 | Resetting one week does not change what any other week loads. |
| WeekStore.InsertDescending | lib/supabase.js:120-123 | Inserting a week start into a most-recent-first list keeps it most recent first, grows it by one, and leaves exactly the old values plus the new one. |
| WeekStore.InsertDescendingPermutes | lib/supabase.js:120-123 | The insertion is a permutation of the old list with one more occurrence of the new value: the multisets agree. |
| WeekStore.Dedupe | lib/supabase.js:126 | `[...new Set(xs)]` holds each value of the input exactly once, and no other value. |
| WeekStore.DedupeFirstOccurrenceOrder | lib/supabase.js:126 | The de-duplicated values come in the order of their first occurrences in the input. |
| WeekStore.DedupeNonIncreasing | lib/supabase.js:120-126 | De-duplicating a most-recent-first list gives a strictly decreasing one. |
| WeekStore.FoodTrackerApi.constructor | lib/supabase.js:8-14 | The adapter has a client exactly when it is configured, over a table whose rows are stored under their own keys. |
| WeekStore.FoodTrackerApi.SaveWeek | lib/supabase.js:19-51 | Returns true and upserts the records exactly when a client exists and the store reports no error. Otherwise it returns false and the table is unchanged. |
| WeekStore.FoodTrackerApi.LoadWeek | lib/supabase.js:54-89 | Returns the week folded from its rows, or null when the week has no rows, no client exists, or the store reports an error. |
| WeekStore.FoodTrackerApi.ResetWeek | lib/supabase.js:92-110 | Returns true and deletes the week's rows exactly when a client exists and the store reports no error. Otherwise it returns false and the table is unchanged. |
| WeekStore.FoodTrackerApi.SelectWeekStartsDescending | lib/supabase.js:120-123 | The selected column is most recent first, and each week start occurs in it exactly as many times as there are rows with that week start. |
| WeekStore.FoodTrackerApi.GetWeeksHistory | lib/supabase.js:113-131 | Returns every stored week start exactly once, most recent first. Returns `[]` when no client exists or the store reports an error. |

## Left out

- Dates are day numbers. `new Date()`, the local time zone, and the ISO string that `toISOString().split('T')[0]` gives are not modelled. The cache key `foodTracker-<iso date>` is modelled by the week's day number, which identifies it one to one.
- The clock: today's date is a parameter of the constructor and of `GoToCurrentWeek`.
- The `updated_at` column written by `saveWeek` is not modelled: it is wall-clock time.
- JSON serialisation is reduced to the three possible outcomes of an entry: it parses, it is the empty string, or it does not parse. A failing `localStorage.setItem` (quota exceeded) is not modelled; the code only logs it.
- The Supabase client itself, the network, `async`/`await` and the environment variables are not modelled. Whether a client exists is the `configured` flag. A returned error is the `storeError` parameter. Console logging is dropped.
- Two saves racing from fast typing are left out: they are concurrency, and the code does not handle them.
- WeekStore.FoodTrackerApi.SaveWeek and WeekStore.FoodTrackerApi.ResetWeek: assume that a store error means nothing was written. If the server commits the upsert or the delete and the response is then lost, the `catch` (lib/supabase.js:47-50, 106-109) still returns false, over a table that did change. The model does not cover that case.
- WeekStore.FoodTrackerApi.GetWeeksHistory (and WeekStore.FoodTrackerApi.SelectWeekStartsDescending): assume that the query of lib/supabase.js:120-123 returns every row. The query has no range and no paging, so a server-side cap on returned rows (Supabase's default is 1000) would drop the oldest week starts once the table holds more rows than that. The model does not have that cap.
- WeekStore.FoodTrackerApi.LoadWeek: visits the week's rows in any order rather than by `day_order`. Each row has its own day name, so every order gives the same schedule, but the visiting order is not modelled.
- WeekStore.DayOrder and the object lookups: names inherited by JavaScript objects from their prototype (such as `toString`) are treated like any other unknown name.
- `getWeekDisplay` (locale date formatting), `generatePDF` (`window.print`), the JSX rendering and the option lists of the `<select>` elements are not modelled. The code does not validate values against those lists.
- The other components, the pages and the build scripts are user interface or build configuration, and are not part of this model.

## Findings

| source | as written | input that shows it | evidently intended | confidence | as-written member | corrected member |
|---|---|---|---|---|---|---|
| components/FoodTracker.js:162-183 | `createNewWeek` calls `setCurrentWeek(newWeek)` and then `saveToLocalStorage(emptyData)`. That save builds its key from `currentWeek` (line 107), which in the running render is still the week being left. So the empty week overwrites the previous week's cache entry. | On the week of 2024-06-03, enter "Pomme" in Lundi/fruit_lunch, press "new week" and then "previous week": Lundi/fruit_lunch reads `''`. | Store the empty week under the new week, and keep the previous week's entry. | not executed | Tracker.WithNewWeekAsWrittenLosesEdit | Tracker.WithNewWeekKeepsEdit |
