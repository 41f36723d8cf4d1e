# Payroll and scheduling dashboard: a verified model of its logic

This project models the parts of a React admin dashboard for payroll and
staff scheduling that carry logic, as opposed to rendering. There are four
parts:

- **The bulk payroll pipeline** (`BulkSalaryProcessor.dfy`, class
  `Processor`). A batch is created as a draft with one pending item per
  selected employee. Starting the batch sets it to processing and processes
  the items one after the other. Each item inserts a payroll record, marks
  the item processed and increments the batch's `processed_records`
  counter. The batch then becomes completed, or failed when a batch-level
  store call throws.
- **The salary sheet list** (`SalarySheetManager.dfy`, `Calendar.dfy`):
  - the period shortcuts, which turn a shortcut key and today's date into a
    first-day/last-day range, with JavaScript's `new Date(y, m, d)`
    normalisation written out;
  - the shortcut option list;
  - the list filter;
  - the sheet the create dialog inserts.
- **The roster list** (`RosterList.dfy`): the case-insensitive search and
  status filter, the form the edit button fills in with its `||` defaults,
  the record a submit writes, the update-or-insert choice, and deletion
  after a confirmation.
- **The working-hours list** (`WorkingHoursList.dfy`): the name search
  through the profile list, the status filter, approve, delete, the entry
  the create form inserts, and the form reset.

`Common.dfy` holds the JavaScript string and list operations the filters
are built from. `Types.dfy` holds the records and statuses of the tables.

Each table of the hosted database is a map from id to row, held as a field
of the component's class. Every call to the store is given its reply as an
input (`Reply = Ok | Err(message)`), together with the id the store
generates for an insert. The new state is then a function of the old state
and the replies:

- `Create`, `ItemStep`, `RunItems` and `StartRun` for the pipeline;
- `Save` and `Delete` for rosters;
- `Approve` and `EntryOf` for working hours.

Each method is proved to change its fields exactly as these functions say.
The lemmas prove what the code promises about the functions.

Notes on how the code behaves, all modelled as written:

- **processed_records counts successes only.** The code increments it on
  the success path only, after the payroll insert and the item update have
  landed. A counter described as counting every attempted item, failures
  included, would disagree. The model follows the code (`StartRunCounts`).
  The code never updates `total_amount` either, so it stays at the value
  it was created with.
- **A created batch can never pay anyone.** The profile of every item is
  looked up by the batch row's `profile_id`, not by the item's. Batch
  creation never writes that column, so every item of a created batch
  fails and no payroll row is written (`CreatedBatchNeverPays`,
  `NoProfileFailsEveryItem`).
- **An empty item list leaves the batch alone.** Starting such a batch
  returns without touching its status, so it does not become failed.
- **startBulkPayroll does not check the status.** The function runs a
  completed or failed batch exactly as it runs a draft
  (`RestartReprocesses`). The page offers its Start button only for draft
  batches, so a finished batch is run again only from a stale list or by a
  direct call.
- **Unnamed sheets are always hidden.** A salary sheet without an
  `employee_name` is excluded by the search test, even with an empty search
  term.
- **The sheet list opens on the current month.** The period shortcut starts
  as "current-month", and an effect applies it on mount. So the list first
  shows only sheets whose period starts in today's month, a newly created
  sheet included (`MountFilters`, `CreatedSheetShownAtMount`).
- **Entries without a profile are always hidden.** The same holds for a
  working-hours entry whose profile is missing.

## Model

| member | source | states |
|---|---|---|
| Common.EmptyToNull | src/components/Roster.tsx:182 | `x \|\| null` on a form string: absent exactly when the string is empty, otherwise the string itself |
| Common.ToLower | src/components/Roster.tsx:223-226 | `toLowerCase` keeps the length, lower-cases each ASCII letter and leaves no upper-case letter |
| Common.ToLowerIdempotent | src/components/Roster.tsx:223-226 | lower-casing twice is lower-casing once |
| Common.ContainsIffOccurs | src/components/Roster.tsx:228-232 | `includes` holds exactly when the term occurs at some position of the string |
| Common.OccursShift | src/components/Roster.tsx:228-232 | an occurrence in the tail of a string is an occurrence one place further on in the string |
| Common.ContainsEmpty | src/components/Roster.tsx:228-232 | every string includes the empty term |
| Common.Filter | src/components/WorkingHours.tsx:214-216 | `filter` keeps only elements of the list that pass, keeps every element that passes, and never grows the list |
| Common.FilterKeepsAll | src/components/Roster.tsx:222-237 | a filter every element passes returns the list itself, in order |
| Common.FilterCongruent | src/components/Roster.tsx:222-237 | two tests that agree on every element filter alike |
| Common.FilterTwice | src/components/WorkingHours.tsx:214-216 | two chained filters are one filter by both tests |
| Common.Find | src/components/WorkingHours.tsx:215 | `find` returns the first list element with the id, and returns nothing exactly when no element has it |
| Common.IndexOf | src/components/salary/SalarySheetManager.tsx:100 | `indexOf` is -1 exactly when the value is absent, otherwise the first position holding it |
| Types.FindProfile | src/components/salary/SalarySheetManager.tsx:122 | the first profile with the id, or nothing exactly when no profile has it |
| Calendar.DaysInMonth | src/components/salary/SalarySheetManager.tsx:79-92 | a month has 28 to 31 days, and February has 29 exactly in leap years |
| Calendar.LastDay | src/components/salary/SalarySheetManager.tsx:81 | the last day of a month is a valid date |
| Calendar.MakeDate | src/components/salary/SalarySheetManager.tsx:80-81 | `new Date(y, m, d)` always yields a valid calendar date, whatever the month index and day |
| Calendar.MakeDateInRange | src/components/salary/SalarySheetManager.tsx:80 | a month index in 0..11 and a day within that month are taken as they are |
| Calendar.MakeDateDayZero | src/components/salary/SalarySheetManager.tsx:81 | day 0 of the next month is the last day of this month, and December rolls into the next year |
| Calendar.MakeDateFirst | src/components/salary/SalarySheetManager.tsx:85 | day 1 of month index -1 is December 1 of the previous year |
| SalarySheetManager.ShortcutRange | src/components/salary/SalarySheetManager.tsx:71-107 | a recognised shortcut gives two valid dates, the first being the 1st of a month |
| SalarySheetManager.CurrentMonthRange | src/components/salary/SalarySheetManager.tsx:79-82 | `current-month` is the 1st through the last day of today's month |
| SalarySheetManager.LastMonthRange | src/components/salary/SalarySheetManager.tsx:84-87 | `last-month` is the whole previous month, which in January is December of the previous year |
| SalarySheetManager.ThisYearRange | src/components/salary/SalarySheetManager.tsx:89-92 | `this-year` is January 1 through December 31 of today's year |
| SalarySheetManager.FixedKeysAreNotMonths | src/components/salary/SalarySheetManager.tsx:96-100 | the three fixed keys are not month names |
| SalarySheetManager.MonthKeysDistinct | src/components/salary/SalarySheetManager.tsx:96-99 | the twelve month names are distinct |
| SalarySheetManager.MonthNameRange | src/components/salary/SalarySheetManager.tsx:94-103 | a month name in any letter case selects that whole month of today's year |
| SalarySheetManager.UnknownShortcut | src/components/salary/SalarySheetManager.tsx:104-106 | any other shortcut is not recognised |
| SalarySheetManager.ShortcutRangeOrdered | src/components/salary/SalarySheetManager.tsx:71-107 | every selected range starts no later than it ends |
| SalarySheetManager.SheetManager.HandleDateShortcut | src/components/salary/SalarySheetManager.tsx:71-111 | both dates are set to the shortcut's range; an unrecognised shortcut leaves them unchanged; nothing else changes |
| SalarySheetManager.MonthsDownFrom | src/components/salary/SalarySheetManager.tsx:180-186 | one option per month from the current month down to January |
| SalarySheetManager.ShortcutOptions | src/components/salary/SalarySheetManager.tsx:167-191 | the option list has currentMonth + 4 entries; ShortcutOptionsLayout and OptionsAreRecognised give its contents |
| SalarySheetManager.ShortcutOptionsLayout | src/components/salary/SalarySheetManager.tsx:175-190 | currentMonth + 4 options: current month, then last month, then the months from the current one down to January, then this year |
| SalarySheetManager.ToLowerIs | src/components/salary/SalarySheetManager.tsx:183 | a string whose characters lower-case to another's lower-cases to it |
| SalarySheetManager.MonthLabelLowersToKey | src/components/salary/SalarySheetManager.tsx:170-183 | lower-casing a month label gives the key the shortcut handler compares |
| SalarySheetManager.MonthsDownFromStep | src/components/salary/SalarySheetManager.tsx:181-186 | one turn of the option loop appends the option of the next month down |
| SalarySheetManager.OptionsAreRecognised | src/components/salary/SalarySheetManager.tsx:167-191 | every option offered is recognised by the period handler, and a month option selects that month |
| SalarySheetManager.SheetManager.GenerateShortcutOptions | src/components/salary/SalarySheetManager.tsx:167-191 | the descending loop builds exactly the option list above |
| SalarySheetManager.FilterSheets | src/components/salary/SalarySheetManager.tsx:193-208 | `filteredSheets` lists only sheets of the list that have an employee name, never more than the list; FilterSheetsMembership gives both directions |
| SalarySheetManager.FilterSheetsMembership | src/components/salary/SalarySheetManager.tsx:193-208 | a sheet is listed iff it has an employee name containing the term, its status and profile pass their filters, and, when both dates are set, its period start lies within them inclusive |
| SalarySheetManager.ClientAndProjectIgnored | src/components/salary/SalarySheetManager.tsx:193-208 | the client and project filters do not change the list |
| SalarySheetManager.InitialFiltersKeepNamed | src/components/salary/SalarySheetManager.tsx:193-208 | with the filters as first declared, before the mount effect sets the dates, exactly the sheets with an employee name are listed, in order |
| SalarySheetManager.NewSalarySheet | src/components/salary/SalarySheetManager.tsx:120-129 | the inserted sheet is a draft whose employee name is the matching profile's full name, or "" without one; the form's fields are copied |
| SalarySheetManager.MountFilters | src/components/salary/SalarySheetManager.tsx:31-47 | after the mount effect the date filters span the 1st through the last day of today's month, and the other filters are as first declared |
| SalarySheetManager.CreatedSheetShownWithoutDates | src/components/salary/SalarySheetManager.tsx:120-129 | a created sheet always has a name, so the filters without dates show it |
| SalarySheetManager.CreatedSheetShownAtMount | src/components/salary/SalarySheetManager.tsx:120-129 | under the filters the component starts with, a created sheet is listed exactly when its period starts in today's month |
| SalarySheetManager.SheetManager.constructor | src/components/salary/SalarySheetManager.tsx:24-47 | an empty list, the declared filters and then the mount effect's current-month dates |
| SalarySheetManager.SheetManager.FetchSalarySheets | src/components/salary/SalarySheetManager.tsx:49-69 | the fetched rows replace the list, which an error keeps |
| SalarySheetManager.SheetManager.HandleCreateSalarySheet | src/components/salary/SalarySheetManager.tsx:113-152 | on success the inserted row is the new draft sheet and the dialog closes; on an error nothing is inserted and the dialog stays; the list and the filters are unchanged until the refetch |
| RosterList.ContainsInEmpty | src/components/Roster.tsx:224-232 | only the empty term occurs in a missing name read as "" |
| RosterList.FilterRosters | src/components/Roster.tsx:222-237 | `filteredRosters` lists only rosters of the list that pass the search and status tests, never more than the list; FilterRostersMembership gives both directions |
| RosterList.FilterRostersMembership | src/components/Roster.tsx:222-237 | a roster is listed iff the lower-cased term occurs in its profile, client, project or own name (missing names read as "") and the status filter is "all" or its status |
| RosterList.EmptySearchListsAll | src/components/Roster.tsx:222-237 | an empty search with status "all" lists every roster, in order |
| RosterList.EmptyForm | src/components/Roster.tsx:153-169 | empty strings, total hours 0, one expected profile, rate 0, pending |
| RosterList.FormFor | src/components/Roster.tsx:110-128 | a missing name, end date or notes becomes "", a missing or zero expected_profiles becomes 1, and a missing rate becomes 0; all other fields are copied |
| RosterList.RecordOf | src/components/Roster.tsx:176-190 | `rosterData` sends a null end date exactly when the form's end date is empty, and that end date otherwise; EditAndSaveUnchanged and EmptyFormRecord give the other columns |
| RosterList.EditAndSaveUnchanged | src/components/Roster.tsx:112-190 | editing a roster and saving it unchanged writes back its own columns, except that each missing field is written as its default and an empty end date as null |
| RosterList.EmptyFormRecord | src/components/Roster.tsx:153-190 | a reset form submits a pending roster with one expected profile and no end date |
| RosterList.Save | src/components/Roster.tsx:192-205 | an update keeps the table's keys and an insert adds exactly the generated id; SaveEffect gives the rows |
| RosterList.SaveEffect | src/components/Roster.tsx:192-205 | an edit replaces the edited row and adds none; a new roster adds one row under the generated id; no other row changes |
| RosterList.Delete | src/components/Roster.tsx:130-137 | the delete after the confirmation removes at most the row with that id; DeleteEffect gives the cases |
| RosterList.DeleteEffect | src/components/Roster.tsx:130-137 | a declined confirmation or a failed delete changes nothing; a delete that lands removes only that row |
| RosterList.RosterManager.constructor | src/components/Roster.tsx:17-43 | empty list, empty filters, the reset form, nothing being edited |
| RosterList.RosterManager.EditRoster | src/components/Roster.tsx:110-128 | the roster is remembered, the form filled in and the dialog opened; the table is unchanged |
| RosterList.RosterManager.ResetForm | src/components/Roster.tsx:153-169 | the form becomes the empty form and nothing else changes |
| RosterList.RosterManager.HandleSubmit | src/components/Roster.tsx:171-220 | on success the table is saved as above, the dialog closes and the form resets; on an error nothing changes; the remembered roster is kept |
| RosterList.RosterManager.DeleteRoster | src/components/Roster.tsx:130-151 | the table after the confirmation and the delete, and nothing else changes |
| RosterList.RosterManager.FetchData | src/components/Roster.tsx:49-83 | the fetched rosters replace the list, which an error keeps |
| WorkingHoursList.FilterWorkingHours | src/components/WorkingHours.tsx:214-216 | `filteredWorkingHours` lists only entries of the list that pass the status test, never more than the list; FilterWorkingHoursMembership gives both directions |
| WorkingHoursList.FilterWorkingHoursMembership | src/components/WorkingHours.tsx:214-216 | an entry is listed iff its profile exists, that profile's lower-cased name contains the term, and the status filter is "all" or its status |
| WorkingHoursList.EmptySearchKeepsEntriesWithProfiles | src/components/WorkingHours.tsx:214-216 | an empty search with status "all" lists exactly the entries whose profile exists, in order |
| WorkingHoursList.EmptyForm | src/components/WorkingHours.tsx:218-236 | empty strings, every number 0, pending |
| WorkingHoursList.EntryOf | src/components/WorkingHours.tsx:148-170 | the inserted entry carries the generated id and the form's profile and status, with no roster linked; EntryKeepsForm gives the round trip and the copied fields |
| WorkingHoursList.EntryKeepsForm | src/components/WorkingHours.tsx:148-164 | the inserted entry reads back as the form; notes and the four amounts are sent as they are, and only the sign-in and sign-out times become null, exactly when empty |
| WorkingHoursList.Approve | src/components/WorkingHours.tsx:86-89 | approving keeps the table's keys; ApproveEffect and ApproveIdempotent give the rest |
| WorkingHoursList.ApproveEffect | src/components/WorkingHours.tsx:86-89 | approving sets the status of exactly that entry to approved and changes nothing else |
| WorkingHoursList.ApproveIdempotent | src/components/WorkingHours.tsx:86-89 | approving twice is approving once |
| WorkingHoursList.Delete | src/components/WorkingHours.tsx:118-121 | a delete removes no other key, and one that lands removes the id; DeleteEffect gives the rest |
| WorkingHoursList.DeleteEffect | src/components/WorkingHours.tsx:115-137 | a failed delete changes nothing; a delete that lands removes exactly the entry with that id and keeps every other entry |
| WorkingHoursList.DeleteAfterApprove | src/components/WorkingHours.tsx:83-137 | deleting an approved entry leaves the same table as deleting it unapproved |
| WorkingHoursList.HoursManager.constructor | src/components/WorkingHours.tsx:18-46 | empty lists, empty filters, the reset form |
| WorkingHoursList.HoursManager.HandleApprove | src/components/WorkingHours.tsx:83-105 | on success the table is approved as above; on an error nothing changes |
| WorkingHoursList.HoursManager.HandleDelete | src/components/WorkingHours.tsx:115-137 | the table becomes `Delete` of the old table under the reply, and nothing else changes |
| WorkingHoursList.HoursManager.ResetForm | src/components/WorkingHours.tsx:218-236 | the form becomes the empty form and nothing else changes |
| WorkingHoursList.HoursManager.HandleSubmit | src/components/WorkingHours.tsx:143-186 | on success the form's entry is inserted under the generated id, the dialog closes and the form resets; on an error nothing changes |
| WorkingHoursList.HoursManager.FetchData | src/components/WorkingHours.tsx:52-81 | the fetched entries and profiles replace the lists, which an error keeps |
| BulkSalaryProcessor.NewBatch | src/components/salary/BulkSalaryProcessor.tsx:221-235 | the inserted batch is a draft under the generated id, with total_records the number selected, nothing processed, total 0 and no profile_id; CreatedBatchShape states the rest |
| BulkSalaryProcessor.Create | src/components/salary/BulkSalaryProcessor.tsx:209-268 | creation never touches profiles or payrolls, writes no item unless it succeeds, and on success reports the new batch's id, which is then stored; CreateValidates, CreatedBatchShape, CreatedItems and OrphanBatchWhenItemsFail give its full contract |
| BulkSalaryProcessor.HourlyRate | src/components/salary/BulkSalaryProcessor.tsx:151 | `hourly_rate \|\| 25` is never 0, and is either 25 or the profile's own rate |
| BulkSalaryProcessor.NewItems | src/components/salary/BulkSalaryProcessor.tsx:240-244 | one item row per selected profile, carrying the generated ids in order |
| BulkSalaryProcessor.TryItem | src/components/salary/BulkSalaryProcessor.tsx:140-187 | the try block keeps the profiles and every batch and item key, and leaves the batches alone whenever it throws; ItemStepBatches ties its error to ItemError |
| BulkSalaryProcessor.ItemStep | src/components/salary/BulkSalaryProcessor.tsx:139-207 | one processPayrollItem keeps the profiles and every batch and item key; ItemStepEffect, ItemStepItems and ItemStepPayrolls give its full contract |
| BulkSalaryProcessor.PayrollFor | src/components/salary/BulkSalaryProcessor.tsx:151-169 | 40 hours at the given rate, gross = rate x hours, deductions 10% of gross, net = gross - deductions (36 x rate), the batch's period, pending |
| BulkSalaryProcessor.SuccessCount | src/components/salary/BulkSalaryProcessor.tsx:184-186 | at most one success per item |
| BulkSalaryProcessor.RunItems | src/components/salary/BulkSalaryProcessor.tsx:97-99 | the item loop keeps the profiles and adds or removes no batch or item |
| BulkSalaryProcessor.StartRun | src/components/salary/BulkSalaryProcessor.tsx:59-129 | a run adds or removes no batch |
| BulkSalaryProcessor.CreateValidates | src/components/salary/BulkSalaryProcessor.tsx:210-217 | a validation error exactly when the name or a period end is empty or no profile is selected, and then nothing is written |
| BulkSalaryProcessor.CreatedBatchShape | src/components/salary/BulkSalaryProcessor.tsx:221-235 | the created batch is a draft with total_records = the number selected, processed_records 0, total_amount 0, no profile_id, created by the first profile; no other batch changes |
| BulkSalaryProcessor.InsertAllStores | src/components/salary/BulkSalaryProcessor.tsx:246-248 | the bulk insert stores every row under its id |
| BulkSalaryProcessor.InsertAllKeys | src/components/salary/BulkSalaryProcessor.tsx:246-248 | the bulk insert adds the rows' ids and no other key |
| BulkSalaryProcessor.InsertAllKeeps | src/components/salary/BulkSalaryProcessor.tsx:246-248 | the bulk insert keeps every other row |
| BulkSalaryProcessor.InsertAllSize | src/components/salary/BulkSalaryProcessor.tsx:246-248 | rows with distinct fresh ids grow the table by their number |
| BulkSalaryProcessor.CreatedItems | src/components/salary/BulkSalaryProcessor.tsx:240-250 | exactly one pending item per selected profile, in selection order, each referencing the new batch; existing items are kept |
| BulkSalaryProcessor.OrphanBatchWhenItemsFail | src/components/salary/BulkSalaryProcessor.tsx:237-250 | when the item insert fails the batch row stays behind with no items, and the error is reported |
| BulkSalaryProcessor.ItemStepBatches | src/components/salary/BulkSalaryProcessor.tsx:184-186 | one item moves its batch's counter by one exactly when every call lands, which is exactly when the try block throws nothing |
| BulkSalaryProcessor.ItemStepItems | src/components/salary/BulkSalaryProcessor.tsx:176-203 | one item changes only its own row: processed with the payroll link on success, failed with the error's message when the failure update lands |
| BulkSalaryProcessor.ItemStepPayrolls | src/components/salary/BulkSalaryProcessor.tsx:157-174 | one item writes at most the computed payroll row, under the id the insert returned |
| BulkSalaryProcessor.ItemStepEffect | src/components/salary/BulkSalaryProcessor.tsx:139-207 | one item: the counter moves by one exactly when every call lands; only that item changes; at most the computed payroll row is written; on failure with the failure update landing the item is failed with the error's message |
| BulkSalaryProcessor.ItemStepOthers | src/components/salary/BulkSalaryProcessor.tsx:176-203 | processing an item writes no other item |
| BulkSalaryProcessor.ItemStepLocal | src/components/salary/BulkSalaryProcessor.tsx:139-207 | processing an item depends only on its own row and the profiles |
| BulkSalaryProcessor.RunItemsBatches | src/components/salary/BulkSalaryProcessor.tsx:97-99 | the loop changes no batch's status, period or totals; it only adds the number of successes to the counter of its batch |
| BulkSalaryProcessor.RunItemsUnlisted | src/components/salary/BulkSalaryProcessor.tsx:97-99 | items outside the listing are untouched |
| BulkSalaryProcessor.RunItemsListed | src/components/salary/BulkSalaryProcessor.tsx:97-99 | each listed item ends exactly as if it had been processed alone |
| BulkSalaryProcessor.RunItemsPayrolls | src/components/salary/BulkSalaryProcessor.tsx:157-174 | no payroll key is lost; every row is an old row or one computed from the batch's profile, so a row survives unless an insert reply reuses its id; without that profile the table is unchanged |
| BulkSalaryProcessor.RunItemsKeepsPayrolls | src/components/salary/BulkSalaryProcessor.tsx:157-172 | when every insert returns an id the table does not hold yet, every existing payroll row is kept unchanged |
| BulkSalaryProcessor.ComputedPayIsConsistent | src/components/salary/BulkSalaryProcessor.tsx:151-169 | every computed row satisfies the pay identities, uses the profile's non-zero rate or 25, and nets 90% of gross |
| BulkSalaryProcessor.NoProfileNoSuccess | src/components/salary/BulkSalaryProcessor.tsx:142-148 | without a profile behind the batch's profile_id no item succeeds |
| BulkSalaryProcessor.StartRunOutcome | src/components/salary/BulkSalaryProcessor.tsx:59-129 | no items iff both reads land and the listing is empty, and then nothing changes; completed iff every batch-level call lands; failed otherwise, persisted when the failure update lands |
| BulkSalaryProcessor.ItemFailuresNeverFailTheRun | src/components/salary/BulkSalaryProcessor.tsx:192-203 | the run's outcome and the batch's final status do not depend on the item calls' replies |
| BulkSalaryProcessor.ProcessingWhileItemsRun | src/components/salary/BulkSalaryProcessor.tsx:88-99 | the batch reads as processing after every prefix of the item loop |
| BulkSalaryProcessor.StartRunBatchesAfterLoop | src/components/salary/BulkSalaryProcessor.tsx:101-124 | after the loop only the batch's status is set: completed, failed, or left at processing |
| BulkSalaryProcessor.StartRunBatchesBeforeLoop | src/components/salary/BulkSalaryProcessor.tsx:63-94 | before the loop at most the batch's status is set, to failed |
| BulkSalaryProcessor.StartRunCounts | src/components/salary/BulkSalaryProcessor.tsx:176-186 | processed_records grows by the number of successes, at most the number of items; total_amount, total_records and every other batch are unchanged |
| BulkSalaryProcessor.CreateKeepsKeyed | src/components/salary/BulkSalaryProcessor.tsx:221-235 | creating a batch keeps every batch row stored under its own id |
| BulkSalaryProcessor.ItemStepKeepsKeyed | src/components/salary/BulkSalaryProcessor.tsx:139-207 | processing one item never changes a batch's id |
| BulkSalaryProcessor.StartRunKeepsKeyed | src/components/salary/BulkSalaryProcessor.tsx:59-129 | a run never changes a batch's id, so the premise of StartRunCounts holds for every batch of a store reached by creating and running batches |
| BulkSalaryProcessor.CreatedBatchNeverPays | src/components/salary/BulkSalaryProcessor.tsx:142-146 | running a batch created here writes no payroll row and leaves processed_records at 0 |
| BulkSalaryProcessor.NoProfileFailsEveryItem | src/components/salary/BulkSalaryProcessor.tsx:139-203 | without the batch's profile every listed item ends failed with the read error or "no rows", its payroll link unchanged |
| BulkSalaryProcessor.RunItemsIgnoresStatus | src/components/salary/BulkSalaryProcessor.tsx:139-207 | item processing never reads the batch's status |
| BulkSalaryProcessor.ItemStepIgnoresStatus | src/components/salary/BulkSalaryProcessor.tsx:139-207 | one item's processing never reads the batch's status |
| BulkSalaryProcessor.RestartReprocesses | src/components/salary/BulkSalaryProcessor.tsx:59-99 | a completed or failed batch is run exactly as a draft would be |
| BulkSalaryProcessor.Processor.constructor | src/components/salary/BulkSalaryProcessor.tsx:33-34 | the component over the given tables, not processing, with the create dialog closed |
| BulkSalaryProcessor.Processor.CreateBulkPayroll | src/components/salary/BulkSalaryProcessor.tsx:209-268 | the tables and the result are those of `Create`; the dialog closes exactly when the batch and its items are created |
| BulkSalaryProcessor.Processor.ProcessPayrollItem | src/components/salary/BulkSalaryProcessor.tsx:139-207 | the tables are those of `ItemStep`; the error never reaches the caller |
| BulkSalaryProcessor.Processor.StartBulkPayroll | src/components/salary/BulkSalaryProcessor.tsx:59-129 | the loop over the listed items leaves the tables and result of `StartRun`, and processing is off at the end |
| BulkSalaryProcessor.Processor.PauseBulkPayroll | src/components/salary/BulkSalaryProcessor.tsx:131-137 | pause clears the flag and changes no stored state |

## Left out

- Rendering is not modelled: JSX, badges, progress bars, toasts, `console.error`, the loading flags and the `onRefresh` calls. The dialogs appear only as their open flags, which the handlers set. Opening a dialog, and the contents of view, print and edit dialogs, are left out.
- The store client is not modelled. Each call is an input reply. The refetch after a write, awaited or not, is a separate `FetchData`/`FetchSalarySheets` call with its own reply and rows.
- The store's own ordering of the item listing is an input, `listing`, and `StartBulkPayroll` requires it to hold each item of the batch once.
- Error message texts are not modelled. A missing row reports `NoRowsMessage`. An empty profile list reports `NoCreatorMessage`, where the code throws a TypeError.
- Time zones are not modelled. The `toISOString()` UTC shift of the chosen dates and the parsing of date strings into dates are left out. Dates are calendar triples and "today" is an input.
- Numbers use exact reals. Floating point, `parseFloat` of form fields and `toFixed` are left out, and so is NaN.
- Common.ToLower: handles ASCII letters only. It does not model Unicode case mapping.
- Concurrency is not modelled: two drivers running one batch, and the `processingPayrollId` flag.
- Processor.PauseBulkPayroll: only clears the `isProcessing` flag. No loop reads that flag, as in the code.
- The roster component's `openDialog`/`closeDialog` and input-change handlers are left out, as are the working-hours edit dialog (`handleEditSubmit`) and `handleView`. They are outside the modelled operations.
- The salary sheet view, print and download handlers are left out. They only open a dialog or show a toast.
- SalarySheet is imported from `@/types/database` and is not modelled from its declaration. Its fields are those SalarySheetManager.tsx reads and writes.
