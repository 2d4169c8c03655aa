# Payroll dashboard core, modelled in Dafny

This project models the deterministic core of a payroll dashboard for a chain
of shops. Each employee has one attendance log per day. The core turns those
logs, and the payroll records computed from them, into summaries, tables and
payslips. Six parts are modelled:

- **Branch summary** (`helpers.dfy`, module `Helpers`). Payroll records are
  grouped by branch into head counts and column sums, ordered by head count.
  The grand totals are summed from the branches. Branch names are shortened
  and position codes get labels.
- **Payroll generator** (`payroll_generator.dfy`, module `PayrollGenerator`).
  - The preview folds a period's daily logs into one summary per employee and
    sums the preview totals.
  - The result rows are built from the stored payroll records, with names and
    a basic-salary fallback.
  - A step machine covers select → preview → generating → results.
- **Daily log form** (`daily_log_form.dfy`, module `DailyLogForm`).
  - Entries are pre-filled from the day's existing logs.
  - One field can be edited, or every entry marked present.
  - The rows sent to the database on save are modelled, and so is what a
    successful save does to the entries.
  - It also covers the per-status counts.
- **Payslip content** (`payslip.dfy`, module `Payslip`).
  - Which lines the earnings, statutory and other-deductions tables list, and
    the total each table shows.
  - Whether the comment is printed, the position label and short id, and the
    leave table.
  - File names, and the page sequence of a batch download.
- **Employee table** (`employee_table.dfy`, module `EmployeeTable`). The sort
  column and direction change on header clicks. Rows are filtered by branch and
  search, then sorted.
- **Staff directory** (`staff_directory.dfy`, module `StaffDirectory`).
  - Contacts are filtered by branch and search and ordered by name.
  - Each card gets a completeness score and colour band.
  - The page shows coverage counters, branch chip counts, and detail lines
    that are hidden when empty.

Shared modules:

- `common.dfy`: the option and result types, and the attendance statuses.
- `folds.dfy`: sums, counts and filters written as left folds.
- `sorting.dfy`: insertion sort under a caller-supplied total preorder.
- `text.dfy`: ASCII case mapping, substring search and whitespace-run
  replacement.

Modelling conventions:

- Money, shift counts and day counts read from the database are `real`.
  Extra shifts come in halves.
- JavaScript objects keyed by id are modelled as sequences with distinct keys,
  in insertion order. `Object.values` follows that order for keys that are
  not integer-like, which holds for the UUID ids used here (JavaScript lists
  integer-like keys first, in ascending order).
- `localeCompare` is an arbitrary total preorder `collate` on strings, passed
  in as a parameter. Every sort is proved to return a sorted permutation of
  its input. Stability is not claimed.
- Database reads, RPC calls, the clock and React state updates are not
  modelled. Their results become parameters: a `Result` for a query that can
  fail, an `Outcome` for the payroll RPC, an `Option` for a query that can
  return nothing.

Not every log row moves an attendance counter. Only present, late, absent
and leave rows do (app/payroll/PayrollGenerator.tsx:122-125). Day-off and
extra-shift rows are counted only in `total_days_logged`.
`PayrollGenerator.CountersBounded` states the exact relation.

One behaviour may surprise a reader. `other_deductions` is included in the
payslip's other-deductions total (lib/payslip.ts:195) but never listed as a
line. On its own it does not make the table appear (lib/payslip.ts:182).
`Payslip.OtherTotalIncludesUnlisted` and `Payslip.OtherDeductionsAloneHidden`
state this. The code does not show whether it is intended, so the model keeps
it as written.

## Model

| member | source | states |
|---|---|---|
| Common.OrElse | lib/payslip.ts:65 | a string with a fallback: the string itself when non-empty, the fallback otherwise |
| Common.NullIfEmpty | app/daily/DailyLogForm.tsx:162 | an empty string becomes null, anything else is kept |
| Helpers.AddRecord | lib/helpers.ts:78-88 | adding a record raises the head count by one and every money column by that record's amount |
| Helpers.FindBranch | lib/helpers.ts:76 | the lookup finds an entry with that branch name, or reports that none has it |
| Helpers.AccumulateShape | lib/helpers.ts:74-89 | one step of the `forEach` (`Accumulate`) adds the record to its branch's entry, or appends a new entry for an unseen branch; every other branch's entry is untouched |
| Helpers.Accumulate | lib/helpers.ts:75-88 | one `forEach` step; it has no contract of its own, and `AccumulateShape` states what it does |
| Helpers.GroupByBranchDescribes | lib/helpers.ts:73-89 | the fold yields one entry per branch name present, each holding its branch's head count and column sums |
| Helpers.GroupByBranch | lib/helpers.ts:73-89 | the `forEach` over the records; it has no contract of its own, and what it builds is stated by `GroupByBranchDescribes` and `GroupByBranchPreservesSums` |
| Helpers.BuildBranchSummary | lib/helpers.ts:72-91 | the result describes the records (one entry per branch with its counts and sums), is ordered by head count descending, and is a permutation of the grouped entries |
| Helpers.BranchSummaryKeys | lib/helpers.ts:72-91 | each branch of the input appears exactly once in the summary and no other name appears |
| Helpers.BranchSummarySums | lib/helpers.ts:74-89 | every summary entry's head count and money columns equal the count and sums over that branch's records |
| Helpers.SumTotals | lib/helpers.ts:93-107 | the totals are the column sums over the branches, PAYE excluded |
| Helpers.GroupByBranchPreservesSums | lib/helpers.ts:74-89 | grouping loses nothing: the head counts add up to the number of records and each column's sum over the branches equals its sum over the records |
| Helpers.SumTotalsOfRecords | lib/helpers.ts:72-107 | the grand totals of the branch summary equal the record count and the per-column sums over all records |
| Helpers.ShortBranch | lib/helpers.ts:18-19 | a name without " Shop" or " UB Market" is unchanged, and shortening never lengthens a name; which occurrences go, for a name with either pattern or both, is stated by the three lemmas below |
| Helpers.ShortBranchCutsFirstShop | lib/helpers.ts:18-19 | when " Shop" first occurs at position i and the rest holds no " UB Market", the short name is the name with exactly that occurrence cut out |
| Helpers.ShortBranchCutsFirstMarket | lib/helpers.ts:18-19 | a name without " Shop" loses exactly its first " UB Market", wherever it is |
| Helpers.ShortBranchCutsBoth | lib/helpers.ts:18-19 | when " Shop" first occurs at i, and " UB Market" first occurs at k in the name with that " Shop" cut out, the short name is that shorter name with the " UB Market" at k cut out too |
| Helpers.ShortBranchShopThenMarket | lib/helpers.ts:18-19 | both patterns go from one name: "Kabwe Shop UB Market" is shown as "Kabwe" |
| Helpers.ShortBranchFirstOccurrenceOnly | lib/helpers.ts:18-19 | only the first " Shop" is removed, because `replace` with a string pattern replaces once |
| Helpers.PosLabel | lib/helpers.ts:7-16 | a label exists exactly for the eight known position codes |
| Helpers.RoleLabel | lib/helpers.ts:7-16 | the displayed role is the code itself exactly when the code has no label |
| PayrollGenerator.EmployeeName | app/payroll/PayrollGenerator.tsx:112 | an unknown employee is named "Unknown"; a known one with a name keeps it |
| PayrollGenerator.BranchName | app/payroll/PayrollGenerator.tsx:113 | an unknown branch is named "Unknown"; a known one with a name keeps it |
| PayrollGenerator.EmployeePosition | app/payroll/PayrollGenerator.tsx:114 | the position falls back to the caller's default for an unknown employee |
| PayrollGenerator.Tally | app/payroll/PayrollGenerator.tsx:120-129 | tallying a log keeps the identity fields, adds one day, adds one to the counter of the log's status only, and adds each amount to its total |
| PayrollGenerator.FindEmployee | app/payroll/PayrollGenerator.tsx:109 | the lookup finds the summary with that id, or reports that none has it |
| PayrollGenerator.FirstLog | app/payroll/PayrollGenerator.tsx:109-118 | the first log of an employee, which supplies the summary's branch, or none |
| PayrollGenerator.OpenStartsEmpty | app/payroll/PayrollGenerator.tsx:109-117 | a new summary (`Open`) takes the ids of its first log row and the looked-up names, with every counter and total at zero, and the employee's position or "" when the employee is unknown or has none |
| PayrollGenerator.AggStepShape | app/payroll/PayrollGenerator.tsx:108-129 | one step of the fold (`AggStep`) tallies the row into its employee's summary, or opens a summary at the end for a new employee; every other summary is untouched |
| PayrollGenerator.AggStep | app/payroll/PayrollGenerator.tsx:108-129 | one fold step; it has no contract of its own, and `AggStepShape` states what it does |
| PayrollGenerator.Open | app/payroll/PayrollGenerator.tsx:109-117 | a new employee's summary; it has no contract of its own, and `OpenStartsEmpty` states what it holds |
| PayrollGenerator.Aggregate | app/payroll/PayrollGenerator.tsx:107-130 | the fold over the log rows; it has no contract of its own, and what it builds is stated by `AggregateSummarises`, `AggregateKeys` and `AggregatePreservesSums` |
| PayrollGenerator.AggStepSummarises | app/payroll/PayrollGenerator.tsx:108-130 | one step of the fold keeps the summary list exact for the logs seen so far |
| PayrollGenerator.AggregateSummarises | app/payroll/PayrollGenerator.tsx:107-130 | after the fold, each employee with logs has exactly one summary. Its counters are the counts of that employee's rows per status, its totals are the sums of the employee's amounts, and its names come from the first row |
| PayrollGenerator.TallyDayOff | app/payroll/PayrollGenerator.tsx:121-125 | a day-off or extra-shift row adds a logged day but moves no status counter |
| PayrollGenerator.StatusPartition | app/payroll/PayrollGenerator.tsx:121-125 | the six per-status row counts of an employee add up to that employee's row count |
| PayrollGenerator.CountersBounded | app/payroll/PayrollGenerator.tsx:121-125 | in every summary the four counters plus the day-off and extra-shift rows equal the days logged, so the counters never exceed it |
| PayrollGenerator.AggregateKeys | app/payroll/PayrollGenerator.tsx:107-130 | the summaries have distinct ids, every logged id has one, every summary's id was logged, and there are as many summaries as distinct logged ids |
| PayrollGenerator.NoLogsCount | app/payroll/PayrollGenerator.tsx:132-133 | a missing count counts as zero |
| PayrollGenerator.NoLogsCountIsUnlogged | app/payroll/PayrollGenerator.tsx:132-133 | when every logged employee is active, the "no logs" figure is the number of active employees without a single log |
| PayrollGenerator.PreviewList | app/payroll/PayrollGenerator.tsx:134 | the preview list is an exact summary of the logs, sorted by branch name and then full name, and a permutation of the fold's result |
| PayrollGenerator.SumPreview | app/payroll/PayrollGenerator.tsx:230-237 | the preview totals count the summaries and sum their absent days, shortages, advances, fines and extra shifts |
| PayrollGenerator.AggregatePreservesSums | app/payroll/PayrollGenerator.tsx:107-130 | summing a total over the summaries equals summing the column over the logs, and summing a counter equals counting the logs with its status |
| PayrollGenerator.AggregateTotal | app/payroll/PayrollGenerator.tsx:107-130 | for one money column, the summaries' totals add up to the column summed over the logs, whether a log opens a new summary or adds to an existing one |
| PayrollGenerator.AggregateCounter | app/payroll/PayrollGenerator.tsx:107-130 | for one status, the summaries' day counter adds up to the number of logs carrying that status |
| PayrollGenerator.PreviewTotalsOfLogs | app/payroll/PayrollGenerator.tsx:230-237 | the preview totals equal the number of distinct logged employees, the number of absent rows, and the column sums over the raw logs |
| PayrollGenerator.BasicSalary | app/payroll/PayrollGenerator.tsx:181 | the employee's basic salary when it is known and non-zero, the record's gross salary otherwise |
| PayrollGenerator.Enrich | app/payroll/PayrollGenerator.tsx:176-196 | every amount is copied, and the name, position ("unknown" fallback), branch and basic salary are filled in from the lookups |
| PayrollGenerator.EnrichAll | app/payroll/PayrollGenerator.tsx:176-196 | each record is enriched in place |
| PayrollGenerator.FetchPayrollRecords | app/payroll/PayrollGenerator.tsx:153-202 | nothing is set when the query returns no rows; otherwise the result rows are a permutation of the enriched records, sorted by branch then employee name |
| PayrollGenerator.FetchedRecordsComplete | app/payroll/PayrollGenerator.tsx:176-199 | every fetched record appears enriched in the results, and nothing else does |
| PayrollGenerator.SumResults | app/payroll/PayrollGenerator.tsx:239-245 | the result totals count the rows and sum net, gross, shortages, advances and fines |
| PayrollGenerator.EnrichAllSums | app/payroll/PayrollGenerator.tsx:176-196 | enrichment leaves every money column's sum unchanged |
| PayrollGenerator.ResultTotalsOfRecords | app/payroll/PayrollGenerator.tsx:239-245 | the result totals equal the count and column sums of the stored records |
| PayrollGenerator.FindPeriod | app/payroll/PayrollGenerator.tsx:75 | the first period with the id, or none when no period has it |
| PayrollGenerator.MonthStart | app/payroll/PayrollGenerator.tsx:76 | the selected period's start date, or "" when no period is selected |
| PayrollGenerator.ChangePeriod | app/payroll/PayrollGenerator.tsx:258 | choosing a period returns to the select step and clears records and summaries |
| PayrollGenerator.PressBack | app/payroll/PayrollGenerator.tsx:424 | the back button returns to the select step and clears records and summaries |
| PayrollGenerator.LoadPreview | app/payroll/PayrollGenerator.tsx:78-137 | no period or no start date changes nothing. A failed query sets the error and stops loading. Otherwise the preview step shows the sorted summaries and the "no logs" figure |
| PayrollGenerator.StartGenerate | app/payroll/PayrollGenerator.tsx:140-141 | generation enters the generating step and clears the error |
| PayrollGenerator.FinishGenerate | app/payroll/PayrollGenerator.tsx:143-150 | an RPC error returns to the preview with its message. Success shows the results: the freshly fetched records, or the previous ones when the fetch returned nothing |
| PayrollGenerator.TransitionsKeepConsistent | app/payroll/PayrollGenerator.tsx:78-151 | every transition keeps "records only in the results step, summaries only after select" |
| PayrollGenerator.GenerateFromPreview | app/payroll/PayrollGenerator.tsx:139-151 | from a consistent preview, a failure leaves no records and success shows exactly the fetched rows |
| PayrollGenerator.PayslipOf | app/payroll/PayrollGenerator.tsx:204-212 | a payslip carries the record's fields with the selected period's name and dates, or empty strings when none is selected |
| PayrollGenerator.BatchPayslips | app/payroll/PayrollGenerator.tsx:216-226 | the batch holds one payslip per result row, in table order |
| PayrollGenerator.BatchNamedAfterPeriod | app/payroll/PayrollGenerator.tsx:216-226 | the batch file is named after the selected period, or after "Payroll" when there are no rows or no period name |
| DailyLogForm.Set | app/daily/DailyLogForm.tsx:128 | setting a field gives it the new value and leaves every other field as it was |
| DailyLogForm.FindEntry | app/daily/DailyLogForm.tsx:128 | the lookup finds the entry with that employee id, or reports that none has it |
| DailyLogForm.Put | app/daily/DailyLogForm.tsx:102 | storing an entry keeps ids distinct, replaces the entry with its id or appends, and loses no other id |
| DailyLogForm.LastLog | app/daily/DailyLogForm.tsx:97 | the last log of an employee, or none |
| DailyLogForm.LogMap | app/daily/DailyLogForm.tsx:96-97 | the log map holds exactly the logged ids, each mapped to that employee's last log |
| DailyLogForm.FromLog | app/daily/DailyLogForm.tsx:101-113 | without a log the entry has the defaults (present, zeros, empty comment, unsaved). With one, it takes the log's values, with null for an empty arrival time or leave type and "" for a missing comment, and is saved |
| DailyLogForm.Prefill | app/daily/DailyLogForm.tsx:99-114 | every employee gets exactly one entry, pre-filled from their last log. With distinct employees the entries follow the employee order |
| DailyLogForm.PrefillEntries | app/daily/DailyLogForm.tsx:101-113 | an entry without a log is the default unsaved entry; one with a log copies it and is saved |
| DailyLogForm.UpdateEntry | app/daily/DailyLogForm.tsx:125-132 | editing a field changes only that employee's entry: the field takes the value, the entry becomes unsaved, and the other fields and entries stay as they were |
| DailyLogForm.UpdateEntryLastWins | app/daily/DailyLogForm.tsx:125-132 | editing the same field twice is the same as editing it once with the second value |
| DailyLogForm.MarkAllPresent | app/daily/DailyLogForm.tsx:135-144 | every entry becomes present and unsaved, with no other field changed |
| DailyLogForm.MarkAllPresentIdempotent | app/daily/DailyLogForm.tsx:135-144 | marking all present twice is the same as once |
| DailyLogForm.ToRow | app/daily/DailyLogForm.tsx:151-163 | a saved row keeps the entry's id and status and takes the branch and date. An empty or missing arrival time becomes null and any other is kept. A leave type is kept only for leave. An extra shift with zero shifts saves one. An empty comment becomes null |
| DailyLogForm.SaveRows | app/daily/DailyLogForm.tsx:151-163 | one row per entry, in entry order |
| DailyLogForm.AfterSave | app/daily/DailyLogForm.tsx:169-179 | applied to the entries as they are when the upsert resolves: an error leaves them as they were; success marks every entry saved and changes nothing else |
| DailyLogForm.EntryRoundTrip | app/daily/DailyLogForm.tsx:101-113 | pre-filling from the row saved for a normalised entry gives back that entry, marked saved |
| DailyLogForm.SaveReloadRoundTrip | app/daily/DailyLogForm.tsx:99-179 | when no entry is edited while the save is pending, saving normalised entries and reloading the form gives exactly the entries as a successful save leaves them |
| DailyLogForm.EditDuringSaveMarkedSaved | app/daily/DailyLogForm.tsx:169-178 | an entry edited while the upsert is pending ends up marked saved on success, although the value it now holds differs from the one that was written |
| DailyLogForm.Counts | app/daily/DailyLogForm.tsx:186-192 | each status maps to the number of entries with that status, and only statuses that occur are keys |
| DailyLogForm.CountsAddUp | app/daily/DailyLogForm.tsx:186-192 | the six status counts add up to the number of entries |
| Payslip.Earnings | lib/payslip.ts:139-145 | basic salary first and gross salary last, with their amounts. The extra-shifts line (with the shift count and the extra-shift pay) comes second exactly when that pay is positive. The bonus line (with the bonus) comes just before the gross exactly when the bonus is positive, and there are no other lines |
| Payslip.EarningsItemsSum | lib/payslip.ts:139-145 | the lines above the gross add up to basic plus the positive extra-shift pay and bonus |
| Payslip.Statutory | lib/payslip.ts:164-169 | NAPSA and NHIMA first, with their amounts. The PAYE line with the PAYE amount is third exactly when PAYE is positive, and then comes a total of napsa + nhima + paye. That is four lines with PAYE and three without |
| Payslip.StatutoryTotalMatchesLines | lib/payslip.ts:164-169 | with no negative PAYE the statutory total is the sum of the lines above it |
| Payslip.OtherDeductions | lib/payslip.ts:182-199 | the table appears exactly when shortage, advances, fines or absence deduction is positive. Its lines above the total are exactly `OtherItems`, whose order and amounts `OtherItemsOwedInOrder` states, and its total adds `other_deductions` |
| Payslip.HasOther | lib/payslip.ts:182 | the condition for printing the other-deductions table: a positive shortage, advance, fine or absence deduction; `OtherDeductions` states that the table appears exactly then |
| Payslip.OtherItems | lib/payslip.ts:190-194 | absence, shortage, advance and fines lines, each present exactly when positive, none a total line, every amount positive |
| Payslip.OtherItemsOwedInOrder | lib/payslip.ts:190-194 | every line prints its own field's amount (the absence line also the days absent), and the lines come in absence, shortage, advance, fines order |
| Payslip.AppendShownLine | lib/payslip.ts:190-194 | one `if (amount > 0) push`: appending the line for a deduction after lines ranked below it keeps every line owed and the order strict |
| Payslip.ShownLinesInOrder | lib/payslip.ts:190-194 | the four conditional pushes, in source order, give lines that are owed and strictly ordered |
| Payslip.SumShownLine | lib/payslip.ts:190-194 | a pushed-when-positive line sums to its field when that field is not negative |
| Payslip.ShownLinesSum | lib/payslip.ts:190-195 | with no negative field, the four pushed lines sum to absence + shortage + advances + fines |
| Payslip.OtherTotalIncludesUnlisted | lib/payslip.ts:190-195 | the other-deductions total exceeds the sum of its lines by exactly `other_deductions`, which no line shows |
| Payslip.OtherDeductionsAloneHidden | lib/payslip.ts:182-183 | a payslip whose only other deduction is `other_deductions` shows no other-deductions table |
| Payslip.ShownComment | lib/payslip.ts:275 | the comment is printed exactly when it is non-empty and neither "Generated from daily logs" nor "No daily logs recorded" |
| Payslip.LeaveLines | lib/payslip.ts:232-244 | the leave table appears exactly when balances are present: annual, sick and compassionate lines, each with its entitlement (accrued for annual leave), days used and balance |
| Payslip.FormatPosition | lib/payslip.ts:298-305 | the eight known codes map to their names and any other code is returned as it is |
| Payslip.FormatPositionKeepsOnlyUnknown | lib/payslip.ts:298-305 | a position prints unchanged exactly when it is not a known code |
| Payslip.ShortId | lib/payslip.ts:128 | the id's first eight characters (fewer for a shorter id), upper-cased |
| Payslip.BuildPage | lib/payslip.ts:68-282 | the header holds the period name and dates, employee and branch names, formatted position and short id; then the three tables, the net pay, the leave table and the comment |
| Payslip.FileName | lib/payslip.ts:52-55 | the single-payslip file name is "Payslip_", the name with its whitespace runs replaced, "_", the period name replaced likewise, and ".pdf"; so it has no whitespace and starts and ends as stated |
| Payslip.FileNameKeepsPlainNames | lib/payslip.ts:54 | names without whitespace appear in the file name unchanged |
| Payslip.FileNameReplacesRun | lib/payslip.ts:54 | a name whose two parts are separated by a whitespace run appears in the file name with that run replaced by a single "_" |
| Payslip.BatchPeriod | lib/payslip.ts:65 | the batch is named after the first payslip's period, or "Payroll" when there is none or it is empty |
| Payslip.BatchFileName | lib/payslip.ts:65 | the batch file name is "All_Payslips_", the batch period with its whitespace runs replaced, and ".pdf"; it has no whitespace and holds a whitespace-free period name unchanged |
| Payslip.BatchFileNameFallback | lib/payslip.ts:65 | an empty batch or an empty period name gives "All_Payslips_Payroll.pdf" |
| Payslip.Paginate | lib/payslip.ts:59-64 | one drawn page per payslip, in order, with a new page added before every payslip but the first |
| Payslip.DownloadAll | lib/payslip.ts:57-66 | exactly one page per payslip, in order, each but the first preceded by a new page, saved under the batch name |
| Text.ReplaceSpaceRuns | lib/payslip.ts:54 | `replace(/\s+/g, "_")` leaves no whitespace, never lengthens, empties only the empty string, and changes nothing without whitespace; the lemmas below state what happens to each run |
| Text.ReplaceSpaceRunsKeepsPlain | lib/payslip.ts:54 | text without whitespace passes through unchanged, whatever follows it |
| Text.ReplaceSpaceRunsRun | lib/payslip.ts:54 | a maximal whitespace run at the front becomes exactly one "_" |
| Text.ReplaceSpaceRunsSplit | lib/payslip.ts:54 | a word, a maximal whitespace run and the rest become the word, one "_" and the rest replaced in turn; with the case above this fixes the result on every string |
| Text.RemoveFirst | lib/helpers.ts:18-19 | `replace` with a string pattern: a string without the pattern is returned unchanged, and removing an occurrence shortens it; `RemoveFirstAt` states which occurrence goes |
| Text.RemoveFirstAt | lib/helpers.ts:18-19 | when the pattern first occurs at position i, exactly that occurrence is cut out and everything around it is kept |
| Text.LowerStr | app/employees/EmployeeTable.tsx:53 | `toLowerCase` keeps the length and lower-cases each ASCII letter in place |
| Text.ReplaceSpaceRunsIdempotent | lib/payslip.ts:54 | replacing whitespace runs twice is the same as once |
| EmployeeTable.HandleSort | app/employees/EmployeeTable.tsx:46-49 | the clicked column becomes the sort column. Clicking the current column reverses the direction; another column starts ascending |
| EmployeeTable.HandleSortTwiceRestores | app/employees/EmployeeTable.tsx:46-49 | two clicks on the current column restore the sort state |
| EmployeeTable.HandleSortNewColumnTwice | app/employees/EmployeeTable.tsx:46-49 | two clicks on a column that was not the sort column leave it sorted descending |
| EmployeeTable.ColumnOrder | app/employees/EmployeeTable.tsx:55-56 | the ascending comparator: the collator on text columns, numeric order on the others; `ColumnOrderTotal` states it is a total preorder |
| EmployeeTable.RowOrder | app/employees/EmployeeTable.tsx:57 | the column comparator, reversed when descending; `RowOrderTotal` states it is a total preorder |
| EmployeeTable.InBranch | app/employees/EmployeeTable.tsx:52 | the branch filter; `FilteredMembership` states which rows it keeps |
| EmployeeTable.MatchesSearch | app/employees/EmployeeTable.tsx:53 | the search filter; `SearchIff` states which rows it keeps |
| EmployeeTable.ColumnOrderTotal | app/employees/EmployeeTable.tsx:54-57 | every column's comparator is a total preorder |
| EmployeeTable.RowOrderTotal | app/employees/EmployeeTable.tsx:54-58 | the comparator stays a total preorder when negated for descending order |
| EmployeeTable.Filtered | app/employees/EmployeeTable.tsx:51-58 | the rows are a permutation of the records passing the branch and search filters, sorted by the sort state, all in the selected branch when one is set |
| EmployeeTable.FilteredMembership | app/employees/EmployeeTable.tsx:51-53 | a row is shown exactly when it is a record in the selected branch (if any) matching the search |
| EmployeeTable.SearchIff | app/employees/EmployeeTable.tsx:53 | a non-empty query keeps a row exactly when its lower-cased form occurs in the lower-cased name or position |
| EmployeeTable.NoFiltersShowAll | app/employees/EmployeeTable.tsx:51-53 | no branch and an empty query show every record |
| EmployeeTable.FilteredCount | app/employees/EmployeeTable.tsx:65 | the heading's count is the number of records passing both filters |
| StaffDirectory.InfoRow | app/directory/StaffDirectory.tsx:11-12 | a detail line is drawn exactly when its value is neither null nor empty |
| StaffDirectory.BankValue | app/directory/StaffDirectory.tsx:109 | the bank line is "name — account" when both are set, the name alone without an account, and the account alone without a name |
| StaffDirectory.BankRowShown | app/directory/StaffDirectory.tsx:109 | the bank line is drawn exactly when a bank name or an account number is set |
| StaffDirectory.FilledCountsDetails | app/directory/StaffDirectory.tsx:38-39 | the filled count is the number of the five scored details that are set |
| StaffDirectory.Filled | app/directory/StaffDirectory.tsx:38-39 | the filled count is at most five; `FilledCountsDetails` states it detail by detail |
| StaffDirectory.Completeness | app/directory/StaffDirectory.tsx:38-40 | the rounded percentage is 20 times the filled count, so one of 0, 20, 40, 60, 80, 100 |
| StaffDirectory.BandOf | app/directory/StaffDirectory.tsx:70-73 | green at 80 or above, yellow from 40 below 80, grey below 40 |
| StaffDirectory.BandByFilled | app/directory/StaffDirectory.tsx:38-73 | a card is green with four or five details, yellow with two or three, grey with at most one |
| StaffDirectory.CompleteIffAllSet | app/directory/StaffDirectory.tsx:38-40 | a card scores 100 exactly when all five details are set |
| StaffDirectory.Filtered | app/directory/StaffDirectory.tsx:159-173 | the cards are a permutation of the contacts passing the branch and search filters, sorted by name, all in the selected branch when one is set |
| StaffDirectory.FilteredMembership | app/directory/StaffDirectory.tsx:159-172 | a card is shown exactly when its contact is in the selected branch (if any) and matches the search |
| StaffDirectory.PhoneSearchCaseSensitive | app/directory/StaffDirectory.tsx:162-171 | when no name, email, address or emergency-contact name matches, a card matches exactly when its phone or mobile-money number holds the lower-cased query as written |
| StaffDirectory.UpperCasePhoneMisses | app/directory/StaffDirectory.tsx:163-169 | the query "A" misses a card whose phone is "A" and whose other searched fields are empty, because only the query is lower-cased |
| StaffDirectory.InBranch | app/directory/StaffDirectory.tsx:160 | the branch filter; `FilteredMembership` states which contacts it keeps |
| StaffDirectory.MatchesSearch | app/directory/StaffDirectory.tsx:161-172 | the search filter; `PhoneSearchCaseSensitive` and `FilteredMembership` state which contacts it keeps |
| StaffDirectory.StatsOf | app/directory/StaffDirectory.tsx:176-181 | the total is the number of cards and each counter counts the cards with that detail, never more than the total |
| StaffDirectory.StatsOfFiltered | app/directory/StaffDirectory.tsx:159-181 | the counters equal the counts over the matching contacts, whatever the order |
| StaffDirectory.ChipCount | app/directory/StaffDirectory.tsx:253 | a chip counts the contacts with that branch name, over all contacts |
| StaffDirectory.ChipCountMatchesSelection | app/directory/StaffDirectory.tsx:159-173 | a chip's count equals the number of cards shown when its branch is selected with an empty query |

## Left out

- Database queries, the payroll RPC and React state. Their results are
  parameters: a `Result` for the log query, an `Outcome` for the RPC, an
  `Option` for the record and count queries. The batching of id lookups in
  groups of 40 (app/payroll/PayrollGenerator.tsx:95-99, 165-168) is left out.
  It only concatenates the lookups into the maps the model takes as input.
- The deduction rules themselves: the NAPSA ceiling, PAYE brackets, absence
  rate, and gross and net pay. They live in the server-side RPC, which is not
  part of this model. No relation between gross, deductions and net is
  claimed.
- Numeric coercion (`+x`, `x || 0`, `parseFloat`). `NaN`, `null` and strings
  in numeric columns are not modelled: every amount is a real number.
  `EmployeeTable`'s `(+av || 0)` therefore sorts by the amount itself.
- Floating-point arithmetic. Sums and the completeness percentage use exact
  reals. `Math.round(filled / 5 * 100)` gives the same integers for 0 to 5.
- `localeCompare` is an abstract total preorder. Sorting is proved to be
  sorted and a permutation; stability of `Array.prototype.sort` is not
  claimed.
- `toLowerCase` and `toUpperCase` map ASCII letters only. `\s` is the
  JavaScript whitespace set, without Unicode normalisation.
- The PDF drawing: coordinates, fonts, colours, number formatting (`fmt`),
  the leave-balance colour hook, the footer and the print date. Only the
  content of each table and the page sequence are modelled.
- The text of table labels. The extra-shift count and the absent days in
  two labels are kept as numbers, and their rendering is not modelled.
- Labels and texts shown to the user: the success and error messages of the
  daily log form, button states, `DailyLogForm.tsx`'s own position label
  table, badge classes and chip colours.
- The staff card's section visibility (contact, IDs, bank, emergency, start
  date, empty state) is left out, apart from the bank line and `InfoRow`.
  It is presentation only.
- The dates of the daily log form (`today()`) and the log-date range of the
  preview query are parameters, not computed.
- SaveReloadRoundTrip: stated only for a save during which no entry is
  edited. The fields stay editable while the upsert is pending, and the
  success handler marks every entry saved, so an edit made then is marked
  saved without being written; `EditDuringSaveMarkedSaved` states that case.
- LoadPreview: applied to the state the request started from. The period
  select stays enabled across the awaits of `loadPreview`
  (app/payroll/PayrollGenerator.tsx:83, 95-101), so a late result can land
  after the period has changed; that interleaving is not modelled.
- FinishGenerate: likewise applied to the state generation started from. A
  period change during the RPC or the record fetch
  (app/payroll/PayrollGenerator.tsx:143, 149) is not modelled.
