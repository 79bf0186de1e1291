# Finance reports and sheet import, modelled in Dafny

This project models the core of a small finance back end. It has two halves.

**The report engine.** There are two services: the profit-and-loss report (`ProfitAndLossService`)
and the cashflow report (`CashflowService`). A request gives a date range, a format name
(`yearly` or `monthly`) and an optional location. Each service then:

- checks the range: start not after end, and at most 12 calendar months apart;
- plans the report's columns: `Total`, or one `mmm-yy` label per month;
- selects the income and expense records in the window;
- joins each expense with its category and resolves the parent category's name;
- builds the sections.
  - The revenue section (`build_revenue_section`) has one zero-filled map per customer and a total.
  - The expense and outflow sections (`build_expense_section`, `build_outflows_section`) build a two-level category hierarchy: parent entries with `subcategories` and an optional `direct` block, then root categories that are never a parent. A flat `total` sits beside the hierarchy.
- derives the report figures.
  - The P&L has gross profit, EBIT, a 15% tax floored at zero, and net earnings.
  - The cashflow has inflows, outflows, net cashflow, and running opening and closing balances.

The two services repeat the validation, planning, selection and hierarchy code almost line for
line. Here each is modelled once. Where the two differ, a `Basis` parameter says which amount is
summed:
- the P&L sums the base amount;
- the cashflow sums the grand total.

Each README row below cites the P&L lines of this shared logic. The cashflow copies are
`cashflow.py:44-76`, `78-191`, `193-235` and `285-374`.

**The sheet import.** `sync_data` reads the Income and Expenses tabs of a spreadsheet and upserts
each row into the database, keyed by `row_id`. It counts the rows inserted, updated and skipped.
- `get_or_create_category` finds or creates a root category and an optional child. The category table's `name` column is unique.
- `_is_empty` decides which rows have no key.
- `_has_changes` decides between an update and a skip.

The database is a `Database` class. It holds three maps, updated in place:
- categories by id, with the next id the sequence hands out;
- income records by row id;
- expense records by row id.

It also holds what the session has added since its last flush. Three facts of the database
layer shape what a sync does:
- The session does not autoflush (`src/core/db.py:18`). A query by row id does not see a record
  added since the last flush. A row id repeated in one tab is therefore added twice.
- `row_id` has a unique index on both tables (the migration that adds the column). The next
  flush then fails. That is either the flush after a new category or the one in the commit, and
  the whole sync is lost.
- The amounts are `Numeric(12, 2)` columns. After the commit the database hands each one back as
  a `Decimal` rounded to cents, half to even. `_has_changes` compares a `Decimal` with a float
  exactly, not within 0.001. So a later sync skips a row only when its amounts are whole cents.

The model reproduces one surprising behaviour of the source deliberately. An expense whose
category has a parent id that the category table lacks:
- is counted as a subcategory but gets no parent name;
- is therefore counted in the section total but in no hierarchy entry.

`SectionProperties.DanglingParentOutsideHierarchy` shows this on a concrete row. The theorem
that the hierarchy's leaves add up to the total assumes two things:
- category names are unique (the constraint at `src/models/expenses.py:37`);
- every parent id is present in the table.

Modules, one per file:
- `Wrappers` (wrappers.dfy) — `Option`, `Result` and `Outcome`.
- `Calendar` (calendar.dfy) — dates, month indices, period labels and their text.
- `ReportPeriods` (periods.dfy) — the format, the date-range check, the month plan, period assignment.
- `PeriodSums` (sums.dfy) — rows posted to a period, per-period sums, zero-filled maps, masks and grouping.
- `ReportData` (store.dfy) — the stored records and the two selection queries with the category join.
- `ReportSections` (sections.dfy) — the revenue and expense section builders.
- `SectionProperties` (hierarchy.dfy) — the theorem that the leaves of the hierarchy add up to the total, and the dangling-parent case.
- `SectionShape` (shape.dfy) — which entries a section has, what each one holds, and that the columns account for every selected row.
- `ReportRequest` (request.dfy) — the order of the request checks, the `'All'` location, the columns.
- `ProfitAndLoss` (pnl.dfy) and `Cashflow` (cashflow.dfy) — the two reports.
- `SheetText` (text.dfy) — `str.strip()`, the "nan" test, ASCII `str.title()`.
- `SheetValues` (values.dfy) — field values, `_is_empty`, `_has_changes`.
- `CategoryTable` (categories.dfy) — `get_or_create_category` on a table value.
- `SheetRows` (rows.dfy) — sheet rows, the record data built from them, one upsert.
- `Ingestion` (sync.dfy) — the `Database` class and the sync loops.
- `IngestionProperties` (sync_properties.dfy) — counting, settling and idempotence of the sync.

## Model

| member | source | states |
|---|---|---|
| Calendar.LabelText | src/services/reports/pnl.py:212 | The text of a month label is six characters with a dash in the middle (`mmm-yy`); `Total` is five |
| Calendar.LabelTextInjective | src/services/reports/pnl.py:212 | Distinct well-formed labels render to distinct texts, so report keys never collide |
| Calendar.LabelTextExample | src/services/reports/pnl.py:212 | September 2024 renders as "sep-24", and a 3 November 2024 date as "nov-24" |
| Calendar.MonthsDiffIsIndexDistance | src/services/reports/pnl.py:67 | The months difference is the distance between the two dates' month indices |
| Calendar.LeFirstOfMonth | src/services/reports/pnl.py:208-211 | On first-of-month dates, date order is exactly month-index order |
| Calendar.NextLabelOfIndex | src/services/reports/pnl.py:216-219 | The label of the next month index is the calendar successor (December rolls to January of the next year) |
| Calendar.LabelOfIndexInjective | src/services/reports/pnl.py:212 | Month indices less than 1200 months apart have different labels |
| ReportPeriods.ParseFormat | src/services/reports/pnl.py:401-406 | Only "yearly" and "monthly" name a format; every other name is rejected |
| ReportPeriods.ValidateDateRange | src/services/reports/pnl.py:57-78 | The range passes exactly when start is not after end and the months difference is at most 12; a start after end gives that error first; a longer span gives its months difference |
| ReportPeriods.ValidateIgnoresDay | src/services/reports/pnl.py:66-69 | Changing only the day of either date (with start still not after end) does not change the verdict |
| ReportPeriods.ValidateRangeExamples | src/services/reports/pnl.py:57-78 | Exactly 12 months passes, 13 fails, and start after end fails even within one month |
| ReportPeriods.ValidRangeSpan | src/services/reports/pnl.py:66-78 | A valid range spans between 0 and 12 months, so it plans 1 to 13 columns |
| ReportPeriods.GenerateMonthlyPeriods | src/services/reports/pnl.py:207-221 | The stepping loop produces the labels from start's month to end's month, one per calendar month |
| ReportPeriods.PlannedMonthsBounds | src/services/reports/pnl.py:207-221 | A valid range plans monthsDiff + 1 labels; the first is start's month and the last is end's month |
| ReportPeriods.PlannedMonthsConsecutive | src/services/reports/pnl.py:211-219 | Each planned label is the calendar successor of the one before it |
| ReportPeriods.PlannedMonthsDistinct | src/services/reports/pnl.py:207-221 | The planned labels of a valid range are pairwise distinct |
| ReportPeriods.PlannedMonthsExample | src/services/reports/pnl.py:207-221 | A range from September to November 2024 plans sep-24, oct-24, nov-24 |
| ReportPeriods.PlannedMonthsYearEndExample | src/services/reports/pnl.py:216-217 | A range over a year end plans dec-24 then jan-25 |
| ReportPeriods.AssignPeriod | src/services/reports/pnl.py:223-238 | A yearly report assigns `Total`; a monthly one assigns the document's month label, whatever the day |
| ReportPeriods.AssignedPeriodIsPlanned | src/services/reports/pnl.py:223-238 | Over a valid range, every document dated in the range is assigned a column of the plan |
| ReportPeriods.PlanPeriodsDistinct | src/services/reports/pnl.py:411-415 | The columns of a valid range are non-empty, pairwise distinct and well-formed |
| PeriodSums.PeriodTotals | src/services/reports/pnl.py:271-275 | A grouped sum, zero-filled: its keys are exactly the planned periods |
| PeriodSums.PeriodSumOfOtherPeriods | src/services/reports/pnl.py:275 | A period no row falls in sums to zero, as the zero fill of an empty group does |
| PeriodSums.PeriodsSumOfRow | src/services/reports/pnl.py:263-280 | One row spread over distinct columns lands in exactly the column of its period |
| PeriodSums.PeriodsCoverRows | src/services/reports/pnl.py:279-280 | When every row's period is one of the distinct columns, the columns add up to all the rows |
| PeriodSums.ColumnsOfTotals | src/services/reports/pnl.py:279-280 | Adding up the zero-filled columns is adding up the per-period sums |
| PeriodSums.Difference | src/services/reports/pnl.py:437-446 | A line `a - b` has exactly the planned periods as keys, with `a.get(p, 0) - b.get(p, 0)` in each |
| PeriodSums.Sum3 | src/services/reports/cashflow.py:441-448 | A line `a + b + c` has exactly the planned periods as keys, with the three values added in each |
| PeriodSums.ColumnsOfDifference | src/services/reports/pnl.py:437-446 | Over the planned columns, a difference of lines adds up to the difference of their column sums |
| PeriodSums.ColumnsOfSum3 | src/services/reports/cashflow.py:441-448 | Over the planned columns, a sum of three lines adds up to the sum of their column sums |
| PeriodSums.Where | src/services/reports/pnl.py:270 | A mask keeps exactly the rows whose key satisfies it, and no more rows than there were |
| PeriodSums.WhereWhere | src/services/reports/pnl.py:326-338 | Selecting twice is selecting by the conjunction of the two masks |
| PeriodSums.WhereSplit | src/services/reports/pnl.py:322-368 | Two disjoint masks split the sums of a selection between them |
| PeriodSums.Unique | src/services/reports/pnl.py:269 | `unique()` yields every value that occurs, each once, and nothing else, in order of first appearance |
| PeriodSums.FirstIndex | src/services/reports/pnl.py:269 | The index where a value first appears holds it, and no earlier index does |
| PeriodSums.UniqueExample | src/services/reports/pnl.py:269 | The distinct values of a concrete column come in order of first appearance |
| PeriodSums.Partition | src/services/reports/pnl.py:268-280 | Summing distinct groups is summing all the rows of those groups |
| ReportData.SelectIncome | src/services/reports/pnl.py:97-113 | A record is selected exactly when it is dated in the inclusive window and matches the location when a non-empty filter is given |
| ReportData.ParentName | src/services/reports/pnl.py:175-189 | The parent's name is given exactly when the category has a parent id the table holds, and it is that parent's name |
| ReportData.SelectExpenses | src/services/reports/pnl.py:138-192 | A selected row joins an expense of the window, location and types to its category; `is_subcategory` holds exactly when the category has a parent id; the parent name is resolved through the table |
| ReportData.DanglingParentExample | src/services/reports/pnl.py:184-192 | A category whose parent id the table lacks is a subcategory with no parent name |
| ReportData.InactiveIncomeFilter | src/services/reports/pnl.py:107-108 | An empty location filter selects the same income as no filter |
| ReportData.InactiveExpenseFilter | src/services/reports/pnl.py:154-155 | An empty location filter selects the same expenses as no filter |
| ReportSections.Lookup | src/services/reports/pnl.py:340 | `d.get(name)` finds a value exactly when the name is one of the dict's keys |
| ReportSections.CustomerEntries | src/services/reports/pnl.py:268-276 | The per-customer dict has the customers as keys in order, and every map is zero-filled |
| ReportSections.RevenueSectionOf | src/services/reports/pnl.py:257-285 | All revenue maps have exactly the planned periods as keys; no income gives no customers |
| ReportSections.BuildRevenueSection | src/services/reports/pnl.py:257-285 | The customer loop builds the revenue section of the specification function |
| ReportSections.DropNone | src/services/reports/pnl.py:322 | `dropna()` keeps exactly the present names |
| ReportSections.OrphanCategories | src/services/reports/pnl.py:359-362 | An orphan is a root name that is not a parent, and every such name is one; distinct roots give distinct orphans |
| ReportSections.SubcategoryEntries | src/services/reports/pnl.py:334-342 | The subcategory dict has the given names as keys, each with a zero-filled map |
| ReportSections.ParentEntries | src/services/reports/pnl.py:324-356 | The parent entries have the parent names as keys, each zero-filled and holding its parent's entry |
| ReportSections.OrphanEntries | src/services/reports/pnl.py:360-368 | The orphan entries have the orphan names as keys, each with a zero-filled direct block and no subcategories |
| ReportSections.ExpenseSectionOf | src/services/reports/pnl.py:306-377 | Every entry and the total are zero-filled over the planned periods; no rows give no entries |
| ReportSections.BuildSubcategories | src/services/reports/pnl.py:326-342 | The subcategory loop builds the subcategory dict of the specification function |
| ReportSections.BuildParentEntry | src/services/reports/pnl.py:326-356 | One parent's entry: its subcategories, then a direct block exactly when a root row carries its name |
| ReportSections.AppendOrphans | src/services/reports/pnl.py:359-368 | The orphan loop appends one entry per orphan name, in order, after the parent entries |
| ReportSections.BuildExpenseSection | src/services/reports/pnl.py:306-377 | The nested loops build the expense section of the specification function |
| SectionProperties.Somes | src/services/reports/pnl.py:322 | Wrapping names as present values keeps them, their order and their distinctness |
| SectionProperties.ChildrenByParent | src/services/reports/pnl.py:326-329 | Under a consistent join, a parent's children are the rows that name it as parent |
| SectionProperties.SubcategoryRows | src/services/reports/pnl.py:335-338 | The rows of one subcategory are its parent's children that carry its name |
| SectionProperties.ChildrenNamed | src/services/reports/pnl.py:326-342 | Every child of a parent carries one of the subcategory names listed for it |
| SectionProperties.DirectRows | src/services/reports/pnl.py:345-348 | The rows of a direct block are the root rows of that name |
| SectionProperties.OrphanRowsAreRootRows | src/services/reports/pnl.py:363 | When names agree on their kind, the rows carrying an orphan's name are exactly its root rows |
| SectionProperties.RowCoveredOnce | src/services/reports/pnl.py:322-368 | Each row is counted in exactly one place: under its parent if it has one, else under its own name |
| SectionProperties.SubcategoryEntriesSum | src/services/reports/pnl.py:334-342 | The subcategory maps of a parent add up to its children grouped by name |
| SectionProperties.ParentEntrySum | src/services/reports/pnl.py:324-356 | A parent's entry holds exactly its children's rows and the rows posted on it directly |
| SectionProperties.ParentEntriesSum | src/services/reports/pnl.py:324-356 | The parent entries add up to the rows grouped by parent plus the root rows grouped by parent name |
| SectionProperties.OrphanEntriesSum | src/services/reports/pnl.py:359-368 | The orphan entries add up to the root rows grouped by orphan name |
| SectionProperties.RowsSplit | src/services/reports/pnl.py:322-368 | Every row's amount is in the children of some parent or in the root rows of a listed name |
| SectionProperties.HierarchyCoversRows | src/services/reports/pnl.py:322-368 | On well-joined rows, the leaves of the parent and orphan entries add up to all the rows in every period |
| SectionProperties.LeavesSumToTotal | src/services/reports/pnl.py:322-372 | On well-joined rows, the leaf sums of the expense hierarchy equal the section total in every planned period |
| SectionProperties.SelectedRowsWellJoined | src/services/reports/pnl.py:138-192 | With unique category names and every parent id present, the expense query's rows are well joined |
| SectionProperties.DanglingRowNames | src/services/reports/pnl.py:322-362 | The one row of a dangling subcategory names no parent and no root |
| SectionProperties.DanglingParentOutsideHierarchy | src/services/reports/pnl.py:184-192 | A dangling subcategory's amount is in the total but in no entry, so the leaves fall short of the total |
| SectionShape.RevenueTotalIsSumOfCustomers | src/services/reports/pnl.py:268-280 | `total_net_revenue` is the sum of the customers' maps in every planned period |
| SectionShape.RevenueCustomers | src/services/reports/pnl.py:268-276 | There is one entry per customer with income in the window, and no other entry |
| SectionShape.ParentEntryFaithful | src/services/reports/pnl.py:324-356 | A parent's entry holds, for each subcategory seen under it, that subcategory's rows; it has a direct block exactly when the parent has root rows |
| SectionShape.OrphanEntryFaithful | src/services/reports/pnl.py:359-368 | An orphan's entry has no subcategories and a direct block of its rows |
| SectionShape.ExpenseEntriesFaithful | src/services/reports/pnl.py:322-368 | Every entry of the expense section holds what its name calls for |
| SectionShape.ExpenseCategoryNames | src/services/reports/pnl.py:322-368 | Entry names are distinct; every parent name and root name seen has an entry; every entry is one of these |
| SectionShape.RevenueColumnsAddUp | src/services/reports/pnl.py:263-280 | Over a valid range, the revenue total's columns add up to all the selected income |
| SectionShape.ExpenseColumnsAddUp | src/services/reports/pnl.py:313-372 | Over a valid range, an expense section total's columns add up to all the selected rows |
| ReportRequest.CheckRequest | src/services/reports/pnl.py:397-406 | The date range is checked first, then the format name, and the request passes only when both do |
| ReportRequest.LocationFilter | src/services/reports/pnl.py:409 | `'All'` becomes no filter; any other location is passed on as it is |
| ReportRequest.ReportLocation | src/services/reports/pnl.py:465 | The report states "All" exactly for no location, an empty one or "All"; otherwise it states the location asked for |
| ReportRequest.FilterActiveUnlessAll | src/services/reports/pnl.py:407-409 | The queries filter by location exactly when the report states a location other than "All" |
| ReportRequest.PlanReportPeriods | src/services/reports/pnl.py:411-415 | The columns are `['Total']` for the yearly format and the month plan otherwise |
| ProfitAndLoss.IncomeTax | src/services/reports/pnl.py:449-452 | Tax is never negative, is zero when EBIT is not positive, and is 15% of a positive EBIT |
| ProfitAndLoss.NetEarningsOfEbit | src/services/reports/pnl.py:449-458 | Net earnings never exceed EBIT, equal it for a loss, and are 85% of a profit |
| ProfitAndLoss.NetEarningsMonotone | src/services/reports/pnl.py:449-458 | Net earnings grow with EBIT |
| ProfitAndLoss.TaxOf | src/services/reports/pnl.py:449-452 | The tax line has exactly the planned periods as keys |
| ProfitAndLoss.GeneratePnlReport | src/services/reports/pnl.py:379-476 | The report service returns the report of the specification function, or its error |
| ProfitAndLoss.PnlErrors | src/services/reports/pnl.py:397-406 | A request fails exactly on a bad range or format; the range is reported first; the data plays no part |
| ProfitAndLoss.PnlLayout | src/services/reports/pnl.py:409-468 | A valid request has distinct, non-empty columns, states its location, and every line down to each subcategory has exactly those columns |
| ProfitAndLoss.PnlMetrics | src/services/reports/pnl.py:437-458 | In each column, gross profit is revenue less COGS, EBIT subtracts operating expenses, tax is 15% of a positive EBIT, and net earnings are EBIT less tax |
| ProfitAndLoss.PnlAccountsForEveryRow | src/services/reports/pnl.py:418-446 | Over all columns, revenue, COGS and operating expenses add up to the selected income and expenses, and EBIT to their difference |
| ProfitAndLoss.PnlHierarchyAddsUp | src/services/reports/pnl.py:427-429 | With unique category names and no dangling parent id, both expense hierarchies add up to their totals |
| ProfitAndLoss.PnlAllLocations | src/services/reports/pnl.py:407-424 | Asking for "All", or for an empty location, gives the same report as asking for none |
| ProfitAndLoss.PnlYearly | src/services/reports/pnl.py:411-412 | A yearly report has the single column `Total`, which holds all the selected income |
| ProfitAndLoss.MetricsExample | src/services/reports/pnl.py:437-458 | Revenue 150000, COGS 30000 and OPEX 50000 give EBIT 70000, tax 10500 and net earnings 59500 |
| Cashflow.InflowsOf | src/services/reports/cashflow.py:254-276 | Sales and total inflows have exactly the planned columns; fundings and other income are all zero |
| Cashflow.BuildInflowsSection | src/services/reports/cashflow.py:237-283 | The inflows builder returns the inflows of the specification function |
| Cashflow.InflowsAreSales | src/services/reports/cashflow.py:263-276 | Total inflows equal sales income, and sales income is the revenue total summed over grand totals |
| Cashflow.RunningBalancesKeys | src/services/reports/cashflow.py:463-471 | Both balance lines have exactly the report's columns as keys |
| Cashflow.MonthlyBalances | src/services/reports/cashflow.py:463-471 | The loop carrying the cumulative balance builds the running balances of the specification function |
| Cashflow.RunningBalancesChain | src/services/reports/cashflow.py:466-471 | A column opens at the opening balance plus the net of the columns before it, and closes at its opening plus its net |
| Cashflow.RunningBalancesLink | src/services/reports/cashflow.py:469-471 | Each later column opens where the one before it closed |
| Cashflow.RunningBalancesProperties | src/services/reports/cashflow.py:463-471 | The first column opens at the opening balance, each later one at the previous closing, and the last closes at the opening balance plus all the net cashflow |
| Cashflow.YearlyIsRunningOverTotal | src/services/reports/cashflow.py:457-461 | The yearly balances are the running balances over the single `Total` column |
| Cashflow.BalancesChain | src/services/reports/cashflow.py:457-471 | In either format, the balances chain from the opening balance to the opening balance plus the net cashflow |
| Cashflow.OutflowsOf | src/services/reports/cashflow.py:429-448 | The three outflow sections and total outflows are zero-filled over the planned columns |
| Cashflow.BalancesOf | src/services/reports/cashflow.py:457-471 | Both balance lines of either format have exactly the planned columns |
| Cashflow.GenerateCashflowReport | src/services/reports/cashflow.py:376-492 | The report service returns the report of the specification function, or its error |
| Cashflow.CashflowErrors | src/services/reports/cashflow.py:397-405 | A request fails exactly on a bad range or format; the range is reported first; the data and the opening balance play no part |
| Cashflow.CashflowLayout | src/services/reports/cashflow.py:408-492 | A valid request has distinct, non-empty columns, states its location, and every line down to each subcategory and balance has exactly those columns |
| Cashflow.CashflowNet | src/services/reports/cashflow.py:441-454 | In each column, total outflows are COGS + OPEX + CAPEX, inflows are sales, and net cashflow is inflows less outflows |
| Cashflow.CashflowAccountsForEveryRow | src/services/reports/cashflow.py:417-454 | Over all columns, inflows and each outflow section add up to the selected grand totals, and net cashflow to their difference |
| Cashflow.CashflowBalances | src/services/reports/cashflow.py:457-471 | The report's balances open at the opening balance, chain column to column, and close at the opening balance plus the net cashflow |
| Cashflow.CashflowEndingBalance | src/services/reports/cashflow.py:417-471 | The final closing balance is the opening balance plus all selected income less all selected expenses |
| Cashflow.CashflowHierarchyAddsUp | src/services/reports/cashflow.py:429-432 | With unique category names and no dangling parent id, the three outflow hierarchies add up to their totals |
| Cashflow.CashflowAllLocations | src/services/reports/cashflow.py:407-426 | Asking for "All", or for an empty location, gives the same report as asking for none |
| Cashflow.BalancesExample | src/services/reports/cashflow.py:463-471 | Opening 1000 with net +200 then -50 closes at 1200 and then 1150 |
| SheetText.Strip | src/services/google_sheets.py:50-51 | The stripped text is no longer than the input and has whitespace at neither end |
| SheetText.StripSlice | src/services/google_sheets.py:78 | Strip removes only whitespace, and only at the two ends, keeping the text in between |
| SheetText.StripEmpty | src/services/google_sheets.py:78 | A string strips to nothing exactly when it is all whitespace |
| SheetText.StripKeeps | src/services/google_sheets.py:122 | Text with no whitespace at either end is left as it is |
| SheetText.StripIdempotent | src/services/google_sheets.py:50-51 | Stripping twice is stripping once |
| SheetText.StripExample | src/services/google_sheets.py:122 | " Bkk\t" strips to "Bkk" |
| SheetText.NanWordIsLowerNan | src/services/google_sheets.py:61 | The "nan" test is the lowered text being "nan" |
| SheetText.NanWordExamples | src/services/google_sheets.py:61 | "nan", "NaN" and "NAN" are the word; "nana", "na" and "Fuel" are not |
| SheetText.TitleFrom | src/services/google_sheets.py:139 | Title case keeps the length and every non-letter; a letter after a letter is lowered and any other letter raised |
| SheetText.TitleIdempotent | src/services/google_sheets.py:139 | Title-casing twice is title-casing once |
| SheetText.TitleExample | src/services/google_sheets.py:139 | "bKK" becomes "Bkk" |
| SheetValues.IsEmptyCases | src/services/google_sheets.py:72-80 | A value is empty exactly when it is None, NaN, or an all-whitespace string |
| SheetValues.FieldDiffersSelf | src/services/google_sheets.py:91-98 | A value never differs from itself, except an enum member whose value is empty |
| SheetValues.FieldDiffersExamples | src/services/google_sheets.py:91-98 | Numbers differ only by more than 0.001; a bool compares as a number; a member equals its value; NaN never differs from a number but differs from None; text compares exactly |
| SheetValues.HasChanges | src/services/google_sheets.py:83-99 | The scan reports a change exactly when some compared key present in the new data differs |
| SheetValues.ChangedIgnoresMissingKey | src/services/google_sheets.py:86-87 | A compared key the new data lacks never causes a change |
| SheetValues.ChangedOnlyByKeys | src/services/google_sheets.py:85 | Only the compared keys matter: the other fields may hold anything |
| SheetValues.UpdateSettlesChanges | src/services/google_sheets.py:146-147 | After every new field is written, the same data shows no change |
| SheetValues.DecimalDiffersExamples | src/services/google_sheets.py:94-98 | A `Decimal` is no int or float, so it equals a float only exactly: 100.12 equals 100.12 but differs from 100.125 and from 100.1205, which are within 0.001; a `Decimal` 1 equals `True` |
| SheetValues.Cents | src/models/income.py:39-41 | An amount the database hands back holds a whole number of cents |
| SheetValues.CentsNear | src/models/income.py:39-41 | A number within 0.001 of a whole-cent amount is handed back as that amount |
| SheetValues.CentsExamples | src/models/income.py:39-41 | Rounding is half to even on the exact value: 100.125 comes back as 100.12, 100.135 as 100.14, 100.1251 as 100.13, -0.004 as 0 and 7 as 7 |
| SheetValues.StoredKeepsSettled | src/models/income.py:39-41 | A stored value that shows no change against a whole-cent number still shows none once handed back |
| SheetValues.Reloaded | src/models/income.py:39-41 | A record handed back keeps its fields; `amount`, `vat` and `grand_total` come back rounded to cents as `Decimal`s, and every other field is as it was |
| SheetValues.ReloadedIdempotent | src/models/income.py:39-41 | Handing a record back twice is the same as handing it back once |
| SheetValues.ReloadedKeepsSettled | src/models/income.py:39-41 | A record that shows no change against data whose amounts are whole cents still shows none once the database hands it back |
| CategoryTable.FindCategory | src/services/google_sheets.py:54 | The query finds a row with that name and parent exactly when the table holds one |
| CategoryTable.FindUnique | src/services/google_sheets.py:54 | Under unique names, the row the query finds is the only one with that name |
| CategoryTable.FindOrAddStep | src/services/google_sheets.py:54-66 | One find-or-add keeps the table valid, keeps every row, adds at most the row asked for under the next id, and fails exactly on a taken name it must insert |
| CategoryTable.GetOrCreateStep | src/services/google_sheets.py:48-69 | A call keeps the table valid and every row; its id names a root with the stripped category name or a child of that root with the subcategory name; at most one root and one child are added |
| CategoryTable.TableAfterValid | src/services/google_sheets.py:54-67 | Success or failure, the table a call leaves is valid and keeps every row |
| CategoryTable.FindOrAddFound | src/services/google_sheets.py:54-55 | A query that finds its row leaves the table as it is |
| CategoryTable.GetOrCreateIdempotent | src/services/google_sheets.py:54-67 | A second call with the same cells on the table the first left creates nothing and returns the same id |
| CategoryTable.GetOrCreateFoundStays | src/services/google_sheets.py:54-67 | A call that found everything keeps finding it, under the same id, on any valid table that still holds those rows |
| CategoryTable.GetOrCreateConflict | src/services/google_sheets.py:54-66 | A call fails only when a name it must insert is already used in the table |
| CategoryTable.ChildNamedAsParentFails | src/services/google_sheets.py:54-66 | A subcategory named like its own category always fails, because the root already holds the name |
| CategoryTable.FindOrAddNew | src/services/google_sheets.py:56-58 | A name the table does not hold is inserted under the next id |
| CategoryTable.RootOnEmptyTable | src/services/google_sheets.py:50-69 | On an empty table, a row with no usable subcategory creates only its root, with the normalised category name, under the next id |
| CategoryTable.ChildOnEmptyTable | src/services/google_sheets.py:54-67 | On an empty table, a row with a subcategory creates the root and then a child with the root as parent |
| CategoryTable.ChildNameExamples | src/services/google_sheets.py:51-61 | "NaN", an empty cell and a missing cell name no subcategory; "Fuel" names one |
| SheetRows.RowKey | src/services/google_sheets.py:119-122 | A row has no key exactly when its id cell is empty; otherwise the key is the stripped, non-empty id text |
| SheetRows.IncomeDefaults | src/services/google_sheets.py:125-134 | A missing amount or VAT is zero, a missing grand total is amount plus VAT, a given one is kept, and a missing date is None |
| SheetRows.IncomeDocNo | src/services/google_sheets.py:122-131 | The record carries the row key, and an empty document number becomes "AUTO-" and the key |
| SheetRows.ExpenseDefaults | src/services/google_sheets.py:181-188 | A missing amount or VAT is zero, a missing grand total is amount plus VAT, and a missing document date is today |
| SheetRows.ExpenseDocNo | src/services/google_sheets.py:185-198 | The expense record carries the row key and the category id, and an empty document number is generated |
| SheetRows.ExpenseRecurring | src/services/google_sheets.py:175-200 | An expense is recurring exactly when its stripped category is one of the six recurring ones, and its period is then "monthly" |
| SheetRows.IncomeDataFails | src/services/google_sheets.py:139 | An income row's data fails only for a `None` location cell |
| SheetRows.ExpenseDataFails | src/services/google_sheets.py:197 | An expense row's data fails only for a `None` location cell |
| SheetRows.IncomeMembersNonEmpty | src/services/google_sheets.py:138 | An income row with a non-empty status holds no empty enum member |
| SheetRows.ExpenseMembersNonEmpty | src/services/google_sheets.py:195-196 | An expense row with a non-empty status holds no empty enum member |
| SheetRows.UpsertOutcome | src/services/google_sheets.py:143-154 | Exactly one outcome per row: insert only for a new key, update only when a compared field changed, skip otherwise with the table unchanged |
| SheetRows.UpsertAgain | src/services/google_sheets.py:143-154 | Upserting the same data again skips it and leaves the table as it is |
| SheetRows.IncomeDataInCents | src/services/google_sheets.py:125-127 | An income row whose amount, VAT and grand total are whole cents gives data whose `Numeric` fields are whole-cent numbers |
| SheetRows.ExpenseDataInCents | src/services/google_sheets.py:181-183 | An expense row whose amount, VAT and grand total are whole cents gives data whose `Numeric` fields are whole-cent numbers |
| Ingestion.UpsertRecord | src/services/google_sheets.py:143-154 | The method computes the session upsert. A row id added since the last flush is added once more; any other row id is inserted, updated or skipped as the upsert function says |
| Ingestion.Database.constructor | src/services/google_sheets.py:102-108 | A new database is valid and empty, with the category sequence at 1 and nothing pending |
| Ingestion.Database.FindOrAddCategory | src/services/google_sheets.py:54-66 | Finds the category, or inserts it and flushes, as the session find-or-add says. An insert of a taken name fails, and so does a flush that meets a duplicate row id. The table stays valid, and a returned id names a category |
| Ingestion.Database.GetOrCreateCategory | src/services/google_sheets.py:48-69 | Returns the id or the error of resolving the category in the session, and leaves the tables and the session as that leaves them (a flushed root stays when the child fails) |
| Ingestion.Database.SyncIncomeRow | src/services/google_sheets.py:114-154 | One income row changes the income table and the session, and reports its outcome, as the row-step function says |
| Ingestion.Database.SyncIncomeRows | src/services/google_sheets.py:114-154 | The income loop ends as the income run function says: its counts or the first error, with the table and the session it leaves |
| Ingestion.Database.SyncExpenseRow | src/services/google_sheets.py:160-215 | One expense row changes the category table, the expense table and the session as the row-step function says, and keeps the category table valid |
| Ingestion.Database.SyncExpenseRows | src/services/google_sheets.py:160-215 | The expense loop ends as the expense run function says, and keeps the category table valid |
| Ingestion.Database.SyncData | src/services/google_sheets.py:102-217 | Runs in a fresh session, as the sync function says. A success commits both loops' tables as the database hands them back, with both loops' counts. A duplicate row id on record fails the commit. On any error every table is as before the sync |
| IngestionProperties.SessionUpsertOutcome | src/services/google_sheets.py:143-154 | An upsert inserts exactly when no flushed record has the row id or a pending one has it. It touches no other record, and a skip leaves the table as it is |
| IngestionProperties.SessionUpsertLeavesSettled | src/services/google_sheets.py:143-154 | After an upsert, the row id holds a record on which the same data shows no change |
| IngestionProperties.CountTotal | src/services/google_sheets.py:149-154 | Counting a row adds one to the rows counted exactly when it had a key, and one to the inserts exactly when it was inserted |
| IngestionProperties.IncomeRowStepFacts | src/services/google_sheets.py:119-154 | An income row stops the sync exactly when it has a key and a `None` location, with that error. A row without a key changes nothing. Otherwise it is an insert exactly when no flushed record has the key or a pending one has it, and no other record changes |
| IngestionProperties.IncomeRowStepPending | src/core/db.py:18 | An insert makes the row id pending. Adding a pending row id again puts a duplicate on record, and a duplicate on record stays |
| IngestionProperties.IncomeRowStepSettles | src/services/google_sheets.py:143-154 | A synced income row is settled in the table it leaves |
| IngestionProperties.IncomeSettledMoves | src/services/google_sheets.py:143-145 | Whether a row is settled depends only on the record under its key |
| IngestionProperties.RunIncomeCounts | src/services/google_sheets.py:114-154 | A completed income loop counts every row with a key exactly once |
| IngestionProperties.RunIncomeKeys | src/services/google_sheets.py:114-154 | After a completed income loop the table's keys are the old keys and the rows' keys, and records under other keys are unchanged |
| IngestionProperties.RunIncomeKeepsDuplicate | src/services/google_sheets.py:114-154 | A duplicate on record stays on record through the income loop, completed or not |
| IngestionProperties.RunIncomeInserts | src/services/google_sheets.py:152-154 | The inserts a completed income loop counts are the records the table gained, unless the loop added some row id twice |
| IngestionProperties.RunIncomeFailsOnlyAtBlock | src/services/google_sheets.py:139 | An income loop that stops, stops at a row with a key and a `None` location, with a missing-location error |
| IngestionProperties.RunIncomeStopsAtBlock | src/services/google_sheets.py:139 | A row with a key and a `None` location stops the income loop |
| IngestionProperties.RunIncomeFails | src/services/google_sheets.py:114-154 | The income loop stops exactly when some row has a key and a `None` location |
| IngestionProperties.RunIncomeSkipsSettled | src/services/google_sheets.py:144-151 | With no income pending, rows already held unchanged are all skipped, and the table and the session are left as they are |
| IngestionProperties.RunIncomeSettles | src/services/google_sheets.py:114-154 | With distinct keys, a completed income loop leaves every row settled |
| IngestionProperties.RunIncomeNoDuplicate | src/services/google_sheets.py:143-153 | With distinct row ids, none of them pending, the income loop adds no row id twice |
| IngestionProperties.RunIncomeHitsPending | src/services/google_sheets.py:143-153 | A row whose id is pending is added again, so a completed income loop leaves a duplicate on record |
| IngestionProperties.RunIncomeRepeatDuplicates | src/services/google_sheets.py:143-153 | Two rows with one row id that no flushed record has: the second does not find the first, so a completed income loop leaves a duplicate on record |
| IngestionProperties.IncomeSettledReloads | src/models/income.py:39-41 | A row settled in the table stays settled in the table the database hands back, when its amounts are whole cents |
| IngestionProperties.SyncIncomeTwice | src/services/google_sheets.py:114-154 | A second run on the table the database handed back, in a fresh session, skips every keyed row and changes nothing. This needs distinct keys, set statuses and whole-cent amounts |
| IngestionProperties.FlushAddFacts | src/services/google_sheets.py:54-66 | A session find-or-add changes the category table as the find-or-add function does. A taken name fails. An insert flushes and then fails on a duplicate row id on record. The expenses and the duplicate are kept |
| IngestionProperties.FlushAddFound | src/services/google_sheets.py:54-55 | On a valid table, a find-or-add that finds its row does not flush and leaves everything as it is |
| IngestionProperties.ResolveCategoryFacts | src/services/google_sheets.py:48-69 | Resolving in the session agrees with `GetOrCreate` when it succeeds, and always when no duplicate is on record. It fails whenever `GetOrCreate` fails, and its only other error is the duplicate on record. It adds no pending record |
| IngestionProperties.ResolveCategoryValid | src/services/google_sheets.py:48-69 | Resolving keeps the category table valid and every category, and a resolved id names a category of the table |
| IngestionProperties.ResolveFound | src/services/google_sheets.py:54-67 | On a valid table, a category that `GetOrCreate` finds without creating anything is resolved with no flush |
| IngestionProperties.UpsertKeepsRefs | src/services/google_sheets.py:198-215 | An upsert of data naming a category of the table keeps every stored expense naming a category |
| IngestionProperties.ExpenseRowStepValid | src/services/google_sheets.py:160-215 | One expense row keeps the category table valid, every category and every expense's category reference |
| IngestionProperties.RunExpensesValid | src/services/google_sheets.py:160-215 | The expense loop, completed or not, keeps the category table valid and every category and reference |
| IngestionProperties.ExpenseRowStepFacts | src/services/google_sheets.py:165-201 | An expense row without a key does nothing. A row stops the sync whenever its category cannot be created or its location is `None`, and only then when no duplicate is on record. Inserting a row id the table already has leaves a duplicate on record |
| IngestionProperties.ExpenseRowStepPending | src/services/google_sheets.py:171-215 | A duplicate on record stays. A row whose id is not pending notes no duplicate. The only duplicate error an expense row raises is the one on record |
| IngestionProperties.RunExpensesCounts | src/services/google_sheets.py:160-215 | A completed expense loop counts every row with a key exactly once |
| IngestionProperties.RunExpensesKeys | src/services/google_sheets.py:160-215 | After a completed expense loop the expense table's keys are the old keys and the rows' keys |
| IngestionProperties.RunExpensesKeepsOthers | src/services/google_sheets.py:204-215 | A completed expense loop leaves every expense under another key unchanged |
| IngestionProperties.RunExpensesKeepsDuplicate | src/services/google_sheets.py:160-215 | A duplicate on record stays on record through the expense loop, completed or not |
| IngestionProperties.ExpenseRowStepInserts | src/services/google_sheets.py:213-215 | A completed expense row that leaves no duplicate on record gains a record exactly when it is an insert |
| IngestionProperties.RunExpensesInserts | src/services/google_sheets.py:213-215 | The inserts a completed expense loop counts are the expenses the table gained, unless the session added some row id twice |
| IngestionProperties.RunExpensesNoDuplicate | src/services/google_sheets.py:160-215 | With distinct row ids, none of them pending, the expense loop adds no row id twice and fails on no duplicate other than one already on record |
| IngestionProperties.ExpenseSettledSkips | src/services/google_sheets.py:204-212 | On a valid table, a settled expense row whose id is not pending is skipped and changes nothing |
| IngestionProperties.ExpenseRowStepSettles | src/services/google_sheets.py:204-215 | A synced expense row is settled in the tables it leaves |
| IngestionProperties.ExpenseSettledMoves | src/services/google_sheets.py:204-206 | A settled row stays settled in valid tables that keep its categories and its expense |
| IngestionProperties.RunExpensesSkipsSettled | src/services/google_sheets.py:160-215 | On a valid table with no expense pending, settled rows are all skipped, and the tables and the session are left as they are |
| IngestionProperties.RunExpensesSettles | src/services/google_sheets.py:160-215 | With distinct keys, a completed expense loop leaves every row settled |
| IngestionProperties.ExpenseSettledReloads | src/models/expenses.py:64-66 | A settled row stays settled in the expense table the database hands back, when its amounts are whole cents |
| IngestionProperties.SyncExpensesTwice | src/services/google_sheets.py:160-215 | A second run on the tables the first left, with expenses handed back by the database and none pending, creates no category and skips every keyed row. This needs distinct keys, set statuses and whole-cent amounts |
| IngestionProperties.ExpenseRowWithoutKey | src/services/google_sheets.py:165-166 | An expense row without a key touches nothing, not even the category table |
| IngestionProperties.ExpenseRowConflict | src/services/google_sheets.py:172 | A subcategory named like its category stops the expense loop at that row, with the conflicting name when no duplicate is on record |
| IngestionProperties.ReloadTableFacts | src/models/income.py:39-41 | The database hands back a record under every row id it was given and no other. Handing back again changes nothing, and each expense keeps the category it names |
| IngestionProperties.SyncCounts | src/services/google_sheets.py:102-217 | A completed sync counts every row with a key exactly once per tab |
| IngestionProperties.SyncKeys | src/services/google_sheets.py:102-217 | A completed sync commits tables whose keys are the old keys and the rows' keys |
| IngestionProperties.SyncInserts | src/services/google_sheets.py:102-217 | The inserts a completed sync counts are the records each table gained |
| IngestionProperties.SyncKeepsCategories | src/services/google_sheets.py:102-217 | A sync, completed or not, keeps a valid category table valid with every category, and keeps every stored expense naming a category |
| IngestionProperties.RepeatedIncomeKeyFails | alembic/versions/df527f1528f9_add_row_id_column_and_allow_duplicate_.py:35 | Two income rows with one row id that the table does not hold make the sync fail, whatever else the tabs hold, and nothing is kept |
| IngestionProperties.SyncWithDistinctKeys | src/services/google_sheets.py:102-217 | When no tab repeats a row id, no sync fails on a duplicate row id |
| IngestionProperties.SyncTwice | src/services/google_sheets.py:102-217 | A second sync on what the first commit left creates no category and skips every keyed row in both tabs. It commits the same content. This holds for distinct keys, set statuses and whole-cent amounts |
| IngestionProperties.RepeatedRowExample | src/services/google_sheets.py:143-153 | The same row twice on an empty database counts two inserts. The commit then fails on row id "7", and nothing is kept |
| IngestionProperties.FractionOfCentStored | src/models/income.py:39-41 | An amount of 100.125 is handed back as 100.12, so the stored record differs from the sheet row |
| IngestionProperties.FractionOfCentExample | src/services/google_sheets.py:143-148 | A row with amount 100.125 is inserted by the first sync and updated again by the second |

## Left out

- `ReportPeriods.GenerateMonthlyPeriods` and `ReportPeriods.PlannedMonths`: a monthly plan whose end date falls in December 9999 raises `ValueError` in the source. After appending the last label, the loop steps to January of year 10000 (`src/services/reports/pnl.py:216-217`). The model returns the labels instead. Its dates run from year 1 to year 9999.
- SQL mechanics. The sessions, the `ORDER BY`-free result order and `func.sum` are left out. A selection is a filter over the table as a sequence, in table order.
- Float arithmetic. Amounts are exact reals and the tax rate is 15/100, so float rounding and the Decimal-to-float cast are not modelled.
- Parsing sheet numbers. A number cell stands for the exact value of the float that `float(...)` builds, and that parse is not modelled. Most decimal texts are no float's exact value. For example, "100.10" parses to a float that is not a whole number of cents, so the source updates such a row again on every sync. The model accepts any real, including 100.1, which no float equals. The whole-cent condition of `IngestionProperties.SyncTwice` therefore holds in the source only for amounts such as 100.25 that a float holds exactly.
- Locale. `strftime('%b-%y')` is modelled as a fixed table of lower-case English month abbreviations with a two-digit year.
- Timestamps are left out: `generated_at`, `created_at`, `updated_at` and the summary's `timestamp`. The date a missing expense document date defaults to is the parameter `today`.
- `isoformat()` of the dates in `report_info`. The report holds the dates themselves.
- The `period` column. The source writes it into the input DataFrame in place; here it is a new posted copy of the rows.
- Python dict order. Dicts are association lists in insertion order, with distinct names.
- The unused `section_name` argument of `build_expense_section`.
- Enum lookups. `IncomeStatus[...]`, `ExpStatus[...]` and `ExpenseType[...]` are foreign calls that may raise. Rows carry the looked-up member's value or expense type.
- The totals and status of the sync summary. The `func.sum` totals, the net position and `"status": "sync_complete"` come after the commit and are not modelled. The summary is the six counters.
- The Google Sheets API and pandas coercion (`fetch_sheet_range`). Cells arrive already coerced:
  - a text cell is missing, `None` or a string;
  - a number cell is missing/NaN or a number;
  - a date cell is missing/NaT or a date.
- Non-string cells in `row_id`, `doc_no`, `category` and `location`. Numbers in these columns are not modelled.
- `SheetText.Title`: models `str.title()` on ASCII letters only; other letters are kept as they are. `str.strip()` uses Python's whitespace set.
- The category id sequence. It is modelled as `nextCategoryId`, the next id to hand out.
- The transaction. A failure before `db.commit()` discards the session. This is modelled as a restore of the tables saved at the start. Concurrent sessions are not modelled.
- The error a failing flush raises. The source raises an `IntegrityError` in each case. The model names the cause instead: `CategoryConflict` or `DuplicateRowId`. When one flush meets both a taken category name and a duplicate row id, the model reports the category conflict. The order in which the session writes its pending inserts is not modelled.
- `Ingestion.Database.SyncData`: the `NOT NULL` columns are not checked. These are income `doc_date`, `customer` and `currency` (`src/models/income.py:34-36`) and expense `supplier` and `currency` (`src/models/expenses.py:60-63`). A row that leaves one of them `None` makes the source's next flush fail: an income row without a date, or a `None` customer, supplier or currency cell. The model stores the `None` and the sync succeeds.
- The ORM class declarations. `Income` and `Expense` (`src/models/income.py:27-53`, `src/models/expenses.py:49-87`) declare no `row_id`, and they still mark `doc_no` unique. As written, `filter_by(row_id=...)` would fail. The model assumes the schema after the migration `alembic/versions/df527f1528f9_add_row_id_column_and_allow_duplicate_.py`. That migration adds `row_id` with a unique index on both tables (lines 25-35) and drops the unique index on `doc_no`.
- Default arguments. `format_type='yearly'` (`src/services/reports/pnl.py:383`, `src/services/reports/cashflow.py:380`) and `opening_balance=0.0` (`src/services/reports/cashflow.py:382`) are not modelled. Every caller of `ProfitAndLoss.GeneratePnlReport` and `Cashflow.GenerateCashflowReport` passes these arguments.
- `SheetRows.UpsertAgain`: states a second upsert on the table as the session holds it, before the commit. It does not account for what the database hands back after the commit. It also ignores a record still pending in the session. Those cases are covered by `IngestionProperties.SyncIncomeTwice`, `IngestionProperties.SyncExpensesTwice`, `IngestionProperties.SyncTwice` and `IngestionProperties.RepeatedIncomeKeyFails`.
- A repeated expense row id. No lemma states the failing case for the expense tab, as `IngestionProperties.RepeatedIncomeKeyFails` does for income, though the session model covers it. A repeat there does not always fail. A new category may be flushed between the two rows. That flush writes the first record, and the second row then finds it and updates it.
- The dashboard, the HTTP routes and the schemas. They are UI and transport. The unique name of a category is kept as the table invariant `UniqueNames`.
- `SectionProperties.LeavesSumToTotal`: holds only under unique category names and no dangling parent id. With a dangling parent id the source's hierarchy does not add up to the total, as `SectionProperties.DanglingParentOutsideHierarchy` shows.
