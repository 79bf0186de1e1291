/**
 * The profit and loss report: revenue per customer, COGS and operating
 * expenses by category, and the per-period metrics derived from their totals.
 */
module ProfitAndLoss {
  import opened Wrappers
  import opened Calendar
  import opened ReportPeriods
  import opened ReportData
  import opened PeriodSums
  import opened ReportSections
  import opened ReportRequest
  import SectionProperties
  import SectionShape

  /** The income tax rate, 15%. */
  const TaxRate: real := 0.15

  /** `max(0.0, ebit * TAX_RATE)`: tax is charged on a positive EBIT only. */
  function IncomeTax(ebit: real): (tax: real)
    ensures tax >= 0.0
    ensures ebit <= 0.0 ==> tax == 0.0
    ensures ebit > 0.0 ==> tax == TaxRate * ebit
  {
    if ebit * TaxRate > 0.0 then ebit * TaxRate else 0.0
  }

  /** After tax, a loss stays a loss and a profit keeps 85% of itself; earnings never exceed EBIT. */
  lemma NetEarningsOfEbit(ebit: real)
    ensures ebit - IncomeTax(ebit) <= ebit
    ensures ebit <= 0.0 ==> ebit - IncomeTax(ebit) == ebit
    ensures ebit > 0.0 ==> 0.0 < ebit - IncomeTax(ebit) == 0.85 * ebit
  {
  }

  /** Net earnings grow with EBIT. */
  lemma NetEarningsMonotone(a: real, b: real)
    requires a <= b
    ensures a - IncomeTax(a) <= b - IncomeTax(b)
  {
  }

  /** `{period: max(0.0, ebit.get(period, 0.0) * TAX_RATE) for period in periods}`. */
  function TaxOf(ebit: PeriodMap, periods: seq<Period>): (m: PeriodMap)
    ensures HasPeriods(m, periods)
  {
    map p | p in periods :: IncomeTax(Get(ebit, p))
  }

  datatype PnlReport = PnlReport(
    info: ReportInfo,
    revenue: RevenueSection,
    cogs: ExpenseSection,
    grossProfit: PeriodMap,
    operatingExpenses: ExpenseSection,
    ebit: PeriodMap,
    incomeTax: PeriodMap,
    netEarnings: PeriodMap)

  /** The report built from the fetched rows of a valid request. */
  function PnlOf(store: Store, start: CalendarDate, end: CalendarDate, format: Format, location: Option<string>): PnlReport {
    var filter := LocationFilter(location);
    var periods := PlanPeriods(format, start, end);
    var revenue := RevenueSectionOf(SelectIncome(store.incomes, start, end, filter), format, periods, BaseAmount);
    var cogs := ExpenseSectionOf(SelectExpenses(store.expenses, store.categories, start, end, filter, Some([Cogs])), format, periods, BaseAmount);
    var opex := ExpenseSectionOf(SelectExpenses(store.expenses, store.categories, start, end, filter, Some([Opex])), format, periods, BaseAmount);
    var grossProfit := Difference(revenue.totalNetRevenue, cogs.total, periods);
    var ebit := Difference(grossProfit, opex.total, periods);
    var tax := TaxOf(ebit, periods);
    PnlReport(ReportInfo(start, end, format, ReportLocation(location), periods),
              revenue, cogs, grossProfit, opex, ebit, tax, Difference(ebit, tax, periods))
  }

  function PnlReportOf(store: Store, start: CalendarDate, end: CalendarDate, formatName: string, location: Option<string>)
    : Result<PnlReport, ReportError>
  {
    match CheckRequest(start, end, formatName)
    case Err(e) => Err(e)
    case Ok(format) => Ok(PnlOf(store, start, end, format, location))
  }

  /** `generate_pnl_report`. */
  method GeneratePnlReport(store: Store, start: CalendarDate, end: CalendarDate, formatName: string, location: Option<string>)
    returns (r: Result<PnlReport, ReportError>)
    ensures r == PnlReportOf(store, start, end, formatName, location)
  {
    var check := CheckRequest(start, end, formatName);
    if check.Err? {
      return Err(check.error);
    }
    var format := check.value;
    var filter := LocationFilter(location);
    var periods := PlanReportPeriods(format, start, end);
    var income := SelectIncome(store.incomes, start, end, filter);
    var cogsRows := SelectExpenses(store.expenses, store.categories, start, end, filter, Some([Cogs]));
    var opexRows := SelectExpenses(store.expenses, store.categories, start, end, filter, Some([Opex]));
    var revenue := BuildRevenueSection(income, format, periods, BaseAmount);
    var cogs := BuildExpenseSection(cogsRows, format, periods, BaseAmount);
    var opex := BuildExpenseSection(opexRows, format, periods, BaseAmount);
    var grossProfit := Difference(revenue.totalNetRevenue, cogs.total, periods);
    var ebit := Difference(grossProfit, opex.total, periods);
    var tax := TaxOf(ebit, periods);
    r := Ok(PnlReport(ReportInfo(start, end, format, ReportLocation(location), periods),
                      revenue, cogs, grossProfit, opex, ebit, tax, Difference(ebit, tax, periods)));
  }

  // ---- what the report promises ----

  /** A request fails on its date range first, then on its format name; the data plays no part. */
  lemma PnlErrors(store: Store, start: CalendarDate, end: CalendarDate, formatName: string, location: Option<string>)
    ensures var r := PnlReportOf(store, start, end, formatName, location);
            (r.Err? <==> ValidateDateRange(start, end).Fail? || ParseFormat(formatName).None?)
            && (ValidateDateRange(start, end).Fail? ==> r == Err(InvalidRange(ValidateDateRange(start, end).error)))
            && (ValidateDateRange(start, end).Pass? && ParseFormat(formatName).None? ==> r == Err(InvalidFormat(formatName)))
  {
  }

  /**
   * A valid request yields distinct, non-empty columns, and every line of the
   * report, down to each subcategory, has exactly those columns.
   */
  lemma PnlLayout(store: Store, start: CalendarDate, end: CalendarDate, formatName: string, location: Option<string>)
    requires PnlReportOf(store, start, end, formatName, location).Ok?
    ensures var r := PnlReportOf(store, start, end, formatName, location).value;
            var periods := r.info.periods;
            Some(r.info.format) == ParseFormat(formatName)
            && periods == PlanPeriods(r.info.format, start, end) && Distinct(periods) && |periods| > 0
            && r.info.location == ReportLocation(location)
            && ZeroFilled(r.revenue.byCustomer, periods) && HasPeriods(r.revenue.totalNetRevenue, periods)
            && (forall e | e in r.cogs.byCategory :: EntryZeroFilled(e.value, periods)) && HasPeriods(r.cogs.total, periods)
            && (forall e | e in r.operatingExpenses.byCategory :: EntryZeroFilled(e.value, periods))
            && HasPeriods(r.operatingExpenses.total, periods)
            && HasPeriods(r.grossProfit, periods) && HasPeriods(r.ebit, periods)
            && HasPeriods(r.incomeTax, periods) && HasPeriods(r.netEarnings, periods)
  {
    var format := CheckRequest(start, end, formatName).value;
    PlanPeriodsDistinct(format, start, end);
  }

  /**
   * In every column: gross profit is revenue less COGS, EBIT is gross profit
   * less operating expenses, tax is 15% of a positive EBIT and nothing
   * otherwise, and net earnings are EBIT less tax.
   */
  lemma PnlMetrics(store: Store, start: CalendarDate, end: CalendarDate, formatName: string, location: Option<string>, p: Period)
    requires PnlReportOf(store, start, end, formatName, location).Ok?
    requires p in PnlReportOf(store, start, end, formatName, location).value.info.periods
    ensures var r := PnlReportOf(store, start, end, formatName, location).value;
            var ebit := Get(r.revenue.totalNetRevenue, p) - Get(r.cogs.total, p) - Get(r.operatingExpenses.total, p);
            r.grossProfit[p] == Get(r.revenue.totalNetRevenue, p) - Get(r.cogs.total, p)
            && r.ebit[p] == ebit
            && r.incomeTax[p] == (if ebit > 0.0 then TaxRate * ebit else 0.0)
            && r.netEarnings[p] == ebit - r.incomeTax[p]
            && r.netEarnings[p] <= r.ebit[p]
  {
  }

  /**
   * Over the whole range, revenue, COGS and operating expenses add up to the
   * income and expenses the queries selected, and so EBIT adds up to selected
   * income less selected COGS and OPEX.
   */
  lemma PnlAccountsForEveryRow(store: Store, start: CalendarDate, end: CalendarDate, formatName: string, location: Option<string>)
    requires PnlReportOf(store, start, end, formatName, location).Ok?
    ensures var r := PnlReportOf(store, start, end, formatName, location).value;
            var periods := r.info.periods;
            var filter := LocationFilter(location);
            var income := IncomeTotal(SelectIncome(store.incomes, start, end, filter), BaseAmount);
            var cogs := ExpenseTotal(SelectExpenses(store.expenses, store.categories, start, end, filter, Some([Cogs])), BaseAmount);
            var opex := ExpenseTotal(SelectExpenses(store.expenses, store.categories, start, end, filter, Some([Opex])), BaseAmount);
            ColumnsSum(r.revenue.totalNetRevenue, periods) == income
            && ColumnsSum(r.cogs.total, periods) == cogs
            && ColumnsSum(r.operatingExpenses.total, periods) == opex
            && ColumnsSum(r.ebit, periods) == income - cogs - opex
  {
    var r := PnlReportOf(store, start, end, formatName, location).value;
    var periods := r.info.periods;
    var format := r.info.format;
    var filter := LocationFilter(location);
    SectionShape.RevenueColumnsAddUp(store.incomes, start, end, filter, format, BaseAmount);
    SectionShape.ExpenseColumnsAddUp(store.expenses, store.categories, start, end, filter, Some([Cogs]), format, BaseAmount);
    SectionShape.ExpenseColumnsAddUp(store.expenses, store.categories, start, end, filter, Some([Opex]), format, BaseAmount);
    ColumnsOfDifference(r.revenue.totalNetRevenue, r.cogs.total, periods, periods);
    ColumnsOfDifference(r.grossProfit, r.operatingExpenses.total, periods, periods);
  }

  /**
   * With unique category names and no dangling parent id, the category and
   * subcategory figures of both expense sections add up to their totals.
   */
  lemma PnlHierarchyAddsUp(store: Store, start: CalendarDate, end: CalendarDate, formatName: string, location: Option<string>, p: Period)
    requires UniqueNames(store.categories) && ParentsPresent(store.categories)
    requires PnlReportOf(store, start, end, formatName, location).Ok?
    requires p in PnlReportOf(store, start, end, formatName, location).value.info.periods
    ensures var r := PnlReportOf(store, start, end, formatName, location).value;
            SectionProperties.LeafSum(r.cogs.byCategory, p) == Get(r.cogs.total, p)
            && SectionProperties.LeafSum(r.operatingExpenses.byCategory, p) == Get(r.operatingExpenses.total, p)
  {
    var r := PnlReportOf(store, start, end, formatName, location).value;
    var format, periods, filter := r.info.format, r.info.periods, LocationFilter(location);
    var cogsRows := SelectExpenses(store.expenses, store.categories, start, end, filter, Some([Cogs]));
    var opexRows := SelectExpenses(store.expenses, store.categories, start, end, filter, Some([Opex]));
    SectionProperties.SelectedRowsWellJoined(store.expenses, store.categories, start, end, filter, Some([Cogs]), format, BaseAmount);
    SectionProperties.SelectedRowsWellJoined(store.expenses, store.categories, start, end, filter, Some([Opex]), format, BaseAmount);
    SectionProperties.LeavesSumToTotal(cogsRows, format, periods, BaseAmount, p);
    SectionProperties.LeavesSumToTotal(opexRows, format, periods, BaseAmount, p);
  }

  /** Asking for location "All", or for an empty location, is asking for no location filter. */
  lemma PnlAllLocations(store: Store, start: CalendarDate, end: CalendarDate, formatName: string)
    ensures PnlReportOf(store, start, end, formatName, Some("All")) == PnlReportOf(store, start, end, formatName, None)
    ensures PnlReportOf(store, start, end, formatName, Some("")) == PnlReportOf(store, start, end, formatName, None)
  {
    PnlBlankLocation(store, start, end, formatName);
  }

  lemma PnlBlankLocation(store: Store, start: CalendarDate, end: CalendarDate, formatName: string)
    ensures PnlReportOf(store, start, end, formatName, Some("")) == PnlReportOf(store, start, end, formatName, None)
  {
    InactiveIncomeFilter(store.incomes, start, end, Some(""));
    InactiveExpenseFilter(store.expenses, store.categories, start, end, Some(""), Some([Cogs]));
    InactiveExpenseFilter(store.expenses, store.categories, start, end, Some(""), Some([Opex]));
  }

  /** A yearly report has the single column "Total", holding all the selected income. */
  lemma PnlYearly(store: Store, start: CalendarDate, end: CalendarDate, location: Option<string>)
    requires ValidateDateRange(start, end).Pass?
    ensures var r := PnlReportOf(store, start, end, "yearly", location);
            r.Ok? && r.value.info.periods == [Total]
            && r.value.revenue.totalNetRevenue[Total]
               == IncomeTotal(SelectIncome(store.incomes, start, end, LocationFilter(location)), BaseAmount)
  {
    PnlAccountsForEveryRow(store, start, end, "yearly", location);
    var r := PnlReportOf(store, start, end, "yearly", location).value;
    assert Front([Total]) == [];
    assert ColumnsSum(r.revenue.totalNetRevenue, [Total]) == Get(r.revenue.totalNetRevenue, Total);
  }

  /** The worked example: revenue 150000, COGS 30000, OPEX 50000. */
  lemma MetricsExample()
    ensures var ebit := 150000.0 - 30000.0 - 50000.0;
            ebit == 70000.0 && IncomeTax(ebit) == 10500.0 && ebit - IncomeTax(ebit) == 59500.0
  {
  }
}
