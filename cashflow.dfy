/**
 * The cashflow report: VAT-inclusive inflows and outflows per period, the net
 * cashflow, and the opening and closing cash balance of each period.
 */
module Cashflow {
  import opened Wrappers
  import opened Calendar
  import opened ReportPeriods
  import opened ReportData
  import opened PeriodSums
  import opened ReportSections
  import opened ReportRequest
  import SectionProperties
  import SectionShape

  // ---- inflows ----

  datatype Inflows = Inflows(salesIncome: PeriodMap, fundings: PeriodMap, otherIncome: PeriodMap, totalInflows: PeriodMap)

  /** Sales income per period from the grand totals; fundings and other income are always zero. */
  function InflowsOf(income: seq<IncomeRecord>, format: Format, periods: seq<Period>): (inflows: Inflows)
    ensures HasPeriods(inflows.salesIncome, periods) && HasPeriods(inflows.totalInflows, periods)
    ensures inflows.fundings == Zeros(periods) && inflows.otherIncome == Zeros(periods)
  {
    var sales := if income == [] then Zeros(periods) else PeriodTotals(PostIncome(income, format, GrandTotal), periods);
    Inflows(sales, Zeros(periods), Zeros(periods), Sum3(sales, Zeros(periods), Zeros(periods), periods))
  }

  /** `build_inflows_section`. */
  method BuildInflowsSection(income: seq<IncomeRecord>, format: Format, periods: seq<Period>) returns (inflows: Inflows)
    ensures inflows == InflowsOf(income, format, periods)
  {
    var sales: PeriodMap;
    if income == [] {
      sales := Zeros(periods);
    } else {
      sales := PeriodTotals(PostIncome(income, format, GrandTotal), periods);
    }
    var fundings := Zeros(periods);
    var otherIncome := Zeros(periods);
    inflows := Inflows(sales, fundings, otherIncome, Sum3(sales, fundings, otherIncome, periods));
  }

  /** Total inflows are the sales income, and the sales income is the revenue total on grand totals. */
  lemma InflowsAreSales(income: seq<IncomeRecord>, format: Format, periods: seq<Period>)
    ensures var inflows := InflowsOf(income, format, periods);
            inflows.totalInflows == inflows.salesIncome
            && inflows.salesIncome == RevenueSectionOf(income, format, periods, GrandTotal).totalNetRevenue
  {
    var inflows := InflowsOf(income, format, periods);
    assert forall p | p in periods :: Get(Zeros(periods), p) == 0.0;
    assert forall p | p in periods :: inflows.totalInflows[p] == inflows.salesIncome[p];
  }

  // ---- balances ----

  datatype Balances = Balances(opening: PeriodMap, closing: PeriodMap)

  /** The yearly balances: one "Total" column opening at the given balance. */
  function YearlyBalances(openingBalance: real, net: PeriodMap): Balances {
    Balances(map[Total := openingBalance], map[Total := openingBalance + Get(net, Total)])
  }

  /** The monthly balances: each column opens at the running balance of the columns before it. */
  function RunningBalances(openingBalance: real, net: PeriodMap, periods: seq<Period>): Balances
  {
    if periods == [] then Balances(map[], map[])
    else
      var before := RunningBalances(openingBalance, net, Front(periods));
      var p := Last(periods);
      var cumulative := openingBalance + ColumnsSum(net, Front(periods));
      Balances(before.opening[p := cumulative], before.closing[p := cumulative + Get(net, p)])
  }

  /** Both balance lines have exactly the report's columns. */
  lemma {:induction false} RunningBalancesKeys(openingBalance: real, net: PeriodMap, periods: seq<Period>)
    ensures var b := RunningBalances(openingBalance, net, periods);
            HasPeriods(b.opening, periods) && HasPeriods(b.closing, periods)
  {
    if periods != [] {
      RunningBalancesKeys(openingBalance, net, Front(periods));
      assert periods == Front(periods) + [Last(periods)];
    }
  }

  lemma RunningBalancesStep(openingBalance: real, net: PeriodMap, periods: seq<Period>, i: nat)
    requires i < |periods|
    ensures var before := RunningBalances(openingBalance, net, periods[..i]);
            var cumulative := openingBalance + ColumnsSum(net, periods[..i]);
            var after := RunningBalances(openingBalance, net, periods[..i + 1]);
            after.opening == before.opening[periods[i] := cumulative]
            && after.closing == before.closing[periods[i] := cumulative + Get(net, periods[i])]
            && ColumnsSum(net, periods[..i + 1]) == ColumnsSum(net, periods[..i]) + Get(net, periods[i])
  {
    var prefix := periods[..i + 1];
    assert Front(prefix) == periods[..i];
    assert Last(prefix) == periods[i];
  }

  /** The loop over the monthly columns, carrying the cumulative balance. */
  method MonthlyBalances(openingBalance: real, net: PeriodMap, periods: seq<Period>) returns (b: Balances)
    ensures b == RunningBalances(openingBalance, net, periods)
  {
    var opening: PeriodMap := map[];
    var closing: PeriodMap := map[];
    var cumulative := openingBalance;
    for i := 0 to |periods|
      invariant opening == RunningBalances(openingBalance, net, periods[..i]).opening
      invariant closing == RunningBalances(openingBalance, net, periods[..i]).closing
      invariant cumulative == openingBalance + ColumnsSum(net, periods[..i])
    {
      RunningBalancesStep(openingBalance, net, periods, i);
      var period := periods[i];
      opening := opening[period := cumulative];
      cumulative := cumulative + Get(net, period);
      closing := closing[period := cumulative];
    }
    assert periods[..|periods|] == periods;
    b := Balances(opening, closing);
  }

  /** How the balances chain over distinct columns: each opens where the one before closed. */
  lemma {:induction false} RunningBalancesChain(openingBalance: real, net: PeriodMap, periods: seq<Period>, i: nat)
    requires Distinct(periods)
    requires i < |periods|
    ensures var b := RunningBalances(openingBalance, net, periods);
            Get(b.opening, periods[i]) == openingBalance + ColumnsSum(net, periods[..i])
            && Get(b.closing, periods[i]) == Get(b.opening, periods[i]) + Get(net, periods[i])
  {
    var front := Front(periods);
    assert Distinct(front);
    if i == |periods| - 1 {
      assert front == periods[..i];
    } else {
      RunningBalancesChain(openingBalance, net, front, i);
      assert front[i] == periods[i] && front[..i] == periods[..i];
      assert periods[i] != Last(periods);
    }
  }

  lemma RunningBalancesLink(openingBalance: real, net: PeriodMap, periods: seq<Period>, i: nat)
    requires Distinct(periods)
    requires 0 < i < |periods|
    ensures var b := RunningBalances(openingBalance, net, periods);
            Get(b.opening, periods[i]) == Get(b.closing, periods[i - 1])
  {
    RunningBalancesChain(openingBalance, net, periods, i);
    RunningBalancesChain(openingBalance, net, periods, i - 1);
    assert Front(periods[..i]) == periods[..i - 1] && Last(periods[..i]) == periods[i - 1];
  }

  /**
   * The first column opens at the opening balance, each later one opens at the
   * previous one's closing, and the last closes at the opening balance plus all
   * the net cashflow.
   */
  lemma RunningBalancesProperties(openingBalance: real, net: PeriodMap, periods: seq<Period>)
    requires Distinct(periods) && |periods| > 0
    ensures var b := RunningBalances(openingBalance, net, periods);
            HasPeriods(b.opening, periods) && HasPeriods(b.closing, periods)
            && Get(b.opening, periods[0]) == openingBalance
            && (forall i | 0 < i < |periods| :: Get(b.opening, periods[i]) == Get(b.closing, periods[i - 1]))
            && Get(b.closing, periods[|periods| - 1]) == openingBalance + ColumnsSum(net, periods)
  {
    var b := RunningBalances(openingBalance, net, periods);
    RunningBalancesKeys(openingBalance, net, periods);
    RunningBalancesChain(openingBalance, net, periods, 0);
    assert periods[..0] == [];
    forall i | 0 < i < |periods|
      ensures Get(b.opening, periods[i]) == Get(b.closing, periods[i - 1])
    {
      RunningBalancesLink(openingBalance, net, periods, i);
    }
    var last := |periods| - 1;
    RunningBalancesChain(openingBalance, net, periods, last);
    assert Front(periods) == periods[..last];
  }

  /** The yearly branch is the running balance over its single column. */
  lemma YearlyIsRunningOverTotal(openingBalance: real, net: PeriodMap)
    ensures YearlyBalances(openingBalance, net) == RunningBalances(openingBalance, net, [Total])
  {
    assert Front([Total]) == [];
  }

  /** The balances of either format chain from the opening balance to the opening balance plus the net cashflow. */
  lemma BalancesChain(format: Format, openingBalance: real, net: PeriodMap, periods: seq<Period>)
    requires format == Yearly ==> periods == [Total]
    requires Distinct(periods) && |periods| > 0
    ensures var b := BalancesOf(format, openingBalance, net, periods);
            Get(b.opening, periods[0]) == openingBalance
            && (forall i | 0 < i < |periods| :: Get(b.opening, periods[i]) == Get(b.closing, periods[i - 1]))
            && Get(b.closing, periods[|periods| - 1]) == openingBalance + ColumnsSum(net, periods)
  {
    if format == Yearly {
      YearlyIsRunningOverTotal(openingBalance, net);
    }
    RunningBalancesProperties(openingBalance, net, periods);
  }

  // ---- the report ----

  datatype Outflows = Outflows(cogs: ExpenseSection, opex: ExpenseSection, capex: ExpenseSection, totalOutflows: PeriodMap)

  datatype CashflowReport = CashflowReport(
    info: ReportInfo,
    cashInflows: Inflows,
    cashOutflows: Outflows,
    netCashflow: PeriodMap,
    openingBalance: PeriodMap,
    closingBalance: PeriodMap)

  /** The expense rows of one type the cashflow query selects. */
  function Outgoing(store: Store, start: CalendarDate, end: CalendarDate, filter: Option<string>, kind: ExpenseType): seq<ExpenseRow> {
    SelectExpenses(store.expenses, store.categories, start, end, filter, Some([kind]))
  }

  /** The three outflow sections on grand totals and their sum per column. */
  function OutflowsOf(store: Store, start: CalendarDate, end: CalendarDate, filter: Option<string>, format: Format,
                      periods: seq<Period>): (out: Outflows)
    ensures forall e | e in out.cogs.byCategory :: EntryZeroFilled(e.value, periods)
    ensures forall e | e in out.opex.byCategory :: EntryZeroFilled(e.value, periods)
    ensures forall e | e in out.capex.byCategory :: EntryZeroFilled(e.value, periods)
    ensures HasPeriods(out.cogs.total, periods) && HasPeriods(out.opex.total, periods) && HasPeriods(out.capex.total, periods)
    ensures HasPeriods(out.totalOutflows, periods)
  {
    var cogs := ExpenseSectionOf(Outgoing(store, start, end, filter, Cogs), format, periods, GrandTotal);
    var opex := ExpenseSectionOf(Outgoing(store, start, end, filter, Opex), format, periods, GrandTotal);
    var capex := ExpenseSectionOf(Outgoing(store, start, end, filter, Capex), format, periods, GrandTotal);
    Outflows(cogs, opex, capex, Sum3(cogs.total, opex.total, capex.total, periods))
  }

  /** The balances of the format: the single yearly column, or the running balances over the months. */
  function BalancesOf(format: Format, openingBalance: real, net: PeriodMap, periods: seq<Period>): (b: Balances)
    requires format == Yearly ==> periods == [Total]
    ensures HasPeriods(b.opening, periods) && HasPeriods(b.closing, periods)
  {
    if format == Yearly then
      assert (set p | p in [Total]) == {Total};
      YearlyBalances(openingBalance, net)
    else
      RunningBalancesKeys(openingBalance, net, periods);
      RunningBalances(openingBalance, net, periods)
  }

  function CashflowOf(store: Store, start: CalendarDate, end: CalendarDate, format: Format, location: Option<string>,
                      openingBalance: real): CashflowReport
  {
    var filter := LocationFilter(location);
    var periods := PlanPeriods(format, start, end);
    var inflows := InflowsOf(SelectIncome(store.incomes, start, end, filter), format, periods);
    var outflows := OutflowsOf(store, start, end, filter, format, periods);
    var net := Difference(inflows.totalInflows, outflows.totalOutflows, periods);
    var balances := BalancesOf(format, openingBalance, net, periods);
    CashflowReport(ReportInfo(start, end, format, ReportLocation(location), periods),
                   inflows, outflows, net, balances.opening, balances.closing)
  }

  function CashflowReportOf(store: Store, start: CalendarDate, end: CalendarDate, formatName: string, location: Option<string>,
                            openingBalance: real): Result<CashflowReport, ReportError>
  {
    match CheckRequest(start, end, formatName)
    case Err(e) => Err(e)
    case Ok(format) => Ok(CashflowOf(store, start, end, format, location, openingBalance))
  }

  /** `generate_cashflow_report`. */
  method GenerateCashflowReport(store: Store, start: CalendarDate, end: CalendarDate, formatName: string, location: Option<string>,
                                openingBalance: real)
    returns (r: Result<CashflowReport, ReportError>)
    ensures r == CashflowReportOf(store, start, end, formatName, location, openingBalance)
  {
    var check := CheckRequest(start, end, formatName);
    if check.Err? {
      return Err(check.error);
    }
    var format := check.value;
    var filter := LocationFilter(location);
    var periods := PlanReportPeriods(format, start, end);
    var income := SelectIncome(store.incomes, start, end, filter);
    var cogsRows := SelectExpenses(store.expenses, store.categories, start, end, filter, Some([Cogs]));
    var opexRows := SelectExpenses(store.expenses, store.categories, start, end, filter, Some([Opex]));
    var capexRows := SelectExpenses(store.expenses, store.categories, start, end, filter, Some([Capex]));
    var inflows := BuildInflowsSection(income, format, periods);
    var cogs := BuildExpenseSection(cogsRows, format, periods, GrandTotal);
    var opex := BuildExpenseSection(opexRows, format, periods, GrandTotal);
    var capex := BuildExpenseSection(capexRows, format, periods, GrandTotal);
    var totalOutflows := Sum3(cogs.total, opex.total, capex.total, periods);
    var net := Difference(inflows.totalInflows, totalOutflows, periods);
    var balances: Balances;
    if format == Yearly {
      balances := YearlyBalances(openingBalance, net);
    } else {
      balances := MonthlyBalances(openingBalance, net, periods);
    }
    r := Ok(CashflowReport(ReportInfo(start, end, format, ReportLocation(location), periods),
                           inflows, Outflows(cogs, opex, capex, totalOutflows), net, balances.opening, balances.closing));
  }

  // ---- what the report promises ----

  /** A request fails on its date range first, then on its format name; the data and the opening balance play no part. */
  lemma CashflowErrors(store: Store, start: CalendarDate, end: CalendarDate, formatName: string, location: Option<string>,
                       openingBalance: real)
    ensures var r := CashflowReportOf(store, start, end, formatName, location, openingBalance);
            (r.Err? <==> ValidateDateRange(start, end).Fail? || ParseFormat(formatName).None?)
            && (ValidateDateRange(start, end).Fail? ==> r == Err(InvalidRange(ValidateDateRange(start, end).error)))
            && (ValidateDateRange(start, end).Pass? && ParseFormat(formatName).None? ==> r == Err(InvalidFormat(formatName)))
  {
  }

  /**
   * A valid request yields distinct, non-empty columns, and every line of the
   * report, down to each subcategory and both balance lines, has exactly those
   * columns; fundings and other income are zero throughout.
   */
  lemma CashflowLayout(store: Store, start: CalendarDate, end: CalendarDate, formatName: string, location: Option<string>,
                       openingBalance: real)
    requires CashflowReportOf(store, start, end, formatName, location, openingBalance).Ok?
    ensures var r := CashflowReportOf(store, start, end, formatName, location, openingBalance).value;
            var periods := r.info.periods;
            Some(r.info.format) == ParseFormat(formatName)
            && periods == PlanPeriods(r.info.format, start, end) && Distinct(periods) && |periods| > 0
            && r.info.location == ReportLocation(location)
            && HasPeriods(r.cashInflows.salesIncome, periods) && HasPeriods(r.cashInflows.totalInflows, periods)
            && r.cashInflows.fundings == Zeros(periods) && r.cashInflows.otherIncome == Zeros(periods)
            && (forall e | e in r.cashOutflows.cogs.byCategory :: EntryZeroFilled(e.value, periods))
            && (forall e | e in r.cashOutflows.opex.byCategory :: EntryZeroFilled(e.value, periods))
            && (forall e | e in r.cashOutflows.capex.byCategory :: EntryZeroFilled(e.value, periods))
            && HasPeriods(r.cashOutflows.cogs.total, periods) && HasPeriods(r.cashOutflows.opex.total, periods)
            && HasPeriods(r.cashOutflows.capex.total, periods) && HasPeriods(r.cashOutflows.totalOutflows, periods)
            && HasPeriods(r.netCashflow, periods)
            && HasPeriods(r.openingBalance, periods) && HasPeriods(r.closingBalance, periods)
  {
    var r := CashflowReportOf(store, start, end, formatName, location, openingBalance).value;
    var format := r.info.format;
    PlanPeriodsDistinct(format, start, end);
  }

  /**
   * In every column: total outflows are COGS plus OPEX plus CAPEX, total
   * inflows are the sales income, and the net cashflow is inflows less outflows.
   */
  lemma CashflowNet(store: Store, start: CalendarDate, end: CalendarDate, formatName: string, location: Option<string>,
                    openingBalance: real, p: Period)
    requires CashflowReportOf(store, start, end, formatName, location, openingBalance).Ok?
    requires p in CashflowReportOf(store, start, end, formatName, location, openingBalance).value.info.periods
    ensures var r := CashflowReportOf(store, start, end, formatName, location, openingBalance).value;
            var out := r.cashOutflows;
            out.totalOutflows[p] == Get(out.cogs.total, p) + Get(out.opex.total, p) + Get(out.capex.total, p)
            && r.cashInflows.totalInflows == r.cashInflows.salesIncome
            && r.netCashflow[p] == Get(r.cashInflows.salesIncome, p) - out.totalOutflows[p]
  {
    var r := CashflowReportOf(store, start, end, formatName, location, openingBalance).value;
    var filter := LocationFilter(location);
    InflowsAreSales(SelectIncome(store.incomes, start, end, filter), r.info.format, r.info.periods);
  }

  /**
   * Over the whole range, sales income and each outflow section add up to the
   * grand totals of the rows the queries selected, and so the net cashflow adds
   * up to selected income less selected COGS, OPEX and CAPEX.
   */
  lemma CashflowAccountsForEveryRow(store: Store, start: CalendarDate, end: CalendarDate, formatName: string,
                                    location: Option<string>, openingBalance: real)
    requires CashflowReportOf(store, start, end, formatName, location, openingBalance).Ok?
    ensures var r := CashflowReportOf(store, start, end, formatName, location, openingBalance).value;
            var periods := r.info.periods;
            var filter := LocationFilter(location);
            var income := IncomeTotal(SelectIncome(store.incomes, start, end, filter), GrandTotal);
            var cogs := ExpenseTotal(Outgoing(store, start, end, filter, Cogs), GrandTotal);
            var opex := ExpenseTotal(Outgoing(store, start, end, filter, Opex), GrandTotal);
            var capex := ExpenseTotal(Outgoing(store, start, end, filter, Capex), GrandTotal);
            ColumnsSum(r.cashInflows.totalInflows, periods) == income
            && ColumnsSum(r.cashOutflows.cogs.total, periods) == cogs
            && ColumnsSum(r.cashOutflows.opex.total, periods) == opex
            && ColumnsSum(r.cashOutflows.capex.total, periods) == capex
            && ColumnsSum(r.netCashflow, periods) == income - (cogs + opex + capex)
  {
    var r := CashflowReportOf(store, start, end, formatName, location, openingBalance).value;
    var periods := r.info.periods;
    var format := r.info.format;
    var filter := LocationFilter(location);
    var income := SelectIncome(store.incomes, start, end, filter);
    InflowsAreSales(income, format, periods);
    SectionShape.RevenueColumnsAddUp(store.incomes, start, end, filter, format, GrandTotal);
    SectionShape.ExpenseColumnsAddUp(store.expenses, store.categories, start, end, filter, Some([Cogs]), format, GrandTotal);
    SectionShape.ExpenseColumnsAddUp(store.expenses, store.categories, start, end, filter, Some([Opex]), format, GrandTotal);
    SectionShape.ExpenseColumnsAddUp(store.expenses, store.categories, start, end, filter, Some([Capex]), format, GrandTotal);
    var out := r.cashOutflows;
    ColumnsOfSum3(out.cogs.total, out.opex.total, out.capex.total, periods, periods);
    ColumnsOfDifference(r.cashInflows.totalInflows, out.totalOutflows, periods, periods);
  }

  /**
   * In both formats the first column opens at the opening balance, each later
   * column opens at the previous one's closing balance, and the last closes at
   * the opening balance plus the whole range's net cashflow.
   */
  lemma CashflowBalances(store: Store, start: CalendarDate, end: CalendarDate, formatName: string, location: Option<string>,
                         openingBalance: real)
    requires CashflowReportOf(store, start, end, formatName, location, openingBalance).Ok?
    ensures var r := CashflowReportOf(store, start, end, formatName, location, openingBalance).value;
            var periods := r.info.periods;
            |periods| > 0
            && Get(r.openingBalance, periods[0]) == openingBalance
            && (forall i | 0 < i < |periods| :: Get(r.openingBalance, periods[i]) == Get(r.closingBalance, periods[i - 1]))
            && Get(r.closingBalance, periods[|periods| - 1]) == openingBalance + ColumnsSum(r.netCashflow, periods)
  {
    var r := CashflowReportOf(store, start, end, formatName, location, openingBalance).value;
    PlanPeriodsDistinct(r.info.format, start, end);
    BalancesChain(r.info.format, openingBalance, r.netCashflow, r.info.periods);
  }

  /** The closing balance of the last column is the opening balance plus all selected income less all selected expenses. */
  lemma CashflowEndingBalance(store: Store, start: CalendarDate, end: CalendarDate, formatName: string, location: Option<string>,
                              openingBalance: real)
    requires CashflowReportOf(store, start, end, formatName, location, openingBalance).Ok?
    ensures var r := CashflowReportOf(store, start, end, formatName, location, openingBalance).value;
            var periods := r.info.periods;
            var filter := LocationFilter(location);
            |periods| > 0
            && Get(r.closingBalance, periods[|periods| - 1])
               == openingBalance + IncomeTotal(SelectIncome(store.incomes, start, end, filter), GrandTotal)
                  - (ExpenseTotal(Outgoing(store, start, end, filter, Cogs), GrandTotal)
                     + ExpenseTotal(Outgoing(store, start, end, filter, Opex), GrandTotal)
                     + ExpenseTotal(Outgoing(store, start, end, filter, Capex), GrandTotal))
  {
    CashflowBalances(store, start, end, formatName, location, openingBalance);
    CashflowAccountsForEveryRow(store, start, end, formatName, location, openingBalance);
  }

  /**
   * With unique category names and no dangling parent id, the category and
   * subcategory figures of the three outflow sections add up to their totals.
   */
  lemma CashflowHierarchyAddsUp(store: Store, start: CalendarDate, end: CalendarDate, formatName: string, location: Option<string>,
                                openingBalance: real, p: Period)
    requires UniqueNames(store.categories) && ParentsPresent(store.categories)
    requires CashflowReportOf(store, start, end, formatName, location, openingBalance).Ok?
    requires p in CashflowReportOf(store, start, end, formatName, location, openingBalance).value.info.periods
    ensures var out := CashflowReportOf(store, start, end, formatName, location, openingBalance).value.cashOutflows;
            SectionProperties.LeafSum(out.cogs.byCategory, p) == Get(out.cogs.total, p)
            && SectionProperties.LeafSum(out.opex.byCategory, p) == Get(out.opex.total, p)
            && SectionProperties.LeafSum(out.capex.byCategory, p) == Get(out.capex.total, p)
  {
    var r := CashflowReportOf(store, start, end, formatName, location, openingBalance).value;
    var format, periods, filter := r.info.format, r.info.periods, LocationFilter(location);
    SectionProperties.SelectedRowsWellJoined(store.expenses, store.categories, start, end, filter, Some([Cogs]), format, GrandTotal);
    SectionProperties.SelectedRowsWellJoined(store.expenses, store.categories, start, end, filter, Some([Opex]), format, GrandTotal);
    SectionProperties.SelectedRowsWellJoined(store.expenses, store.categories, start, end, filter, Some([Capex]), format, GrandTotal);
    SectionProperties.LeavesSumToTotal(Outgoing(store, start, end, filter, Cogs), format, periods, GrandTotal, p);
    SectionProperties.LeavesSumToTotal(Outgoing(store, start, end, filter, Opex), format, periods, GrandTotal, p);
    SectionProperties.LeavesSumToTotal(Outgoing(store, start, end, filter, Capex), format, periods, GrandTotal, p);
  }

  /** Asking for location "All", or for an empty location, is asking for no location filter. */
  lemma CashflowAllLocations(store: Store, start: CalendarDate, end: CalendarDate, formatName: string, openingBalance: real)
    ensures CashflowReportOf(store, start, end, formatName, Some("All"), openingBalance)
            == CashflowReportOf(store, start, end, formatName, None, openingBalance)
    ensures CashflowReportOf(store, start, end, formatName, Some(""), openingBalance)
            == CashflowReportOf(store, start, end, formatName, None, openingBalance)
  {
    CashflowBlankLocation(store, start, end, formatName, openingBalance);
  }

  lemma CashflowBlankLocation(store: Store, start: CalendarDate, end: CalendarDate, formatName: string, openingBalance: real)
    ensures CashflowReportOf(store, start, end, formatName, Some(""), openingBalance)
            == CashflowReportOf(store, start, end, formatName, None, openingBalance)
  {
    InactiveIncomeFilter(store.incomes, start, end, Some(""));
    InactiveExpenseFilter(store.expenses, store.categories, start, end, Some(""), Some([Cogs]));
    InactiveExpenseFilter(store.expenses, store.categories, start, end, Some(""), Some([Opex]));
    InactiveExpenseFilter(store.expenses, store.categories, start, end, Some(""), Some([Capex]));
  }

  /** A worked monthly example: opening 1000, net +200 then -50, closes at 1200 then 1150. */
  lemma BalancesExample()
    ensures var net := map[Month(1, 24) := 200.0, Month(2, 24) := -50.0];
            var b := RunningBalances(1000.0, net, [Month(1, 24), Month(2, 24)]);
            b.opening == map[Month(1, 24) := 1000.0, Month(2, 24) := 1200.0]
            && b.closing == map[Month(1, 24) := 1200.0, Month(2, 24) := 1150.0]
  {
    var ps := [Month(1, 24), Month(2, 24)];
    assert Front(ps) == [Month(1, 24)];
    assert Front([Month(1, 24)]) == [];
  }
}
