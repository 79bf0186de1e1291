/**
 * The stored documents the reports read and the two fetch queries
 * (`get_income_data`, `get_expense_data`) as selections over them.
 * The database is a value: the income and expense tables as sequences in
 * the order the query returns them, and the category table keyed by id.
 */
module ReportData {
  import opened Wrappers
  import opened Calendar

  datatype ExpenseType = Capex | Opex | Cogs

  datatype IncomeRecord = IncomeRecord(
    customer: string, docDate: CalendarDate, amount: real, grandTotal: real, location: string)

  datatype ExpenseRecord = ExpenseRecord(
    docDate: CalendarDate, amount: real, grandTotal: real, kind: ExpenseType, location: string, categoryId: int)

  datatype Category = Category(name: string, parentId: Option<int>)

  datatype Store = Store(incomes: seq<IncomeRecord>, expenses: seq<ExpenseRecord>, categories: map<int, Category>)

  /** Which amount a report sums: the P&L uses the base amount, the cashflow the VAT-inclusive grand total. */
  datatype Basis = BaseAmount | GrandTotal

  function IncomeValue(r: IncomeRecord, basis: Basis): real {
    match basis
    case BaseAmount => r.amount
    case GrandTotal => r.grandTotal
  }

  function ExpenseValue(r: ExpenseRecord, basis: Basis): real {
    match basis
    case BaseAmount => r.amount
    case GrandTotal => r.grandTotal
  }

  /** `if location:` — a missing or empty location means "no filter". */
  predicate LocationFilterActive(location: Option<string>) {
    location.Some? && location.value != ""
  }

  predicate MatchesLocation(loc: string, location: Option<string>) {
    !LocationFilterActive(location) || loc == location.value
  }

  /** `if expense_types:` — a missing or empty list means "no filter". */
  predicate TypeFilterActive(types: Option<seq<ExpenseType>>) {
    types.Some? && types.value != []
  }

  predicate MatchesType(kind: ExpenseType, types: Option<seq<ExpenseType>>) {
    !TypeFilterActive(types) || kind in types.value
  }

  /** `doc_date >= start_date` and `doc_date <= end_date`. */
  predicate InWindow(d: CalendarDate, start: CalendarDate, end: CalendarDate) {
    Le(start, d) && Le(d, end)
  }

  predicate IncomeSelected(r: IncomeRecord, start: CalendarDate, end: CalendarDate, location: Option<string>) {
    InWindow(r.docDate, start, end) && MatchesLocation(r.location, location)
  }

  /** The income query: inclusive date window and optional exact location, in table order. */
  function SelectIncome(incomes: seq<IncomeRecord>, start: CalendarDate, end: CalendarDate, location: Option<string>): (rs: seq<IncomeRecord>)
    ensures forall r | r in rs :: r in incomes && IncomeSelected(r, start, end, location)
    ensures forall r | r in incomes && IncomeSelected(r, start, end, location) :: r in rs
  {
    if incomes == [] then []
    else
      var r := incomes[|incomes| - 1];
      assert forall x | x in incomes[..|incomes| - 1] :: x in incomes;
      assert incomes == incomes[..|incomes| - 1] + [r];
      SelectIncome(incomes[..|incomes| - 1], start, end, location) + (if IncomeSelected(r, start, end, location) then [r] else [])
  }

  /** An expense joined with its category: `category_name`, `parent_id`, `parent_category`, `is_subcategory`. */
  datatype ExpenseRow = ExpenseRow(
    record: ExpenseRecord, categoryName: string, parentId: Option<int>,
    parentCategory: Option<string>, isSubcategory: bool)

  /** The parent's name through `category_map`; `None` for a root and for a parent id missing from the table. */
  function ParentName(parentId: Option<int>, categories: map<int, Category>): (r: Option<string>)
    ensures r.Some? <==> parentId.Some? && parentId.value in categories
    ensures r.Some? ==> r.value == categories[parentId.value].name
  {
    if parentId.Some? && parentId.value in categories then Some(categories[parentId.value].name) else None
  }

  function Join(r: ExpenseRecord, categories: map<int, Category>): ExpenseRow
    requires r.categoryId in categories
  {
    var c := categories[r.categoryId];
    ExpenseRow(r, c.name, c.parentId, ParentName(c.parentId, categories), c.parentId.Some?)
  }

  predicate ExpenseSelected(r: ExpenseRecord, categories: map<int, Category>, start: CalendarDate, end: CalendarDate,
                            location: Option<string>, types: Option<seq<ExpenseType>>) {
    r.categoryId in categories && InWindow(r.docDate, start, end)
    && MatchesLocation(r.location, location) && MatchesType(r.kind, types)
  }

  /**
   * The expense query: an inner join with the category table, the date window,
   * the optional location and the optional set of types; then each row's
   * parent name resolved through the whole category table.
   */
  function SelectExpenses(expenses: seq<ExpenseRecord>, categories: map<int, Category>, start: CalendarDate, end: CalendarDate,
                          location: Option<string>, types: Option<seq<ExpenseType>>): (rows: seq<ExpenseRow>)
    ensures forall row | row in rows ::
              row.record in expenses && ExpenseSelected(row.record, categories, start, end, location, types)
              && row.categoryName == categories[row.record.categoryId].name
              && row.parentId == categories[row.record.categoryId].parentId
              && (row.isSubcategory <==> row.parentId.Some?)
              && row.parentCategory == ParentName(row.parentId, categories)
    ensures forall r | r in expenses && ExpenseSelected(r, categories, start, end, location, types) :: Join(r, categories) in rows
  {
    if expenses == [] then []
    else
      var r := expenses[|expenses| - 1];
      assert forall x | x in expenses[..|expenses| - 1] :: x in expenses;
      assert expenses == expenses[..|expenses| - 1] + [r];
      SelectExpenses(expenses[..|expenses| - 1], categories, start, end, location, types)
      + (if ExpenseSelected(r, categories, start, end, location, types) then [Join(r, categories)] else [])
  }

  /** The name column is unique across the whole category table. */
  predicate UniqueNames(categories: map<int, Category>) {
    forall i, j | i in categories && j in categories && i != j :: categories[i].name != categories[j].name
  }

  /** Every parent id refers to a category of the table. */
  predicate ParentsPresent(categories: map<int, Category>) {
    forall i | i in categories && categories[i].parentId.Some? :: categories[i].parentId.value in categories
  }

  /** A row with a parent id the table lacks: counted as a subcategory, with no parent name. */
  lemma DanglingParentExample()
    ensures var cats := map[1 := Category("Fuel", Some(7))];
            var e := ExpenseRecord(Date(2024, 3, 1), 10.0, 10.7, Opex, "Bkk", 1);
            SelectExpenses([e], cats, Date(2024, 1, 1), Date(2024, 12, 31), None, None)
              == [ExpenseRow(e, "Fuel", Some(7), None, true)]
  {
    var cats := map[1 := Category("Fuel", Some(7))];
    var e := ExpenseRecord(Date(2024, 3, 1), 10.0, 10.7, Opex, "Bkk", 1);
    assert [e][..0] == [];
  }

  /** The sum of the chosen amount of the income records. */
  function IncomeTotal(incomes: seq<IncomeRecord>, basis: Basis): real {
    if incomes == [] then 0.0 else IncomeTotal(incomes[..|incomes| - 1], basis) + IncomeValue(incomes[|incomes| - 1], basis)
  }

  /** The sum of the chosen amount of the expense rows. */
  function ExpenseTotal(rows: seq<ExpenseRow>, basis: Basis): real {
    if rows == [] then 0.0 else ExpenseTotal(rows[..|rows| - 1], basis) + ExpenseValue(rows[|rows| - 1].record, basis)
  }

  /** A location filter that is not active (missing or empty) selects the same income as no filter. */
  lemma {:induction false} InactiveIncomeFilter(incomes: seq<IncomeRecord>, start: CalendarDate, end: CalendarDate, location: Option<string>)
    requires !LocationFilterActive(location)
    ensures SelectIncome(incomes, start, end, location) == SelectIncome(incomes, start, end, None)
  {
    if incomes != [] {
      InactiveIncomeFilter(incomes[..|incomes| - 1], start, end, location);
    }
  }

  /** A location filter that is not active selects the same expenses as no filter. */
  lemma {:induction false} InactiveExpenseFilter(expenses: seq<ExpenseRecord>, categories: map<int, Category>, start: CalendarDate,
                                                 end: CalendarDate, location: Option<string>, types: Option<seq<ExpenseType>>)
    requires !LocationFilterActive(location)
    ensures SelectExpenses(expenses, categories, start, end, location, types) == SelectExpenses(expenses, categories, start, end, None, types)
  {
    if expenses != [] {
      InactiveExpenseFilter(expenses[..|expenses| - 1], categories, start, end, location, types);
    }
  }
}
