/**
 * The shape of the report sections: which names get an entry, what each entry
 * holds, and the revenue total as the sum of the customers.
 */
module SectionShape {
  import opened Wrappers
  import opened Calendar
  import opened ReportPeriods
  import opened ReportData
  import opened PeriodSums
  import opened ReportSections
  import SectionProperties

  lemma NamesAppend<V>(a: seq<Named<V>>, b: seq<Named<V>>)
    ensures Names(a + b) == Names(a) + Names(b)
  {
  }

  // ---- revenue ----

  lemma {:induction false} CustomerEntriesSum(posted: seq<Posted<string>>, cs: seq<string>, periods: seq<Period>, p: Period)
    requires p in periods
    ensures EntriesSum(CustomerEntries(posted, cs, periods), p) == GroupSum(posted, Customer, cs, p)
  {
    if cs != [] {
      CustomerEntriesSum(posted, Front(cs), periods, p);
      SectionProperties.GetPeriodTotals(Where(posted, Is(Customer, Last(cs))), periods, p);
    }
  }

  /** `total_net_revenue` is the sum of the customers' maps in every planned period. */
  lemma RevenueTotalIsSumOfCustomers(income: seq<IncomeRecord>, format: Format, periods: seq<Period>, basis: Basis, p: Period)
    requires p in periods
    ensures var section := RevenueSectionOf(income, format, periods, basis);
            EntriesSum(section.byCustomer, p) == Get(section.totalNetRevenue, p)
  {
    if income != [] {
      var posted := PostIncome(income, format, basis);
      var cs := Customers(posted);
      CustomerEntriesSum(posted, cs, periods, p);
      Partition(posted, Customer, cs, p);
      forall r | r in posted
        ensures In(Customer, cs)(r.key)
      {
        assert Customer(r.key) in Column(posted, Customer);
      }
      WhereAll(posted, In(Customer, cs));
      SectionProperties.GetPeriodTotals(posted, periods, p);
    }
  }

  /** There is one entry per customer that has income in the window, and no other. */
  lemma RevenueCustomers(income: seq<IncomeRecord>, format: Format, periods: seq<Period>, basis: Basis)
    ensures var names := Names(RevenueSectionOf(income, format, periods, basis).byCustomer);
            Distinct(names)
            && (forall r | r in income :: r.customer in names)
            && (forall c | c in names :: exists r | r in income :: r.customer == c)
  {
    if income != [] {
      var posted := PostIncome(income, format, basis);
      forall r | r in income
        ensures r.customer in Customers(posted)
      {
        var i :| 0 <= i < |income| && income[i] == r;
        assert posted[i] in posted;
        assert Customer(posted[i].key) in Column(posted, Customer);
      }
      forall c | c in Customers(posted)
        ensures exists r | r in income :: r.customer == c
      {
        assert c in Column(posted, Customer);
        var x :| x in posted && Customer(x.key) == c;
        var i :| 0 <= i < |posted| && posted[i] == x;
        assert income[i] in income;
      }
    }
  }

  // ---- expenses ----

  lemma PostedRow(rows: seq<ExpenseRow>, format: Format, basis: Basis, x: Posted<CategoryKey>)
    requires x in PostExpenses(rows, format, basis)
    ensures exists row | row in rows :: x.key == KeyOf(row)
  {
    var posted := PostExpenses(rows, format, basis);
    var i :| 0 <= i < |posted| && posted[i] == x;
    assert rows[i] in rows;
  }

  lemma RowPosted(rows: seq<ExpenseRow>, format: Format, basis: Basis, row: ExpenseRow)
    requires row in rows
    ensures exists x | x in PostExpenses(rows, format, basis) :: x.key == KeyOf(row)
  {
    var posted := PostExpenses(rows, format, basis);
    var i :| 0 <= i < |rows| && rows[i] == row;
    assert posted[i] in posted;
  }

  /**
   * What one category entry holds: its subcategory names are exactly the names of
   * the subcategory rows under it, without repeats, and it has a direct block
   * exactly when some root row carries its name.
   */
  predicate EntryFaithful(rows: seq<ExpenseRow>, name: string, entry: CategoryEntry) {
    var subs := Names(entry.subcategories);
    Distinct(subs)
    && (forall s | s in subs :: exists row | row in rows :: row.categoryName == s && row.parentCategory == Some(name) && row.isSubcategory)
    && (forall row | row in rows && row.parentCategory == Some(name) && row.isSubcategory :: row.categoryName in subs)
    && (entry.direct.Some? <==> exists row | row in rows :: row.categoryName == name && !row.isSubcategory)
  }

  lemma ParentEntryFaithful(rows: seq<ExpenseRow>, format: Format, basis: Basis, periods: seq<Period>, parent: string)
    ensures EntryFaithful(rows, parent, ParentEntry(PostExpenses(rows, format, basis), parent, periods))
  {
    var posted := PostExpenses(rows, format, basis);
    var children := Where(posted, ChildOf(parent));
    var entry := ParentEntry(posted, parent, periods);
    var subs := SubcategoryNames(posted, parent);
    assert Names(entry.subcategories) == subs;
    forall s | s in subs
      ensures exists row | row in rows :: row.categoryName == s && row.parentCategory == Some(parent) && row.isSubcategory
    {
      assert s in Column(children, NameKey);
      var x :| x in children && NameKey(x.key) == s;
      assert ChildOf(parent)(x.key) == (x.key.parentCategory == Some(parent) && x.key.isSubcategory);
      PostedRow(rows, format, basis, x);
    }
    forall row | row in rows && row.parentCategory == Some(parent) && row.isSubcategory
      ensures row.categoryName in subs
    {
      RowPosted(rows, format, basis, row);
      var x :| x in posted && x.key == KeyOf(row);
      assert ChildOf(parent)(x.key);
      assert NameKey(x.key) in Column(children, NameKey);
    }
    var direct := Where(posted, DirectOn(parent));
    if direct != [] {
      var x := direct[0];
      assert x in direct;
      assert DirectOn(parent)(x.key) == (x.key.name == parent && !x.key.isSubcategory);
      PostedRow(rows, format, basis, x);
    }
    if exists row | row in rows :: row.categoryName == parent && !row.isSubcategory {
      var row :| row in rows && row.categoryName == parent && !row.isSubcategory;
      RowPosted(rows, format, basis, row);
      var x :| x in posted && x.key == KeyOf(row);
      assert DirectOn(parent)(x.key);
      assert x in direct;
    }
  }

  lemma OrphanEntryFaithful(rows: seq<ExpenseRow>, format: Format, basis: Basis, periods: seq<Period>, name: string)
    requires var posted := PostExpenses(rows, format, basis);
             name in OrphanCategories(RootCategories(posted), ParentCategories(posted))
    ensures EntryFaithful(rows, name, OrphanEntry(PostExpenses(rows, format, basis), name, periods))
  {
    var posted := PostExpenses(rows, format, basis);
    assert name in Column(Where(posted, NotSubcategory), NameKey);
    var x :| x in Where(posted, NotSubcategory) && NameKey(x.key) == name;
    PostedRow(rows, format, basis, x);
    // a subcategory row under an orphan's name would make that name a parent
    forall row | row in rows && row.parentCategory == Some(name) && row.isSubcategory
      ensures false
    {
      RowPosted(rows, format, basis, row);
    }
  }

  /** Every entry of the expense section holds what its name calls for. */
  lemma ExpenseEntriesFaithful(rows: seq<ExpenseRow>, format: Format, periods: seq<Period>, basis: Basis)
    ensures forall e | e in ExpenseSectionOf(rows, format, periods, basis).byCategory :: EntryFaithful(rows, e.name, e.value)
  {
    if rows != [] {
      var posted := PostExpenses(rows, format, basis);
      var parents := ParentCategories(posted);
      var orphans := OrphanCategories(RootCategories(posted), parents);
      var pe, oe := ParentEntries(posted, parents, periods), OrphanEntries(posted, orphans, periods);
      forall e: Named<CategoryEntry> | e in pe + oe
        ensures EntryFaithful(rows, e.name, e.value)
      {
        if e in pe {
          ParentEntryFaithful(rows, format, basis, periods, e.name);
        } else {
          assert e in oe;
          var i :| 0 <= i < |oe| && oe[i] == e;
          assert e.name == Names(oe)[i];
          assert e.name in orphans;
          OrphanEntryFaithful(rows, format, basis, periods, e.name);
        }
      }
    }
  }

  /**
   * The expense section has one entry per name, an entry for every parent
   * name and every root category seen, and no other.
   */
  lemma ExpenseCategoryNames(rows: seq<ExpenseRow>, format: Format, periods: seq<Period>, basis: Basis)
    ensures var names := Names(ExpenseSectionOf(rows, format, periods, basis).byCategory);
            Distinct(names)
            && (forall row | row in rows && row.parentCategory.Some? :: row.parentCategory.value in names)
            && (forall row | row in rows && !row.isSubcategory :: row.categoryName in names)
            && (forall n | n in names :: exists row | row in rows ::
                  row.parentCategory == Some(n) || (!row.isSubcategory && row.categoryName == n))
  {
    if rows != [] {
      var posted := PostExpenses(rows, format, basis);
      var parents := ParentCategories(posted);
      var roots := RootCategories(posted);
      var orphans := OrphanCategories(roots, parents);
      var names := Names(ExpenseSectionOf(rows, format, periods, basis).byCategory);
      NamesAppend(ParentEntries(posted, parents, periods), OrphanEntries(posted, orphans, periods));
      assert names == parents + orphans;
      SectionProperties.DistinctAppend(parents, orphans);
      forall row | row in rows && row.parentCategory.Some?
        ensures row.parentCategory.value in names
      {
        RowPosted(rows, format, basis, row);
        var x :| x in posted && x.key == KeyOf(row);
        assert ParentKey(x.key) in Column(posted, ParentKey);
        assert row.parentCategory.value in parents;
      }
      forall row | row in rows && !row.isSubcategory
        ensures row.categoryName in names
      {
        RowPosted(rows, format, basis, row);
        var x :| x in posted && x.key == KeyOf(row);
        assert x in Where(posted, NotSubcategory);
        assert NameKey(x.key) in Column(Where(posted, NotSubcategory), NameKey);
        assert row.categoryName in roots;
      }
      forall n | n in names
        ensures exists row | row in rows :: row.parentCategory == Some(n) || (!row.isSubcategory && row.categoryName == n)
      {
        if n in parents {
          assert Some(n) in Column(posted, ParentKey);
          var x :| x in posted && ParentKey(x.key) == Some(n);
          PostedRow(rows, format, basis, x);
        } else {
          assert n in roots;
          assert n in Column(Where(posted, NotSubcategory), NameKey);
          var x :| x in Where(posted, NotSubcategory) && NameKey(x.key) == n;
          PostedRow(rows, format, basis, x);
        }
      }
    }
  }

  // ---- columns against rows ----

  lemma {:induction false} PostedIncomeTotal(income: seq<IncomeRecord>, format: Format, basis: Basis)
    ensures AmountSum(PostIncome(income, format, basis)) == IncomeTotal(income, basis)
  {
    if income != [] {
      var front := income[..|income| - 1];
      PostedIncomeTotal(front, format, basis);
      assert Front(PostIncome(income, format, basis)) == PostIncome(front, format, basis);
    }
  }

  lemma {:induction false} PostedExpenseTotal(rows: seq<ExpenseRow>, format: Format, basis: Basis)
    ensures AmountSum(PostExpenses(rows, format, basis)) == ExpenseTotal(rows, basis)
  {
    if rows != [] {
      var front := rows[..|rows| - 1];
      PostedExpenseTotal(front, format, basis);
      assert Front(PostExpenses(rows, format, basis)) == PostExpenses(front, format, basis);
    }
  }

  /**
   * Over a valid range, the revenue total's columns add up to all the income
   * the query selected: every row lands in exactly one planned column.
   */
  lemma RevenueColumnsAddUp(incomes: seq<IncomeRecord>, start: CalendarDate, end: CalendarDate, location: Option<string>,
                            format: Format, basis: Basis)
    requires ValidateDateRange(start, end).Pass?
    ensures var selected := SelectIncome(incomes, start, end, location);
            var periods := PlanPeriods(format, start, end);
            ColumnsSum(RevenueSectionOf(selected, format, periods, basis).totalNetRevenue, periods) == IncomeTotal(selected, basis)
  {
    var selected := SelectIncome(incomes, start, end, location);
    var periods := PlanPeriods(format, start, end);
    var posted := PostIncome(selected, format, basis);
    PeriodTotalsOfEmpty<string>(periods);
    assert RevenueSectionOf(selected, format, periods, basis).totalNetRevenue == PeriodTotals(posted, periods);
    ColumnsOfTotals(posted, periods, periods);
    PlanPeriodsDistinct(format, start, end);
    forall r | r in posted
      ensures r.period in periods
    {
      var i :| 0 <= i < |posted| && posted[i] == r;
      assert selected[i] in selected;
      AssignedPeriodIsPlanned(selected[i].docDate, format, start, end);
    }
    PeriodsCoverRows(posted, periods);
    PostedIncomeTotal(selected, format, basis);
  }

  /** Over a valid range, an expense section total's columns add up to all the rows the query selected. */
  lemma ExpenseColumnsAddUp(expenses: seq<ExpenseRecord>, categories: map<int, Category>, start: CalendarDate, end: CalendarDate,
                            location: Option<string>, types: Option<seq<ExpenseType>>, format: Format, basis: Basis)
    requires ValidateDateRange(start, end).Pass?
    ensures var selected := SelectExpenses(expenses, categories, start, end, location, types);
            var periods := PlanPeriods(format, start, end);
            ColumnsSum(ExpenseSectionOf(selected, format, periods, basis).total, periods) == ExpenseTotal(selected, basis)
  {
    var selected := SelectExpenses(expenses, categories, start, end, location, types);
    var periods := PlanPeriods(format, start, end);
    var posted := PostExpenses(selected, format, basis);
    PeriodTotalsOfEmpty<CategoryKey>(periods);
    assert ExpenseSectionOf(selected, format, periods, basis).total == PeriodTotals(posted, periods);
    ColumnsOfTotals(posted, periods, periods);
    PlanPeriodsDistinct(format, start, end);
    forall r | r in posted
      ensures r.period in periods
    {
      var i :| 0 <= i < |posted| && posted[i] == r;
      assert selected[i] in selected;
      AssignedPeriodIsPlanned(selected[i].record.docDate, format, start, end);
    }
    PeriodsCoverRows(posted, periods);
    PostedExpenseTotal(selected, format, basis);
  }
}
