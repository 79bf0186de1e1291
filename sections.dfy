/**
 * The report sections built from fetched rows: revenue per customer
 * (`build_revenue_section`) and the two-level expense hierarchy
 * (`build_expense_section` in the P&L, `build_outflows_section` in the cashflow).
 * Python's insertion-ordered dicts of names are association lists with
 * distinct names; per-period figures are maps keyed by period.
 */
module ReportSections {
  import opened Wrappers
  import opened Calendar
  import opened ReportPeriods
  import opened ReportData
  import opened PeriodSums

  /** One entry of an insertion-ordered dict keyed by a name. */
  datatype Named<V> = Named(name: string, value: V)

  function Names<V>(entries: seq<Named<V>>): (ns: seq<string>)
    ensures |ns| == |entries|
    ensures forall i | 0 <= i < |entries| :: ns[i] == entries[i].name
  {
    if entries == [] then [] else Names(Front(entries)) + [Last(entries).name]
  }

  /** `d.get(name)`: the value stored last under `name`. */
  function Lookup<V>(entries: seq<Named<V>>, name: string): (r: Option<V>)
    ensures r.Some? <==> name in Names(entries)
  {
    if entries == [] then None
    else if Last(entries).name == name then Some(Last(entries).value)
    else Lookup(Front(entries), name)
  }

  /** The sum of the per-period maps of a dict's entries at `p`. */
  function EntriesSum(entries: seq<Named<PeriodMap>>, p: Period): real {
    if entries == [] then 0.0 else EntriesSum(Front(entries), p) + Get(Last(entries).value, p)
  }

  /** Every map of the dict has exactly the planned periods as keys. */
  predicate ZeroFilled(entries: seq<Named<PeriodMap>>, periods: seq<Period>) {
    forall e | e in entries :: HasPeriods(e.value, periods)
  }

  // ---- revenue ----

  datatype RevenueSection = RevenueSection(byCustomer: seq<Named<PeriodMap>>, totalNetRevenue: PeriodMap)

  /** The grouping key of an income row is its customer. */
  function Customer(k: string): string {
    k
  }

  /** The income rows with their `period` column assigned. */
  function PostIncome(income: seq<IncomeRecord>, format: Format, basis: Basis): (posted: seq<Posted<string>>)
    ensures |posted| == |income|
  {
    seq(|income|, i requires 0 <= i < |income| =>
      Posted(income[i].customer, AssignPeriod(income[i].docDate, format), IncomeValue(income[i], basis)))
  }

  /** `income_df['customer'].unique()`. */
  function Customers(posted: seq<Posted<string>>): seq<string> {
    Unique(Column(posted, Customer))
  }

  /** The per-customer dict for the customers `cs`, in that order. */
  function CustomerEntries(posted: seq<Posted<string>>, cs: seq<string>, periods: seq<Period>): (es: seq<Named<PeriodMap>>)
    ensures Names(es) == cs
    ensures ZeroFilled(es, periods)
  {
    if cs == [] then []
    else CustomerEntries(posted, Front(cs), periods) + [Named(Last(cs), PeriodTotals(Where(posted, Is(Customer, Last(cs))), periods))]
  }

  function RevenueSectionOf(income: seq<IncomeRecord>, format: Format, periods: seq<Period>, basis: Basis): (section: RevenueSection)
    ensures ZeroFilled(section.byCustomer, periods) && HasPeriods(section.totalNetRevenue, periods)
    ensures income == [] ==> section.byCustomer == []
  {
    if income == [] then RevenueSection([], Zeros(periods))
    else
      var posted := PostIncome(income, format, basis);
      RevenueSection(CustomerEntries(posted, Customers(posted), periods), PeriodTotals(posted, periods))
  }

  /** `build_revenue_section`: one zero-filled map per customer, and the zero-filled total. */
  method BuildRevenueSection(income: seq<IncomeRecord>, format: Format, periods: seq<Period>, basis: Basis)
    returns (section: RevenueSection)
    ensures section == RevenueSectionOf(income, format, periods, basis)
  {
    if income == [] {
      return RevenueSection([], Zeros(periods));
    }
    var posted := PostIncome(income, format, basis);
    var customers := Customers(posted);
    var byCustomer: seq<Named<PeriodMap>> := [];
    for i := 0 to |customers|
      invariant byCustomer == CustomerEntries(posted, customers[..i], periods)
    {
      var customer := customers[i];
      CustomerEntriesStep(posted, customers, i, periods);
      byCustomer := byCustomer + [Named(customer, PeriodTotals(Where(posted, Is(Customer, customer)), periods))];
    }
    assert customers[..|customers|] == customers;
    section := RevenueSection(byCustomer, PeriodTotals(posted, periods));
  }

  lemma CustomerEntriesStep(posted: seq<Posted<string>>, cs: seq<string>, i: nat, periods: seq<Period>)
    requires i < |cs|
    ensures CustomerEntries(posted, cs[..i + 1], periods)
         == CustomerEntries(posted, cs[..i], periods) + [Named(cs[i], PeriodTotals(Where(posted, Is(Customer, cs[i])), periods))]
  {
    assert Front(cs[..i + 1]) == cs[..i];
  }

  // ---- expenses ----

  /** The columns of an expense row that the hierarchy groups by. */
  datatype CategoryKey = CategoryKey(name: string, parentCategory: Option<string>, isSubcategory: bool)

  /** `{'subcategories': {...}}`, with a `direct` block only when one is written. */
  datatype CategoryEntry = CategoryEntry(subcategories: seq<Named<PeriodMap>>, direct: Option<PeriodMap>)

  datatype ExpenseSection = ExpenseSection(byCategory: seq<Named<CategoryEntry>>, total: PeriodMap)

  predicate EntryZeroFilled(e: CategoryEntry, periods: seq<Period>) {
    ZeroFilled(e.subcategories, periods) && (e.direct.Some? ==> HasPeriods(e.direct.value, periods))
  }

  function KeyOf(row: ExpenseRow): CategoryKey {
    CategoryKey(row.categoryName, row.parentCategory, row.isSubcategory)
  }

  /** The expense rows with their `period` column assigned. */
  function PostExpenses(rows: seq<ExpenseRow>, format: Format, basis: Basis): (posted: seq<Posted<CategoryKey>>)
    ensures |posted| == |rows|
  {
    seq(|rows|, i requires 0 <= i < |rows| =>
      Posted(KeyOf(rows[i]), AssignPeriod(rows[i].record.docDate, format), ExpenseValue(rows[i].record, basis)))
  }

  function NameKey(k: CategoryKey): string {
    k.name
  }

  function ParentKey(k: CategoryKey): Option<string> {
    k.parentCategory
  }

  /** The name a row contributes to a `direct` block, if it is posted on a root category. */
  function RootKey(k: CategoryKey): Option<string> {
    if k.isSubcategory then None else Some(k.name)
  }

  predicate NotSubcategory(k: CategoryKey) {
    !k.isSubcategory
  }

  /** `(parent_category == parent_cat) & is_subcategory`. */
  function ChildOf(parent: string): CategoryKey -> bool {
    (k: CategoryKey) => k.parentCategory == Some(parent) && k.isSubcategory
  }

  /** `(category_name == subcat) & (parent_category == parent_cat)`. */
  function SubcategoryOf(parent: string, sub: string): CategoryKey -> bool {
    (k: CategoryKey) => k.name == sub && k.parentCategory == Some(parent)
  }

  /** `(category_name == parent_cat) & ~is_subcategory`. */
  function DirectOn(parent: string): CategoryKey -> bool {
    (k: CategoryKey) => k.name == parent && !k.isSubcategory
  }

  /** `category_name == orphan_cat`. */
  function NamedAs(name: string): CategoryKey -> bool {
    (k: CategoryKey) => k.name == name
  }

  /** `.dropna()` on a column of optional names. */
  function DropNone(s: seq<Option<string>>): (r: seq<string>)
    ensures forall v | v in r :: Some(v) in s
    ensures forall o | o in s && o.Some? :: o.value in r
  {
    if s == [] then []
    else
      assert forall x | x in Front(s) :: x in s;
      assert s == Front(s) + [Last(s)];
      DropNone(Front(s)) + (if Last(s).Some? then [Last(s).value] else [])
  }

  lemma DropNoneOfNone()
    ensures DropNone([None]) == []
  {
    var nones: seq<Option<string>> := [None];
    assert Front(nones) == [];
  }

  /** `parent_category.notna()` rows' `parent_category.unique()`. */
  function ParentCategories(posted: seq<Posted<CategoryKey>>): seq<string> {
    Unique(DropNone(Column(posted, ParentKey)))
  }

  /** The distinct names of the subcategory rows under `parent`. */
  function SubcategoryNames(posted: seq<Posted<CategoryKey>>, parent: string): seq<string> {
    Unique(Column(Where(posted, ChildOf(parent)), NameKey))
  }

  /** The distinct names of the rows posted on a root category (`~is_subcategory`). */
  function RootCategories(posted: seq<Posted<CategoryKey>>): seq<string> {
    Unique(Column(Where(posted, NotSubcategory), NameKey))
  }

  /** The root names that are not already a parent entry, in order. */
  function OrphanCategories(roots: seq<string>, parents: seq<string>): (r: seq<string>)
    ensures forall n | n in r :: n in roots && n !in parents
    ensures forall n | n in roots && n !in parents :: n in r
    ensures Distinct(roots) ==> Distinct(r)
  {
    if roots == [] then []
    else
      assert forall x | x in Front(roots) :: x in roots;
      assert roots == Front(roots) + [Last(roots)];
      OrphanCategories(Front(roots), parents) + (if Last(roots) !in parents then [Last(roots)] else [])
  }

  function SubcategoryEntries(posted: seq<Posted<CategoryKey>>, parent: string, subs: seq<string>, periods: seq<Period>)
    : (es: seq<Named<PeriodMap>>)
    ensures Names(es) == subs
    ensures ZeroFilled(es, periods)
  {
    if subs == [] then []
    else
      SubcategoryEntries(posted, parent, Front(subs), periods)
      + [Named(Last(subs), PeriodTotals(Where(posted, SubcategoryOf(parent, Last(subs))), periods))]
  }

  function ParentEntry(posted: seq<Posted<CategoryKey>>, parent: string, periods: seq<Period>): (e: CategoryEntry)
    ensures EntryZeroFilled(e, periods)
  {
    var direct := Where(posted, DirectOn(parent));
    CategoryEntry(
      SubcategoryEntries(posted, parent, SubcategoryNames(posted, parent), periods),
      if direct == [] then None else Some(PeriodTotals(direct, periods)))
  }

  function ParentEntries(posted: seq<Posted<CategoryKey>>, parents: seq<string>, periods: seq<Period>)
    : (es: seq<Named<CategoryEntry>>)
    ensures Names(es) == parents
    ensures forall e | e in es :: EntryZeroFilled(e.value, periods) && e.value == ParentEntry(posted, e.name, periods)
  {
    if parents == [] then []
    else ParentEntries(posted, Front(parents), periods) + [Named(Last(parents), ParentEntry(posted, Last(parents), periods))]
  }

  function OrphanEntry(posted: seq<Posted<CategoryKey>>, name: string, periods: seq<Period>): CategoryEntry {
    CategoryEntry([], Some(PeriodTotals(Where(posted, NamedAs(name)), periods)))
  }

  function OrphanEntries(posted: seq<Posted<CategoryKey>>, names: seq<string>, periods: seq<Period>)
    : (es: seq<Named<CategoryEntry>>)
    ensures Names(es) == names
    ensures forall e | e in es :: EntryZeroFilled(e.value, periods) && e.value == OrphanEntry(posted, e.name, periods)
  {
    if names == [] then []
    else OrphanEntries(posted, Front(names), periods) + [Named(Last(names), OrphanEntry(posted, Last(names), periods))]
  }

  function ExpenseSectionOf(rows: seq<ExpenseRow>, format: Format, periods: seq<Period>, basis: Basis): (section: ExpenseSection)
    ensures forall e | e in section.byCategory :: EntryZeroFilled(e.value, periods)
    ensures HasPeriods(section.total, periods)
    ensures rows == [] ==> section.byCategory == []
  {
    if rows == [] then ExpenseSection([], Zeros(periods))
    else
      var posted := PostExpenses(rows, format, basis);
      var parents := ParentCategories(posted);
      ExpenseSection(
        ParentEntries(posted, parents, periods)
        + OrphanEntries(posted, OrphanCategories(RootCategories(posted), parents), periods),
        PeriodTotals(posted, periods))
  }

  /** The inner loop of `build_expense_section`: one zero-filled map per subcategory of `parent`. */
  method BuildSubcategories(posted: seq<Posted<CategoryKey>>, parent: string, periods: seq<Period>)
    returns (subcategories: seq<Named<PeriodMap>>)
    ensures subcategories == SubcategoryEntries(posted, parent, SubcategoryNames(posted, parent), periods)
  {
    var subs := SubcategoryNames(posted, parent);
    subcategories := [];
    for j := 0 to |subs|
      invariant subcategories == SubcategoryEntries(posted, parent, subs[..j], periods)
    {
      SubcategoryEntriesStep(posted, parent, subs, j, periods);
      subcategories := subcategories + [Named(subs[j], PeriodTotals(Where(posted, SubcategoryOf(parent, subs[j])), periods))];
    }
    assert subs[..|subs|] == subs;
  }

  lemma SubcategoryEntriesStep(posted: seq<Posted<CategoryKey>>, parent: string, subs: seq<string>, j: nat, periods: seq<Period>)
    requires j < |subs|
    ensures SubcategoryEntries(posted, parent, subs[..j + 1], periods)
         == SubcategoryEntries(posted, parent, subs[..j], periods)
            + [Named(subs[j], PeriodTotals(Where(posted, SubcategoryOf(parent, subs[j])), periods))]
  {
    assert Front(subs[..j + 1]) == subs[..j];
  }

  lemma ParentEntriesStep(posted: seq<Posted<CategoryKey>>, parents: seq<string>, i: nat, periods: seq<Period>)
    requires i < |parents|
    ensures ParentEntries(posted, parents[..i + 1], periods)
         == ParentEntries(posted, parents[..i], periods) + [Named(parents[i], ParentEntry(posted, parents[i], periods))]
  {
    assert Front(parents[..i + 1]) == parents[..i];
  }

  /** The entry of one parent category: its subcategories, then a direct block if any row is posted on it. */
  method BuildParentEntry(posted: seq<Posted<CategoryKey>>, parent: string, periods: seq<Period>)
    returns (entry: CategoryEntry)
    ensures entry == ParentEntry(posted, parent, periods)
  {
    var subcategories := BuildSubcategories(posted, parent, periods);
    entry := CategoryEntry(subcategories, None);
    var directRows := Where(posted, DirectOn(parent));
    if directRows != [] {
      entry := entry.(direct := Some(PeriodTotals(directRows, periods)));
    }
  }

  lemma OrphanCategoriesStep(roots: seq<string>, parents: seq<string>, i: nat)
    requires i < |roots|
    ensures roots[i] !in parents ==> OrphanCategories(roots[..i + 1], parents) == OrphanCategories(roots[..i], parents) + [roots[i]]
    ensures roots[i] in parents ==> OrphanCategories(roots[..i + 1], parents) == OrphanCategories(roots[..i], parents)
  {
    assert Front(roots[..i + 1]) == roots[..i];
    assert Last(roots[..i + 1]) == roots[i];
    if roots[i] in parents {
      assert OrphanCategories(roots[..i], parents) + [] == OrphanCategories(roots[..i], parents);
    }
  }

  lemma OrphanEntriesSnoc(posted: seq<Posted<CategoryKey>>, names: seq<string>, name: string, periods: seq<Period>)
    ensures OrphanEntries(posted, names + [name], periods)
         == OrphanEntries(posted, names, periods) + [Named(name, OrphanEntry(posted, name, periods))]
  {
    assert Front(names + [name]) == names;
  }

  lemma OrphanEntriesAppend(posted: seq<Posted<CategoryKey>>, names: seq<string>, name: string, periods: seq<Period>,
                            prefix: seq<Named<CategoryEntry>>, byCategory: seq<Named<CategoryEntry>>)
    requires byCategory == prefix + OrphanEntries(posted, names, periods)
    ensures byCategory + [Named(name, OrphanEntry(posted, name, periods))]
         == prefix + OrphanEntries(posted, names + [name], periods)
  {
    OrphanEntriesSnoc(posted, names, name, periods);
  }

  /** The orphan loop: an entry for every root name that is not a parent, appended to `byCategory`. */
  method AppendOrphans(posted: seq<Posted<CategoryKey>>, roots: seq<string>, parents: seq<string>, periods: seq<Period>,
                       prefix: seq<Named<CategoryEntry>>)
    returns (byCategory: seq<Named<CategoryEntry>>)
    ensures byCategory == prefix + OrphanEntries(posted, OrphanCategories(roots, parents), periods)
  {
    byCategory := prefix;
    ghost var orphans: seq<string> := [];
    for i := 0 to |roots|
      invariant orphans == OrphanCategories(roots[..i], parents)
      invariant byCategory == prefix + OrphanEntries(posted, orphans, periods)
    {
      var name := roots[i];
      OrphanCategoriesStep(roots, parents, i);
      if name !in parents {
        var entry := OrphanEntry(posted, name, periods);
        OrphanEntriesAppend(posted, orphans, name, periods, prefix, byCategory);
        byCategory := byCategory + [Named(name, entry)];
        orphans := orphans + [name];
      }
    }
    assert roots[..|roots|] == roots;
  }

  /**
   * `build_expense_section` / `build_outflows_section`: a parent entry for every
   * parent name seen, with its subcategories and (if posted) its direct block;
   * then an entry with a direct block for every root name that is not a parent.
   */
  method BuildExpenseSection(rows: seq<ExpenseRow>, format: Format, periods: seq<Period>, basis: Basis)
    returns (section: ExpenseSection)
    ensures section == ExpenseSectionOf(rows, format, periods, basis)
  {
    if rows == [] {
      return ExpenseSection([], Zeros(periods));
    }
    var posted := PostExpenses(rows, format, basis);
    var parents := ParentCategories(posted);
    var byCategory: seq<Named<CategoryEntry>> := [];
    for i := 0 to |parents|
      invariant byCategory == ParentEntries(posted, parents[..i], periods)
    {
      var entry := BuildParentEntry(posted, parents[i], periods);
      ParentEntriesStep(posted, parents, i, periods);
      byCategory := byCategory + [Named(parents[i], entry)];
    }
    assert parents[..|parents|] == parents;
    byCategory := AppendOrphans(posted, RootCategories(posted), parents, periods, byCategory);
    section := ExpenseSection(byCategory, PeriodTotals(posted, periods));
  }
}
