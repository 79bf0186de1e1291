/**
 * What the expense hierarchy guarantees: every row of the section total is
 * counted in exactly one leaf (a subcategory map, a parent's direct block or
 * an orphan's direct block) provided the rows are well joined; every map of a
 * section is zero-filled over the planned periods; and the revenue total is
 * the sum of its customers.
 */
module SectionProperties {
  import opened Wrappers
  import opened Calendar
  import opened ReportPeriods
  import opened ReportData
  import opened PeriodSums
  import opened ReportSections

  /** What a category entry contributes at `p`: its subcategories and its direct block. */
  function EntryLeafSum(e: CategoryEntry, p: Period): real {
    EntriesSum(e.subcategories, p) + (if e.direct.Some? then Get(e.direct.value, p) else 0.0)
  }

  /** The sum of every leaf of the hierarchy at `p`. */
  function LeafSum(es: seq<Named<CategoryEntry>>, p: Period): real {
    if es == [] then 0.0 else LeafSum(Front(es), p) + EntryLeafSum(Last(es).value, p)
  }

  lemma {:induction false} LeafSumAppend(a: seq<Named<CategoryEntry>>, b: seq<Named<CategoryEntry>>, p: Period)
    ensures LeafSum(a + b, p) == LeafSum(a, p) + LeafSum(b, p)
    decreases |b|
  {
    if b == [] {
      assert a + b == a;
    } else {
      assert Front(a + b) == a + Front(b);
      assert Last(a + b) == Last(b);
      LeafSumAppend(a, Front(b), p);
    }
  }

  /**
   * Rows the category join produced consistently: a row is a subcategory exactly
   * when its parent name resolved, and rows that share a name agree on it.
   */
  predicate WellJoined(posted: seq<Posted<CategoryKey>>) {
    SubcategoryIffParent(posted) && ConsistentKinds(posted)
  }

  predicate SubcategoryIffParent(posted: seq<Posted<CategoryKey>>) {
    forall r | r in posted :: r.key.isSubcategory <==> r.key.parentCategory.Some?
  }

  predicate ConsistentKinds(posted: seq<Posted<CategoryKey>>) {
    forall r, s | r in posted && s in posted :: SameKind(r.key, s.key)
  }

  /** Two keys that share a name are both subcategories or both roots. */
  predicate SameKind(a: CategoryKey, b: CategoryKey) {
    a.name == b.name ==> a.isSubcategory == b.isSubcategory
  }

  /** `Some` of every name, in order. */
  function Somes(s: seq<string>): (r: seq<Option<string>>)
    ensures |r| == |s|
    ensures forall o | o in r :: o.Some? && o.value in s
    ensures forall x | x in s :: Some(x) in r
    ensures Distinct(s) ==> Distinct(r)
  {
    if s == [] then []
    else
      assert forall x | x in Front(s) :: x in s;
      assert s == Front(s) + [Last(s)];
      Somes(Front(s)) + [Some(Last(s))]
  }

  lemma {:induction false} SomesAppend(a: seq<string>, b: seq<string>)
    ensures Somes(a + b) == Somes(a) + Somes(b)
    decreases |b|
  {
    if b == [] {
      assert a + b == a;
    } else {
      assert Front(a + b) == a + Front(b);
      assert Last(a + b) == Last(b);
      SomesAppend(a, Front(b));
    }
  }

  lemma DistinctAppend<T>(a: seq<T>, b: seq<T>)
    requires Distinct(a) && Distinct(b)
    requires forall x | x in a :: x !in b
    ensures Distinct(a + b)
  {
    forall i, j | 0 <= i < j < |a + b|
      ensures (a + b)[i] != (a + b)[j]
    {
      if j < |a| {
      } else if i < |a| {
        assert (a + b)[i] in a;
        assert (a + b)[j] == b[j - |a|];
      } else {
        assert (a + b)[i] == b[i - |a|];
      }
    }
  }

  lemma GetPeriodTotals<K>(rows: seq<Posted<K>>, periods: seq<Period>, p: Period)
    requires p in periods
    ensures Get(PeriodTotals(rows, periods), p) == PeriodSum(rows, p)
  {
  }

  // ---- the masks, row by row ----

  /** Under a consistent join, a parent's children are the rows naming it as parent. */
  lemma ChildrenByParent(posted: seq<Posted<CategoryKey>>, parent: string)
    requires SubcategoryIffParent(posted)
    ensures Where(posted, ChildOf(parent)) == Where(posted, Is(ParentKey, Some(parent)))
  {
    forall r | r in posted
      ensures ChildOf(parent)(r.key) == Is(ParentKey, Some(parent))(r.key)
    {
      var k := r.key;
      assert ChildOf(parent)(k) == (k.parentCategory == Some(parent) && k.isSubcategory);
      assert Is(ParentKey, Some(parent))(k) == (ParentKey(k) == Some(parent));
    }
    WhereCongruent(posted, ChildOf(parent), Is(ParentKey, Some(parent)));
  }

  /** The rows of one subcategory are its parent's children that carry its name. */
  lemma SubcategoryRows(posted: seq<Posted<CategoryKey>>, parent: string, sub: string)
    requires SubcategoryIffParent(posted)
    ensures Where(Where(posted, ChildOf(parent)), Is(NameKey, sub)) == Where(posted, SubcategoryOf(parent, sub))
  {
    forall r | r in posted
      ensures SubcategoryOf(parent, sub)(r.key) == (ChildOf(parent)(r.key) && Is(NameKey, sub)(r.key))
    {
      var k := r.key;
      assert SubcategoryOf(parent, sub)(k) == (k.name == sub && k.parentCategory == Some(parent));
      assert ChildOf(parent)(k) == (k.parentCategory == Some(parent) && k.isSubcategory);
      assert Is(NameKey, sub)(k) == (NameKey(k) == sub);
    }
    WhereWhere(posted, ChildOf(parent), Is(NameKey, sub), SubcategoryOf(parent, sub));
  }

  /** Every child of `parent` carries one of the subcategory names listed for it. */
  lemma ChildrenNamed(posted: seq<Posted<CategoryKey>>, parent: string)
    ensures var children := Where(posted, ChildOf(parent));
            Where(children, In(NameKey, SubcategoryNames(posted, parent))) == children
  {
    var children := Where(posted, ChildOf(parent));
    var subs := SubcategoryNames(posted, parent);
    forall r | r in children
      ensures In(NameKey, subs)(r.key)
    {
      assert NameKey(r.key) in Column(children, NameKey);
    }
    WhereAll(children, In(NameKey, subs));
  }

  /** The rows of a direct block are the root rows of that name. */
  lemma DirectRows(posted: seq<Posted<CategoryKey>>, parent: string)
    ensures Where(posted, DirectOn(parent)) == Where(posted, Is(RootKey, Some(parent)))
  {
    forall r | r in posted
      ensures DirectOn(parent)(r.key) == Is(RootKey, Some(parent))(r.key)
    {
      var k := r.key;
      assert DirectOn(parent)(k) == (k.name == parent && !k.isSubcategory);
      assert Is(RootKey, Some(parent))(k) == (RootKey(k) == Some(parent));
    }
    WhereCongruent(posted, DirectOn(parent), Is(RootKey, Some(parent)));
  }

  /** The rows carrying a root category's name are exactly the root rows of that name. */
  lemma OrphanRowsAreRootRows(posted: seq<Posted<CategoryKey>>, n: string)
    requires ConsistentKinds(posted)
    requires n in RootCategories(posted)
    ensures Where(posted, NamedAs(n)) == Where(posted, Is(RootKey, Some(n)))
  {
    assert n in Column(Where(posted, NotSubcategory), NameKey);
    var root :| root in Where(posted, NotSubcategory) && root.key.name == n;
    forall r | r in posted
      ensures NamedAs(n)(r.key) == Is(RootKey, Some(n))(r.key)
    {
      var k := r.key;
      assert NamedAs(n)(k) == (k.name == n);
      assert Is(RootKey, Some(n))(k) == (RootKey(k) == Some(n));
      if k.name == n {
        assert SameKind(k, root.key);
      }
    }
    WhereCongruent(posted, NamedAs(n), Is(RootKey, Some(n)));
  }

  /** Each row is counted exactly once: under its parent if it has one, else under its own name. */
  lemma RowCoveredOnce(posted: seq<Posted<CategoryKey>>, r: Posted<CategoryKey>)
    requires SubcategoryIffParent(posted)
    requires r in posted
    ensures var parents := ParentCategories(posted);
            var names := Somes(parents) + Somes(OrphanCategories(RootCategories(posted), parents));
            In(ParentKey, Somes(parents))(r.key) != In(RootKey, names)(r.key)
  {
    var parents := ParentCategories(posted);
    var ps, os := Somes(parents), Somes(OrphanCategories(RootCategories(posted), parents));
    var k := r.key;
    assert In(ParentKey, ps)(k) == (k.parentCategory in ps);
    assert In(RootKey, ps + os)(k) == (RootKey(k) in ps + os);
    if k.isSubcategory {
      assert k.parentCategory in Column(posted, ParentKey);
      assert k.parentCategory.value in parents;
    } else {
      assert r in Where(posted, NotSubcategory);
      assert k.name in Column(Where(posted, NotSubcategory), NameKey);
      assert k.name in RootCategories(posted);
      if k.name in parents {
        assert Some(k.name) in ps;
      } else {
        assert Some(k.name) in os;
      }
    }
  }

  // ---- the leaves of one parent ----

  /** The subcategory maps of `parent` add up to the groups of its children by name. */
  lemma {:induction false} SubcategoryEntriesSum(posted: seq<Posted<CategoryKey>>, parent: string, subs: seq<string>,
                                                 periods: seq<Period>, p: Period)
    requires SubcategoryIffParent(posted)
    requires p in periods
    ensures EntriesSum(SubcategoryEntries(posted, parent, subs, periods), p)
         == GroupSum(Where(posted, ChildOf(parent)), NameKey, subs, p)
  {
    if subs != [] {
      var s := Last(subs);
      SubcategoryEntriesSum(posted, parent, Front(subs), periods, p);
      SubcategoryRows(posted, parent, s);
      GetPeriodTotals(Where(posted, SubcategoryOf(parent, s)), periods, p);
    }
  }

  /** A parent's entry holds its children's rows and the rows posted on it directly. */
  lemma ParentEntrySum(posted: seq<Posted<CategoryKey>>, parent: string, periods: seq<Period>, p: Period)
    requires SubcategoryIffParent(posted)
    requires p in periods
    ensures EntryLeafSum(ParentEntry(posted, parent, periods), p)
         == PeriodSum(Where(posted, Is(ParentKey, Some(parent))), p) + PeriodSum(Where(posted, Is(RootKey, Some(parent))), p)
  {
    var children := Where(posted, ChildOf(parent));
    var subs := SubcategoryNames(posted, parent);
    SubcategoryEntriesSum(posted, parent, subs, periods, p);
    Partition(children, NameKey, subs, p);
    ChildrenNamed(posted, parent);
    ChildrenByParent(posted, parent);
    DirectRows(posted, parent);
    var direct := Where(posted, DirectOn(parent));
    if direct != [] {
      GetPeriodTotals(direct, periods, p);
    } else {
      assert PeriodSum(direct, p) == 0.0;
    }
  }

  // ---- the whole hierarchy ----

  lemma {:induction false} ParentEntriesSum(posted: seq<Posted<CategoryKey>>, parents: seq<string>, periods: seq<Period>, p: Period)
    requires SubcategoryIffParent(posted)
    requires p in periods
    ensures LeafSum(ParentEntries(posted, parents, periods), p)
         == GroupSum(posted, ParentKey, Somes(parents), p) + GroupSum(posted, RootKey, Somes(parents), p)
  {
    if parents != [] {
      ParentEntriesSum(posted, Front(parents), periods, p);
      ParentEntrySum(posted, Last(parents), periods, p);
      SomesSnoc(parents);
    }
  }

  lemma SomesSnoc(s: seq<string>)
    requires s != []
    ensures Somes(s) != [] && Front(Somes(s)) == Somes(Front(s)) && Last(Somes(s)) == Some(Last(s))
  {
  }

  lemma OrphanEntriesSnoc(posted: seq<Posted<CategoryKey>>, orphans: seq<string>, periods: seq<Period>, p: Period)
    requires orphans != []
    requires p in periods
    ensures LeafSum(OrphanEntries(posted, orphans, periods), p)
         == LeafSum(OrphanEntries(posted, Front(orphans), periods), p) + PeriodSum(Where(posted, NamedAs(Last(orphans))), p)
  {
    var n := Last(orphans);
    var es := OrphanEntries(posted, orphans, periods);
    assert Front(es) == OrphanEntries(posted, Front(orphans), periods);
    assert Last(es).value == OrphanEntry(posted, n, periods);
    GetPeriodTotals(Where(posted, NamedAs(n)), periods, p);
  }

  lemma GroupSumSomesSnoc(posted: seq<Posted<CategoryKey>>, f: CategoryKey -> Option<string>, s: seq<string>, p: Period)
    requires s != []
    ensures GroupSum(posted, f, Somes(s), p)
         == GroupSum(posted, f, Somes(Front(s)), p) + PeriodSum(Where(posted, Is(f, Some(Last(s)))), p)
  {
    SomesSnoc(s);
  }

  /** An orphan's entry holds the rows carrying its name. */
  lemma {:induction false} OrphanEntriesSum(posted: seq<Posted<CategoryKey>>, orphans: seq<string>, periods: seq<Period>, p: Period)
    requires p in periods
    requires forall n | n in orphans :: PeriodSum(Where(posted, NamedAs(n)), p) == PeriodSum(Where(posted, Is(RootKey, Some(n))), p)
    ensures LeafSum(OrphanEntries(posted, orphans, periods), p) == GroupSum(posted, RootKey, Somes(orphans), p)
  {
    if orphans != [] {
      assert Last(orphans) in orphans;
      assert forall x | x in Front(orphans) :: x in orphans;
      OrphanEntriesSum(posted, Front(orphans), periods, p);
      OrphanEntriesSnoc(posted, orphans, periods, p);
      GroupSumSomesSnoc(posted, RootKey, orphans, p);
    }
  }

  /** The mask every row passes. */
  function AnyKey(): CategoryKey -> bool {
    k => true
  }

  /** Every row's amount is in the children of some parent or in the root rows of a listed name. */
  lemma RowsSplit(posted: seq<Posted<CategoryKey>>, p: Period)
    requires SubcategoryIffParent(posted)
    ensures var parents := ParentCategories(posted);
            var ps, os := Somes(parents), Somes(OrphanCategories(RootCategories(posted), parents));
            PeriodSum(posted, p) == PeriodSum(Where(posted, In(ParentKey, ps)), p) + PeriodSum(Where(posted, In(RootKey, ps + os)), p)
  {
    var parents := ParentCategories(posted);
    var ps, os := Somes(parents), Somes(OrphanCategories(RootCategories(posted), parents));
    forall r | r in posted
      ensures AnyKey()(r.key) == (In(ParentKey, ps)(r.key) || In(RootKey, ps + os)(r.key))
      ensures !(In(ParentKey, ps)(r.key) && In(RootKey, ps + os)(r.key))
    {
      RowCoveredOnce(posted, r);
    }
    WhereSplit(posted, In(ParentKey, ps), In(RootKey, ps + os), AnyKey(), p);
    WhereAll(posted, AnyKey());
  }

  /** The leaves of the parent entries and the orphan entries, as sums of groups. */
  lemma HierarchyAsGroups(posted: seq<Posted<CategoryKey>>, periods: seq<Period>, p: Period)
    requires WellJoined(posted)
    requires p in periods
    ensures var parents := ParentCategories(posted);
            var orphans := OrphanCategories(RootCategories(posted), parents);
            LeafSum(ParentEntries(posted, parents, periods) + OrphanEntries(posted, orphans, periods), p)
            == GroupSum(posted, ParentKey, Somes(parents), p) + GroupSum(posted, RootKey, Somes(parents), p)
               + GroupSum(posted, RootKey, Somes(orphans), p)
  {
    var parents := ParentCategories(posted);
    var orphans := OrphanCategories(RootCategories(posted), parents);
    LeafSumAppend(ParentEntries(posted, parents, periods), OrphanEntries(posted, orphans, periods), p);
    ParentEntriesSum(posted, parents, periods, p);
    forall n | n in orphans
      ensures PeriodSum(Where(posted, NamedAs(n)), p) == PeriodSum(Where(posted, Is(RootKey, Some(n))), p)
    {
      OrphanRowsAreRootRows(posted, n);
    }
    OrphanEntriesSum(posted, orphans, periods, p);
  }

  /** The groups of distinct parent names and of distinct root names, as two selections. */
  lemma GroupsAsSelections(posted: seq<Posted<CategoryKey>>, p: Period)
    ensures var parents := ParentCategories(posted);
            var ps, os := Somes(parents), Somes(OrphanCategories(RootCategories(posted), parents));
            GroupSum(posted, ParentKey, ps, p) + GroupSum(posted, RootKey, ps, p) + GroupSum(posted, RootKey, os, p)
            == PeriodSum(Where(posted, In(ParentKey, ps)), p) + PeriodSum(Where(posted, In(RootKey, ps + os)), p)
  {
    var parents := ParentCategories(posted);
    var ps, os := Somes(parents), Somes(OrphanCategories(RootCategories(posted), parents));
    GroupSumAppend(posted, RootKey, ps, os, p);
    DistinctAppend(ps, os);
    Partition(posted, ParentKey, ps, p);
    Partition(posted, RootKey, ps + os, p);
  }

  /** The leaves of the entries built from `posted` add up to all of `posted`. */
  lemma HierarchyCoversRows(posted: seq<Posted<CategoryKey>>, periods: seq<Period>, p: Period)
    requires WellJoined(posted)
    requires p in periods
    ensures var parents := ParentCategories(posted);
            LeafSum(ParentEntries(posted, parents, periods)
                    + OrphanEntries(posted, OrphanCategories(RootCategories(posted), parents), periods), p)
            == PeriodSum(posted, p)
  {
    HierarchyAsGroups(posted, periods, p);
    GroupsAsSelections(posted, p);
    RowsSplit(posted, p);
  }

  /**
   * The leaf sums of the expense hierarchy equal the section total in every
   * planned period: no row is lost and none is counted twice, as long as the
   * category join is consistent.
   */
  lemma LeavesSumToTotal(rows: seq<ExpenseRow>, format: Format, periods: seq<Period>, basis: Basis, p: Period)
    requires WellJoined(PostExpenses(rows, format, basis))
    requires p in periods
    ensures var section := ExpenseSectionOf(rows, format, periods, basis);
            LeafSum(section.byCategory, p) == Get(section.total, p)
  {
    var posted := PostExpenses(rows, format, basis);
    if rows != [] {
      HierarchyCoversRows(posted, periods, p);
      GetPeriodTotals(posted, periods, p);
    }
  }

  // ---- when the join is consistent ----

  /**
   * With unique category names and no parent id missing from the table, the
   * expense query's rows are well joined, so `LeavesSumToTotal` applies to them.
   */
  lemma SelectedRowsWellJoined(expenses: seq<ExpenseRecord>, categories: map<int, Category>, start: CalendarDate, end: CalendarDate,
                               location: Option<string>, types: Option<seq<ExpenseType>>, format: Format, basis: Basis)
    requires UniqueNames(categories) && ParentsPresent(categories)
    ensures WellJoined(PostExpenses(SelectExpenses(expenses, categories, start, end, location, types), format, basis))
  {
    var rows := SelectExpenses(expenses, categories, start, end, location, types);
    var posted := PostExpenses(rows, format, basis);
    forall x | x in posted
      ensures x.key.isSubcategory <==> x.key.parentCategory.Some?
    {
      var i :| 0 <= i < |posted| && posted[i] == x;
      assert rows[i] in rows;
    }
    forall x, y | x in posted && y in posted
      ensures SameKind(x.key, y.key)
    {
      var i :| 0 <= i < |posted| && posted[i] == x;
      var j :| 0 <= j < |posted| && posted[j] == y;
      assert rows[i] in rows && rows[j] in rows;
      if x.key.name == y.key.name {
        assert rows[i].record.categoryId == rows[j].record.categoryId;
      }
    }
  }

  /** The one posted row of a dangling subcategory names no parent and no root. */
  lemma DanglingRowNames(posted: seq<Posted<CategoryKey>>)
    requires posted == [Posted(CategoryKey("Fuel", None, true), Total, 10.0)]
    ensures ParentCategories(posted) == [] && RootCategories(posted) == []
  {
    DanglingNoParent(posted);
    DanglingNoRoot(posted);
  }

  lemma DanglingNoParent(posted: seq<Posted<CategoryKey>>)
    requires posted == [Posted(CategoryKey("Fuel", None, true), Total, 10.0)]
    ensures ParentCategories(posted) == []
  {
    ColumnOfOne(posted, ParentKey);
    assert ParentKey(posted[0].key) == None;
    DropNoneOfNone();
  }

  lemma DanglingNoRoot(posted: seq<Posted<CategoryKey>>)
    requires posted == [Posted(CategoryKey("Fuel", None, true), Total, 10.0)]
    ensures RootCategories(posted) == []
  {
    assert Front(posted) == [];
    assert Where(posted, NotSubcategory) == [];
  }

  /**
   * A category whose parent id the table lacks is a subcategory with no parent
   * name: its rows are in the section total but in no entry.
   */
  lemma DanglingParentOutsideHierarchy()
    ensures var e := ExpenseRecord(Date(2024, 3, 1), 10.0, 10.7, Opex, "Bkk", 1);
            var row := ExpenseRow(e, "Fuel", Some(7), None, true);
            var section := ExpenseSectionOf([row], Yearly, [Total], BaseAmount);
            section.byCategory == [] && section.total == map[Total := 10.0]
            && LeafSum(section.byCategory, Total) != Get(section.total, Total)
  {
    var e := ExpenseRecord(Date(2024, 3, 1), 10.0, 10.7, Opex, "Bkk", 1);
    var row := ExpenseRow(e, "Fuel", Some(7), None, true);
    DanglingPosted(row);
    var posted := PostExpenses([row], Yearly, BaseAmount);
    DanglingRowNames(posted);
    DanglingPostedSum(posted);
  }

  lemma DanglingPosted(row: ExpenseRow)
    requires row == ExpenseRow(ExpenseRecord(Date(2024, 3, 1), 10.0, 10.7, Opex, "Bkk", 1), "Fuel", Some(7), None, true)
    ensures PostExpenses([row], Yearly, BaseAmount) == [Posted(CategoryKey("Fuel", None, true), Total, 10.0)]
  {
  }

  lemma DanglingPostedSum(posted: seq<Posted<CategoryKey>>)
    requires posted == [Posted(CategoryKey("Fuel", None, true), Total, 10.0)]
    ensures PeriodSum(posted, Total) == 10.0
  {
    assert Front(posted) == [];
  }
}
