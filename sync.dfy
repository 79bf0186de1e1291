/**
 * `sync_data`: the import of the Income and Expenses tabs into the database.
 * Each row with a row id is matched by that id and inserted, updated or
 * skipped; an expense row first resolves its category. The summary counts
 * the three outcomes per tab. An error stops the sync before the commit,
 * so nothing it did is kept.
 */
module Ingestion {
  import opened Wrappers
  import opened Calendar
  import opened ReportData
  import opened SheetValues
  import opened SheetRows
  import opened CategoryTable

  /** The per-tab counters of the summary. */
  datatype Counts = Counts(inserted: nat, updated: nat, skipped: nat)

  const NoCounts := Counts(0, 0, 0)

  function Counted(c: Counts): nat {
    c.inserted + c.updated + c.skipped
  }

  /** Count one row's outcome; a row without a row id counts nowhere. */
  function Count(c: Counts, outcome: Option<RowOutcome>): Counts {
    match outcome
    case None => c
    case Some(Inserted) => c.(inserted := c.inserted + 1)
    case Some(Updated) => c.(updated := c.updated + 1)
    case Some(Skipped) => c.(skipped := c.skipped + 1)
  }

  /** The summary of a completed sync. */
  datatype SyncSummary = SyncSummary(income: Counts, expenses: Counts)

  // ---- the session ----

  /**
   * What the session has added since its last flush. The session does not
   * autoflush, so a query by row id finds no pending record; two pending
   * records with one row id break the table's unique row-id index when they
   * are flushed. `duplicate` is the first row id the session added twice.
   */
  datatype Pending = Pending(incomes: set<string>, expenses: set<string>, duplicate: Option<string>)

  /** A fresh session has added nothing. */
  const NoPending := Pending({}, {}, None)

  /** The duplicate after a record for `key` is added to a table whose pending row ids are `pending`. */
  function NoteDuplicate(duplicate: Option<string>, pending: set<string>, key: string): Option<string> {
    if duplicate.None? && key in pending then Some(key) else duplicate
  }

  function IncomeAdded(p: Pending, key: string): Pending {
    p.(incomes := p.incomes + {key}, duplicate := NoteDuplicate(p.duplicate, p.incomes, key))
  }

  function ExpenseAdded(p: Pending, key: string): Pending {
    p.(expenses := p.expenses + {key}, duplicate := NoteDuplicate(p.duplicate, p.expenses, key))
  }

  /** A flush writes every pending record; a duplicate it met stays on record, since it fails the sync. */
  function Flushed(p: Pending): Pending {
    p.(incomes := {}, expenses := {})
  }

  /**
   * Match by row id in the session: the query does not see a record added
   * since the last flush, so such a row id is added once more; any other row
   * id is matched as `Upsert` says.
   */
  function SessionUpsert(table: map<string, Record>, pending: set<string>, key: string, data: Record, keys: seq<string>)
    : Upserted
  {
    if key in pending then Upserted(Inserted, table[key := data]) else Upsert(table, key, data, keys)
  }

  // ---- the Income tab ----

  /** What one row does: its outcome, or the error that stops the sync, and the table and session it leaves. */
  datatype RowStep = RowStep(result: Result<Option<RowOutcome>, SyncError>, table: map<string, Record>, pending: Pending)

  /** One iteration of the income loop. */
  function IncomeRowStep(table: map<string, Record>, p: Pending, row: IncomeSheetRow): RowStep {
    match RowKey(row.rowId)
    case None => RowStep(Ok(None), table, p)
    case Some(key) =>
      match IncomeData(row, key)
      case Err(e) => RowStep(Err(e), table, p)
      case Ok(data) =>
        var u := SessionUpsert(table, p.incomes, key, data, IncomeCompareKeys);
        RowStep(Ok(Some(u.outcome)), u.table, if u.outcome == Inserted then IncomeAdded(p, key) else p)
  }

  datatype IncomeRun = IncomeRun(result: Result<Counts, SyncError>, table: map<string, Record>, pending: Pending)

  /** The income loop over `rows`, starting from `counts`: the first error ends it. */
  function RunIncome(table: map<string, Record>, p: Pending, rows: seq<IncomeSheetRow>, counts: Counts): IncomeRun
    decreases |rows|
  {
    if rows == [] then IncomeRun(Ok(counts), table, p)
    else
      var step := IncomeRowStep(table, p, rows[0]);
      match step.result
      case Err(e) => IncomeRun(Err(e), step.table, step.pending)
      case Ok(outcome) => RunIncome(step.table, step.pending, rows[1..], Count(counts, outcome))
  }

  /** The number of rows with a row id. */
  function KeyedIncome(rows: seq<IncomeSheetRow>): nat
    decreases |rows|
  {
    if rows == [] then 0 else (if RowKey(rows[0].rowId).Some? then 1 else 0) + KeyedIncome(rows[1..])
  }

  /** The row ids of the rows. */
  function IncomeKeySet(rows: seq<IncomeSheetRow>): set<string>
    decreases |rows|
  {
    if rows == [] then {}
    else (if RowKey(rows[0].rowId).Some? then {RowKey(rows[0].rowId).value} else {}) + IncomeKeySet(rows[1..])
  }

  /** A row that stops the sync: it has a row id and a `None` location. */
  predicate BlocksIncome(row: IncomeSheetRow) {
    RowKey(row.rowId).Some? && row.location.Blank?
  }

  /** No two rows share a row id. */
  predicate DistinctIncomeKeys(rows: seq<IncomeSheetRow>) {
    forall i, j | 0 <= i < j < |rows| && RowKey(rows[i].rowId).Some? :: RowKey(rows[i].rowId) != RowKey(rows[j].rowId)
  }

  /** A row the table holds with no compared field changed, so that a query finding it skips it. */
  predicate IncomeSettled(table: map<string, Record>, row: IncomeSheetRow) {
    match RowKey(row.rowId)
    case None => true
    case Some(key) =>
      IncomeData(row, key).Ok? && key in table && !Changed(table[key], IncomeData(row, key).value, IncomeCompareKeys)
  }

  // ---- the Expenses tab ----

  /** The tables the expense loop changes, and the session. */
  datatype Tables = Tables(categories: map<int, Category>, nextId: int, expenses: map<string, Record>, pending: Pending)

  /** What resolving a category gives: its id or the error, and the tables and session it leaves. */
  datatype Resolved = Resolved(result: Result<int, SyncError>, tables: Tables)

  /**
   * One query of `get_or_create_category` in the session: find the category
   * `(name, parent)`, or add it and flush at once. The flush writes every
   * pending record too; an insert of a taken name fails, and so does a
   * flush that meets a duplicate row id.
   */
  ghost function FlushAdd(t: Tables, name: string, parent: Option<int>): Resolved {
    match FindCategory(t.categories, name, parent)
    case Some(id) => Resolved(Ok(id), t)
    case None =>
      if NameTaken(t.categories, name) then Resolved(Err(CategoryConflict(name)), t)
      else
        var t' := t.(categories := t.categories[t.nextId := Category(name, parent)], nextId := t.nextId + 1,
                     pending := Flushed(t.pending));
        match t.pending.duplicate
        case Some(key) => Resolved(Err(DuplicateRowId(key)), t')
        case None => Resolved(Ok(t.nextId), t')
  }

  /** `get_or_create_category` in the session: the root first, then the child when one is asked for. */
  ghost function ResolveCategory(t: Tables, category: Option<string>, subcategory: Option<string>): Resolved {
    var root := FlushAdd(t, CategoryName(category), None);
    if root.result.Err? || ChildName(subcategory).None? then root
    else FlushAdd(root.tables, ChildName(subcategory).value, Some(root.result.value))
  }

  datatype ExpenseStep = ExpenseStep(result: Result<Option<RowOutcome>, SyncError>, tables: Tables)

  /** One iteration of the expense loop, on `today`'s date. */
  ghost function ExpenseRowStep(t: Tables, row: ExpenseSheetRow, today: CalendarDate): ExpenseStep {
    match RowKey(row.rowId)
    case None => ExpenseStep(Ok(None), t)
    case Some(key) =>
      var c := ResolveCategory(t, CellText(row.category), CellText(row.subcategory));
      var t' := c.tables;
      match c.result
      case Err(e) => ExpenseStep(Err(e), t')
      case Ok(id) =>
        match ExpenseData(row, key, id, today)
        case Err(e) => ExpenseStep(Err(e), t')
        case Ok(data) =>
          var u := SessionUpsert(t'.expenses, t'.pending.expenses, key, data, ExpenseCompareKeys);
          ExpenseStep(Ok(Some(u.outcome)),
                      t'.(expenses := u.table, pending := if u.outcome == Inserted then ExpenseAdded(t'.pending, key) else t'.pending))
  }

  datatype ExpenseRun = ExpenseRun(result: Result<Counts, SyncError>, tables: Tables)

  /** The expense loop over `rows`: the first error ends it. */
  ghost function RunExpenses(t: Tables, rows: seq<ExpenseSheetRow>, today: CalendarDate, counts: Counts): ExpenseRun
    decreases |rows|
  {
    if rows == [] then ExpenseRun(Ok(counts), t)
    else
      var step := ExpenseRowStep(t, rows[0], today);
      match step.result
      case Err(e) => ExpenseRun(Err(e), step.tables)
      case Ok(outcome) => RunExpenses(step.tables, rows[1..], today, Count(counts, outcome))
  }

  function KeyedExpenses(rows: seq<ExpenseSheetRow>): nat
    decreases |rows|
  {
    if rows == [] then 0 else (if RowKey(rows[0].rowId).Some? then 1 else 0) + KeyedExpenses(rows[1..])
  }

  function ExpenseKeySet(rows: seq<ExpenseSheetRow>): set<string>
    decreases |rows|
  {
    if rows == [] then {}
    else (if RowKey(rows[0].rowId).Some? then {RowKey(rows[0].rowId).value} else {}) + ExpenseKeySet(rows[1..])
  }

  predicate DistinctExpenseKeys(rows: seq<ExpenseSheetRow>) {
    forall i, j | 0 <= i < j < |rows| && RowKey(rows[i].rowId).Some? :: RowKey(rows[i].rowId) != RowKey(rows[j].rowId)
  }

  /**
   * A row whose category the table already holds (so resolving it creates
   * nothing) and whose expense the table holds with no compared field changed.
   */
  ghost predicate ExpenseSettled(t: Tables, row: ExpenseSheetRow, today: CalendarDate) {
    match RowKey(row.rowId)
    case None => true
    case Some(key) =>
      var g := GetOrCreate(t.categories, t.nextId, CellText(row.category), CellText(row.subcategory));
      g.Ok? && g.value.categories == t.categories && g.value.nextId == t.nextId
      && ExpenseData(row, key, g.value.id, today).Ok? && key in t.expenses
      && !Changed(t.expenses[key], ExpenseData(row, key, g.value.id, today).value, ExpenseCompareKeys)
  }

  /** The category a stored expense names, when its `category_id` holds a whole number. */
  predicate RefersToCategory(r: Record, categories: map<int, Category>) {
    var v := Attr(r, "category_id");
    v.Number? && v.x == v.x.Floor as real && v.x.Floor in categories
  }

  /** Every stored expense names a category of the table. */
  predicate CategoryRefsPresent(t: Tables) {
    forall k | k in t.expenses :: RefersToCategory(t.expenses[k], t.categories)
  }

  // ---- the commit ----

  /** A table as the database hands it back after the commit. */
  function ReloadTable(table: map<string, Record>): map<string, Record> {
    map k | k in table :: Reloaded(table[k])
  }

  /** The committed content of the three tables. */
  datatype Committed = Committed(categories: map<int, Category>, nextId: int, incomes: map<string, Record>, expenses: map<string, Record>)

  datatype SyncRun = SyncRun(result: Result<SyncSummary, SyncError>, store: Committed)

  /**
   * `sync_data` in a fresh session: the income loop, the expense loop, then
   * the commit, whose flush fails on a duplicate row id. An error discards
   * the session, so the store is as it was; after the commit the records
   * are what the database hands back.
   */
  ghost function Sync(s: Committed, incomeRows: seq<IncomeSheetRow>, expenseRows: seq<ExpenseSheetRow>, today: CalendarDate): SyncRun {
    var income := RunIncome(s.incomes, NoPending, incomeRows, NoCounts);
    match income.result
    case Err(e) => SyncRun(Err(e), s)
    case Ok(incomeCounts) =>
      var expense := RunExpenses(Tables(s.categories, s.nextId, s.expenses, income.pending), expenseRows, today, NoCounts);
      match expense.result
      case Err(e) => SyncRun(Err(e), s)
      case Ok(expenseCounts) =>
        var t := expense.tables;
        match t.pending.duplicate
        case Some(key) => SyncRun(Err(DuplicateRowId(key)), s)
        case None =>
          SyncRun(Ok(SyncSummary(incomeCounts, expenseCounts)),
                  Committed(t.categories, t.nextId, ReloadTable(income.table), ReloadTable(t.expenses)))
  }

  // ---- the database ----

  /** The session's upsert of one record into a table keyed by row id. */
  method UpsertRecord(table: map<string, Record>, pending: set<string>, key: string, data: Record, keys: seq<string>)
    returns (outcome: RowOutcome, table': map<string, Record>)
    ensures Upserted(outcome, table') == SessionUpsert(table, pending, key, data, keys)
  {
    if key in table && key !in pending {
      var changed := HasChanges(table[key], data, keys);
      if changed {
        outcome, table' := Updated, table[key := table[key] + data];
      } else {
        outcome, table' := Skipped, table;
      }
    } else {
      outcome, table' := Inserted, table[key := data];
    }
  }

  /**
   * The three tables the sync writes, and the session's pending records.
   * Category ids come from the table's sequence, modelled as the next id to
   * hand out.
   */
  class Database {
    var categories: map<int, Category>
    var nextCategoryId: int
    var incomes: map<string, Record>
    var expenses: map<string, Record>
    var pending: Pending

    ghost predicate Valid()
      reads this
    {
      TableValid(categories, nextCategoryId)
    }

    function ExpenseTables(): Tables
      reads this
    {
      Tables(categories, nextCategoryId, expenses, pending)
    }

    function Content(): Committed
      reads this
    {
      Committed(categories, nextCategoryId, incomes, expenses)
    }

    constructor ()
      ensures Valid()
      ensures Content() == Committed(map[], 1, map[], map[]) && pending == NoPending
    {
      categories := map[];
      nextCategoryId := 1;
      incomes := map[];
      expenses := map[];
      pending := NoPending;
    }

    /** Find the category `(name, parent)`, or insert it and flush. */
    method FindOrAddCategory(name: string, parent: Option<int>) returns (r: Result<int, SyncError>)
      requires Valid() && (parent.Some? ==> parent.value in categories)
      modifies this`categories, this`nextCategoryId, this`pending
      ensures Valid()
      ensures Resolved(r, ExpenseTables()) == FlushAdd(old(ExpenseTables()), name, parent)
      ensures r.Ok? ==> r.value in categories
    {
      FindOrAddStep(categories, nextCategoryId, name, parent);
      if exists id | id in categories :: categories[id] == Category(name, parent) {
        var id :| id in categories && categories[id] == Category(name, parent);
        FindUnique(categories, name, parent, id);
        return Ok(id);
      }
      if exists id | id in categories :: categories[id].name == name {
        return Err(CategoryConflict(name));
      }
      var id := nextCategoryId;
      categories := categories[id := Category(name, parent)];
      nextCategoryId := id + 1;
      var duplicate := pending.duplicate;
      pending := Flushed(pending);
      if duplicate.Some? {
        return Err(DuplicateRowId(duplicate.value));
      }
      return Ok(id);
    }

    /** `get_or_create_category`. */
    method GetOrCreateCategory(category: Option<string>, subcategory: Option<string>) returns (r: Result<int, SyncError>)
      requires Valid()
      modifies this`categories, this`nextCategoryId, this`pending
      ensures Valid()
      ensures Resolved(r, ExpenseTables()) == ResolveCategory(old(ExpenseTables()), category, subcategory)
    {
      var root := FindOrAddCategory(CategoryName(category), None);
      if root.Err? {
        return root;
      }
      var child := ChildName(subcategory);
      if child.None? {
        return root;
      }
      r := FindOrAddCategory(child.value, Some(root.value));
    }

    /** One iteration of the income loop. */
    method SyncIncomeRow(row: IncomeSheetRow) returns (r: Result<Option<RowOutcome>, SyncError>)
      modifies this`incomes, this`pending
      ensures RowStep(r, incomes, pending) == IncomeRowStep(old(incomes), old(pending), row)
    {
      var key := RowKey(row.rowId);
      if key.None? {
        return Ok(None);
      }
      var data := IncomeData(row, key.value);
      if data.Err? {
        return Err(data.error);
      }
      var outcome, table := UpsertRecord(incomes, pending.incomes, key.value, data.value, IncomeCompareKeys);
      incomes := table;
      if outcome == Inserted {
        pending := IncomeAdded(pending, key.value);
      }
      return Ok(Some(outcome));
    }

    /** The income loop. */
    method SyncIncomeRows(rows: seq<IncomeSheetRow>) returns (r: Result<Counts, SyncError>)
      modifies this`incomes, this`pending
      ensures IncomeRun(r, incomes, pending) == RunIncome(old(incomes), old(pending), rows, NoCounts)
    {
      var counts := NoCounts;
      for i := 0 to |rows|
        invariant RunIncome(incomes, pending, rows[i..], counts) == RunIncome(old(incomes), old(pending), rows, NoCounts)
      {
        assert rows[i..][1..] == rows[i + 1..];
        var outcome := SyncIncomeRow(rows[i]);
        if outcome.Err? {
          return Err(outcome.error);
        }
        counts := Count(counts, outcome.value);
      }
      assert rows[|rows|..] == [];
      return Ok(counts);
    }

    /** One iteration of the expense loop. */
    method SyncExpenseRow(row: ExpenseSheetRow, today: CalendarDate) returns (r: Result<Option<RowOutcome>, SyncError>)
      requires Valid()
      modifies this`categories, this`nextCategoryId, this`expenses, this`pending
      ensures Valid()
      ensures ExpenseStep(r, ExpenseTables()) == ExpenseRowStep(old(ExpenseTables()), row, today)
    {
      var key := RowKey(row.rowId);
      if key.None? {
        return Ok(None);
      }
      ghost var t := ExpenseTables();
      var categoryId := GetOrCreateCategory(CellText(row.category), CellText(row.subcategory));
      ghost var t' := ExpenseTables();
      if categoryId.Err? {
        assert ExpenseRowStep(t, row, today) == ExpenseStep(Err(categoryId.error), t');
        return Err(categoryId.error);
      }
      var data := ExpenseData(row, key.value, categoryId.value, today);
      if data.Err? {
        assert ExpenseRowStep(t, row, today) == ExpenseStep(Err(data.error), t');
        return Err(data.error);
      }
      var outcome, table := UpsertRecord(expenses, pending.expenses, key.value, data.value, ExpenseCompareKeys);
      expenses := table;
      if outcome == Inserted {
        pending := ExpenseAdded(pending, key.value);
      }
      assert ExpenseRowStep(t, row, today) == ExpenseStep(Ok(Some(outcome)), ExpenseTables());
      return Ok(Some(outcome));
    }

    /** The expense loop. */
    method SyncExpenseRows(rows: seq<ExpenseSheetRow>, today: CalendarDate) returns (r: Result<Counts, SyncError>)
      requires Valid()
      modifies this`categories, this`nextCategoryId, this`expenses, this`pending
      ensures Valid()
      ensures ExpenseRun(r, ExpenseTables()) == RunExpenses(old(ExpenseTables()), rows, today, NoCounts)
    {
      var counts := NoCounts;
      for i := 0 to |rows|
        invariant Valid()
        invariant RunExpenses(ExpenseTables(), rows[i..], today, counts) == RunExpenses(old(ExpenseTables()), rows, today, NoCounts)
      {
        assert rows[i..][1..] == rows[i + 1..];
        var outcome := SyncExpenseRow(rows[i], today);
        if outcome.Err? {
          return Err(outcome.error);
        }
        counts := Count(counts, outcome.value);
      }
      assert rows[|rows|..] == [];
      return Ok(counts);
    }

    /**
     * `sync_data` in a fresh session: both loops, then the commit. Any error
     * leaves every table as it was before the sync; the commit leaves the
     * records as the database hands them back.
     */
    method SyncData(incomeRows: seq<IncomeSheetRow>, expenseRows: seq<ExpenseSheetRow>, today: CalendarDate)
      returns (r: Result<SyncSummary, SyncError>)
      requires Valid()
      modifies this
      ensures Valid() && pending == NoPending
      ensures SyncRun(r, Content()) == Sync(old(Content()), incomeRows, expenseRows, today)
    {
      var saved := Content();
      pending := NoPending;
      var income := SyncIncomeRows(incomeRows);
      if income.Err? {
        incomes, pending := saved.incomes, NoPending;
        return Err(income.error);
      }
      var expense := SyncExpenseRows(expenseRows, today);
      if expense.Err? {
        incomes, categories, nextCategoryId, expenses := saved.incomes, saved.categories, saved.nextId, saved.expenses;
        pending := NoPending;
        return Err(expense.error);
      }
      if pending.duplicate.Some? {
        var key := pending.duplicate.value;
        incomes, categories, nextCategoryId, expenses := saved.incomes, saved.categories, saved.nextId, saved.expenses;
        pending := NoPending;
        return Err(DuplicateRowId(key));
      }
      incomes, expenses, pending := ReloadTable(incomes), ReloadTable(expenses), NoPending;
      return Ok(SyncSummary(income.value, expense.value));
    }
  }
}
