/**
 * What the import loops promise: how the summary counts relate to the rows,
 * which rows stop a sync, when a row id repeated in one session breaks the
 * commit, which records a sync writes and keeps, that the category table
 * stays valid and every stored expense names a category, and that syncing
 * the same rows a second time, on what the database handed back after the
 * first commit, skips every one.
 */
module IngestionProperties {
  import opened Wrappers
  import opened ReportData
  import opened Calendar
  import opened SheetText
  import opened SheetValues
  import opened SheetRows
  import opened CategoryTable
  import opened Ingestion

  // ---- one upsert in the session ----

  /**
   * A session upsert inserts exactly when no flushed record has the row id
   * or a pending one has it; it touches no other record.
   */
  lemma SessionUpsertOutcome(table: map<string, Record>, pending: set<string>, key: string, data: Record, keys: seq<string>)
    ensures var u := SessionUpsert(table, pending, key, data, keys);
            (u.outcome == Inserted <==> key !in table || key in pending)
            && u.table.Keys == table.Keys + {key}
            && (forall k | k in table && k != key :: u.table[k] == table[k])
            && (u.outcome == Skipped ==> u.table == table)
            && (u.outcome != Skipped ==> forall f | f in data :: u.table[key][f] == data[f])
  {
    UpsertOutcome(table, key, data, keys);
  }

  /** After a session upsert the key holds a record on which the same data shows no change. */
  lemma SessionUpsertLeavesSettled(table: map<string, Record>, pending: set<string>, key: string, data: Record, keys: seq<string>)
    requires NoEmptyMembers(data)
    ensures var u := SessionUpsert(table, pending, key, data, keys);
            key in u.table && !Changed(u.table[key], data, keys)
  {
    UpsertAgain(table, key, data, keys);
    UpsertAgain(map[], key, data, keys);
  }

  lemma CountTotal(c: Counts, outcome: Option<RowOutcome>)
    ensures Counted(Count(c, outcome)) == Counted(c) + (if outcome.Some? then 1 else 0)
    ensures Count(c, outcome).inserted == c.inserted + (if outcome == Some(Inserted) then 1 else 0)
  {
  }

  // ---- the income loop ----

  lemma {:induction false} IncomeKeySetMember(rows: seq<IncomeSheetRow>, k: string)
    ensures k in IncomeKeySet(rows) <==> exists i | 0 <= i < |rows| :: RowKey(rows[i].rowId) == Some(k)
    decreases |rows|
  {
    if rows != [] {
      IncomeKeySetMember(rows[1..], k);
      if k in IncomeKeySet(rows[1..]) {
        var i :| 0 <= i < |rows[1..]| && RowKey(rows[1..][i].rowId) == Some(k);
        assert rows[i + 1] == rows[1..][i];
      }
      if exists i | 0 <= i < |rows| :: RowKey(rows[i].rowId) == Some(k) {
        var i :| 0 <= i < |rows| && RowKey(rows[i].rowId) == Some(k);
        if i > 0 {
          assert rows[1..][i - 1] == rows[i];
        }
      }
    }
  }

  /**
   * One income row: it stops the sync exactly when it has a row id and a
   * `None` location; without a row id it does nothing; otherwise its id is
   * in the table afterwards, it is an insert exactly when no flushed record
   * has the id or a pending one has it, and no other record changes.
   */
  lemma IncomeRowStepFacts(table: map<string, Record>, p: Pending, row: IncomeSheetRow)
    ensures var step := IncomeRowStep(table, p, row);
            var key := RowKey(row.rowId);
            (step.result.Err? <==> BlocksIncome(row))
            && (step.result.Err? ==> step.table == table && step.pending == p && step.result.error.NoLocation?)
            && (step.result == Ok(None) <==> key.None?)
            && (key.None? ==> step.table == table && step.pending == p)
            && (key.Some? && step.result.Ok? ==>
                  step.table.Keys == table.Keys + {key.value}
                  && (step.result == Ok(Some(Inserted)) <==> key.value !in table || key.value in p.incomes)
                  && (forall k | k in table && k != key.value :: step.table[k] == table[k]))
  {
    var key := RowKey(row.rowId);
    if key.Some? {
      IncomeDataFails(row, key.value);
      if IncomeData(row, key.value).Ok? {
        SessionUpsertOutcome(table, p.incomes, key.value, IncomeData(row, key.value).value, IncomeCompareKeys);
      }
    }
  }

  /**
   * What one income row does to the session: an insert makes its id pending,
   * adding it a second time notes it as a duplicate, a noted duplicate
   * stays, and the pending expenses are untouched.
   */
  lemma IncomeRowStepPending(table: map<string, Record>, p: Pending, row: IncomeSheetRow)
    ensures var step := IncomeRowStep(table, p, row);
            var key := RowKey(row.rowId);
            step.pending.expenses == p.expenses && p.incomes <= step.pending.incomes
            && (p.duplicate.Some? ==> step.pending.duplicate == p.duplicate)
            && (key.None? || step.result.Err? ==> step.pending == p)
            && (key.Some? && step.result.Ok? ==>
                  step.pending.incomes <= p.incomes + {key.value}
                  && (step.result == Ok(Some(Inserted)) ==> key.value in step.pending.incomes)
                  && (key.value in p.incomes ==> step.pending.duplicate.Some?)
                  && (key.value !in p.incomes ==> step.pending.duplicate == p.duplicate))
  {
    var key := RowKey(row.rowId);
    if key.Some? && IncomeData(row, key.value).Ok? {
      SessionUpsertOutcome(table, p.incomes, key.value, IncomeData(row, key.value).value, IncomeCompareKeys);
    }
  }

  /** A synced income row is settled in the table it leaves. */
  lemma IncomeRowStepSettles(table: map<string, Record>, p: Pending, row: IncomeSheetRow)
    requires row.status != ""
    ensures var step := IncomeRowStep(table, p, row);
            step.result.Ok? ==> IncomeSettled(step.table, row)
  {
    var key := RowKey(row.rowId);
    if key.Some? && IncomeData(row, key.value).Ok? {
      IncomeMembersNonEmpty(row, key.value);
      SessionUpsertLeavesSettled(table, p.incomes, key.value, IncomeData(row, key.value).value, IncomeCompareKeys);
    }
  }

  /** Settledness of a row depends only on the record under its id. */
  lemma IncomeSettledMoves(table: map<string, Record>, table': map<string, Record>, row: IncomeSheetRow)
    requires IncomeSettled(table, row)
    requires forall k | k in table :: k in table' && table'[k] == table[k]
    ensures IncomeSettled(table', row)
  {
  }

  /** A completed income loop counts every row with a row id exactly once. */
  lemma {:induction false} RunIncomeCounts(table: map<string, Record>, p: Pending, rows: seq<IncomeSheetRow>, counts: Counts)
    ensures var run := RunIncome(table, p, rows, counts);
            run.result.Ok? ==> Counted(run.result.value) == Counted(counts) + KeyedIncome(rows)
    decreases |rows|
  {
    if rows != [] {
      var step := IncomeRowStep(table, p, rows[0]);
      if step.result.Ok? {
        IncomeRowStepFacts(table, p, rows[0]);
        CountTotal(counts, step.result.value);
        RunIncomeCounts(step.table, step.pending, rows[1..], Count(counts, step.result.value));
      }
    }
  }

  /**
   * After a completed income loop the table holds the old row ids and the
   * rows' ids, and every record under another id is as it was.
   */
  lemma {:induction false} RunIncomeKeys(table: map<string, Record>, p: Pending, rows: seq<IncomeSheetRow>, counts: Counts)
    ensures var run := RunIncome(table, p, rows, counts);
            run.result.Ok? ==>
              run.table.Keys == table.Keys + IncomeKeySet(rows)
              && (forall k | k in table && k !in IncomeKeySet(rows) :: run.table[k] == table[k])
    decreases |rows|
  {
    if rows != [] {
      var step := IncomeRowStep(table, p, rows[0]);
      if step.result.Ok? {
        IncomeRowStepFacts(table, p, rows[0]);
        RunIncomeKeys(step.table, step.pending, rows[1..], Count(counts, step.result.value));
      }
    }
  }

  /** Once the session has met a duplicate, the income loop keeps it on record, completed or not. */
  lemma {:induction false} RunIncomeKeepsDuplicate(table: map<string, Record>, p: Pending, rows: seq<IncomeSheetRow>, counts: Counts)
    requires p.duplicate.Some?
    ensures RunIncome(table, p, rows, counts).pending.duplicate == p.duplicate
    decreases |rows|
  {
    if rows != [] {
      var step := IncomeRowStep(table, p, rows[0]);
      IncomeRowStepPending(table, p, rows[0]);
      if step.result.Ok? {
        RunIncomeKeepsDuplicate(step.table, step.pending, rows[1..], Count(counts, step.result.value));
      }
    }
  }

  /**
   * The inserts a completed income loop counts are the records the table
   * gained, unless the loop added some row id twice.
   */
  lemma {:induction false} RunIncomeInserts(table: map<string, Record>, p: Pending, rows: seq<IncomeSheetRow>, counts: Counts)
    ensures var run := RunIncome(table, p, rows, counts);
            run.result.Ok? && run.pending.duplicate.None? ==>
              run.result.value.inserted + |table.Keys| == counts.inserted + |run.table.Keys|
    decreases |rows|
  {
    if rows != [] {
      var step := IncomeRowStep(table, p, rows[0]);
      if step.result.Ok? {
        IncomeRowStepFacts(table, p, rows[0]);
        IncomeRowStepPending(table, p, rows[0]);
        CountTotal(counts, step.result.value);
        RunIncomeInserts(step.table, step.pending, rows[1..], Count(counts, step.result.value));
        if step.pending.duplicate.Some? {
          RunIncomeKeepsDuplicate(step.table, step.pending, rows[1..], Count(counts, step.result.value));
        }
      }
    }
  }

  /** An income loop that stops, stops at a blocking row, with a missing location. */
  lemma {:induction false} RunIncomeFailsOnlyAtBlock(table: map<string, Record>, p: Pending, rows: seq<IncomeSheetRow>, counts: Counts)
    ensures var r := RunIncome(table, p, rows, counts).result;
            r.Err? ==> r.error.NoLocation? && exists i | 0 <= i < |rows| :: BlocksIncome(rows[i])
    decreases |rows|
  {
    if rows != [] {
      var step := IncomeRowStep(table, p, rows[0]);
      IncomeRowStepFacts(table, p, rows[0]);
      if step.result.Ok? {
        RunIncomeFailsOnlyAtBlock(step.table, step.pending, rows[1..], Count(counts, step.result.value));
        if exists i | 0 <= i < |rows[1..]| :: BlocksIncome(rows[1..][i]) {
          var i :| 0 <= i < |rows[1..]| && BlocksIncome(rows[1..][i]);
          assert rows[i + 1] == rows[1..][i];
        }
      }
    }
  }

  /** A blocking row stops the income loop. */
  lemma {:induction false} RunIncomeStopsAtBlock(table: map<string, Record>, p: Pending, rows: seq<IncomeSheetRow>, counts: Counts, i: int)
    requires 0 <= i < |rows| && BlocksIncome(rows[i])
    ensures RunIncome(table, p, rows, counts).result.Err?
    decreases |rows|
  {
    var step := IncomeRowStep(table, p, rows[0]);
    IncomeRowStepFacts(table, p, rows[0]);
    if step.result.Ok? {
      assert i > 0 && rows[1..][i - 1] == rows[i];
      RunIncomeStopsAtBlock(step.table, step.pending, rows[1..], Count(counts, step.result.value), i - 1);
    }
  }

  /** The income loop stops exactly when some row has a row id and a `None` location. */
  lemma RunIncomeFails(table: map<string, Record>, p: Pending, rows: seq<IncomeSheetRow>, counts: Counts)
    ensures RunIncome(table, p, rows, counts).result.Err? <==> exists i | 0 <= i < |rows| :: BlocksIncome(rows[i])
  {
    RunIncomeFailsOnlyAtBlock(table, p, rows, counts);
    if exists i | 0 <= i < |rows| :: BlocksIncome(rows[i]) {
      var i :| 0 <= i < |rows| && BlocksIncome(rows[i]);
      RunIncomeStopsAtBlock(table, p, rows, counts, i);
    }
  }

  /**
   * Rows the table already holds unchanged, in a session with no pending
   * income, are all skipped, and the table and the session are left as they are.
   */
  lemma {:induction false} RunIncomeSkipsSettled(table: map<string, Record>, p: Pending, rows: seq<IncomeSheetRow>, counts: Counts)
    requires p.incomes == {}
    requires forall i | 0 <= i < |rows| :: IncomeSettled(table, rows[i])
    ensures RunIncome(table, p, rows, counts) == IncomeRun(Ok(counts.(skipped := counts.skipped + KeyedIncome(rows))), table, p)
    decreases |rows|
  {
    if rows != [] {
      assert IncomeSettled(table, rows[0]);
      forall i | 0 <= i < |rows[1..]| ensures IncomeSettled(table, rows[1..][i]) {
        assert rows[1..][i] == rows[i + 1];
      }
      var step := IncomeRowStep(table, p, rows[0]);
      RunIncomeSkipsSettled(table, p, rows[1..], Count(counts, step.result.value));
    }
  }

  /** The row ids of the rows after the first, when no two rows share one. */
  lemma DistinctIncomeRest(rows: seq<IncomeSheetRow>)
    requires rows != [] && DistinctIncomeKeys(rows)
    ensures DistinctIncomeKeys(rows[1..])
    ensures RowKey(rows[0].rowId).Some? ==> RowKey(rows[0].rowId).value !in IncomeKeySet(rows[1..])
  {
    var rest := rows[1..];
    forall i, j | 0 <= i < j < |rest| && RowKey(rest[i].rowId).Some?
      ensures RowKey(rest[i].rowId) != RowKey(rest[j].rowId)
    {
      assert rest[i] == rows[i + 1] && rest[j] == rows[j + 1];
    }
    var key := RowKey(rows[0].rowId);
    if key.Some? {
      IncomeKeySetMember(rest, key.value);
    }
  }

  /** With distinct row ids, a completed income loop leaves every row settled in the table. */
  lemma {:induction false} RunIncomeSettles(table: map<string, Record>, p: Pending, rows: seq<IncomeSheetRow>, counts: Counts)
    requires DistinctIncomeKeys(rows)
    requires forall i | 0 <= i < |rows| :: rows[i].status != ""
    ensures var run := RunIncome(table, p, rows, counts);
            run.result.Ok? ==> forall i | 0 <= i < |rows| :: IncomeSettled(run.table, rows[i])
    decreases |rows|
  {
    var run := RunIncome(table, p, rows, counts);
    if rows != [] && run.result.Ok? {
      var step := IncomeRowStep(table, p, rows[0]);
      var rest := rows[1..];
      var counts' := Count(counts, step.result.value);
      assert run == RunIncome(step.table, step.pending, rest, counts');
      DistinctIncomeRest(rows);
      forall i | 0 <= i < |rest| ensures rest[i].status != "" {
        assert rest[i] == rows[i + 1];
      }
      RunIncomeSettles(step.table, step.pending, rest, counts');
      RunIncomeKeys(step.table, step.pending, rest, counts');
      IncomeRowStepSettles(table, p, rows[0]);
      var key := RowKey(rows[0].rowId);
      if key.Some? {
        assert run.table[key.value] == step.table[key.value];
      }
      forall i | 0 <= i < |rows| ensures IncomeSettled(run.table, rows[i]) {
        if i > 0 {
          assert rows[i] == rest[i - 1];
        }
      }
    }
  }

  /**
   * With distinct row ids none of which is pending, the income loop adds no
   * row id twice.
   */
  lemma {:induction false} RunIncomeNoDuplicate(table: map<string, Record>, p: Pending, rows: seq<IncomeSheetRow>, counts: Counts)
    requires DistinctIncomeKeys(rows) && IncomeKeySet(rows) !! p.incomes
    ensures RunIncome(table, p, rows, counts).pending.duplicate == p.duplicate
    decreases |rows|
  {
    if rows != [] {
      var step := IncomeRowStep(table, p, rows[0]);
      IncomeRowStepPending(table, p, rows[0]);
      if step.result.Ok? {
        DistinctIncomeRest(rows);
        RunIncomeNoDuplicate(step.table, step.pending, rows[1..], Count(counts, step.result.value));
      }
    }
  }

  /**
   * When a row id is already pending, or a duplicate is on record, a later
   * row with that id leaves a duplicate on record after a completed loop.
   */
  lemma {:induction false} RunIncomeHitsPending(table: map<string, Record>, p: Pending, rows: seq<IncomeSheetRow>, counts: Counts,
                                                k: string, j: int)
    requires 0 <= j < |rows| && RowKey(rows[j].rowId) == Some(k)
    requires k in p.incomes || p.duplicate.Some?
    ensures var run := RunIncome(table, p, rows, counts);
            run.result.Ok? ==> run.pending.duplicate.Some?
    decreases |rows|
  {
    var step := IncomeRowStep(table, p, rows[0]);
    IncomeRowStepPending(table, p, rows[0]);
    if step.result.Ok? {
      var counts' := Count(counts, step.result.value);
      if j == 0 {
        RunIncomeKeepsDuplicate(step.table, step.pending, rows[1..], counts');
      } else {
        assert rows[1..][j - 1] == rows[j];
        RunIncomeHitsPending(step.table, step.pending, rows[1..], counts', k, j - 1);
      }
    }
  }

  /**
   * A row id no flushed record has stays that way until a row inserts it,
   * and then it is pending.
   */
  lemma IncomeRowStepSeen(table: map<string, Record>, p: Pending, row: IncomeSheetRow, k: string)
    requires k in table ==> k in p.incomes
    requires IncomeRowStep(table, p, row).result.Ok?
    ensures var step := IncomeRowStep(table, p, row);
            (k in step.table ==> k in step.pending.incomes)
            && (RowKey(row.rowId) == Some(k) ==> k in step.pending.incomes)
  {
    IncomeRowStepFacts(table, p, row);
    IncomeRowStepPending(table, p, row);
  }

  /**
   * Two rows with one row id that no flushed record has: the second finds
   * no record (the first is still pending) and adds it again, so a
   * completed income loop leaves a duplicate on record.
   */
  lemma {:induction false} RunIncomeRepeatDuplicates(table: map<string, Record>, p: Pending, rows: seq<IncomeSheetRow>, counts: Counts,
                                                     k: string, i: int, j: int)
    requires 0 <= i < j < |rows| && RowKey(rows[i].rowId) == Some(k) && RowKey(rows[j].rowId) == Some(k)
    requires k in table ==> k in p.incomes
    ensures var run := RunIncome(table, p, rows, counts);
            run.result.Ok? ==> run.pending.duplicate.Some?
    decreases |rows|
  {
    var step := IncomeRowStep(table, p, rows[0]);
    if step.result.Ok? {
      IncomeRowStepSeen(table, p, rows[0], k);
      var counts' := Count(counts, step.result.value);
      assert rows[1..][j - 1] == rows[j];
      if i == 0 {
        RunIncomeHitsPending(step.table, step.pending, rows[1..], counts', k, j - 1);
      } else {
        assert rows[1..][i - 1] == rows[i];
        RunIncomeRepeatDuplicates(step.table, step.pending, rows[1..], counts', k, i - 1, j - 1);
      }
    }
  }

  /** A settled row stays settled in the table the database hands back. */
  lemma IncomeSettledReloads(table: map<string, Record>, row: IncomeSheetRow)
    requires IncomeSettled(table, row) && IncomeInCents(row)
    ensures IncomeSettled(ReloadTable(table), row)
  {
    var key := RowKey(row.rowId);
    if key.Some? {
      IncomeDataInCents(row, key.value);
      ReloadedKeepsSettled(table[key.value], IncomeData(row, key.value).value, IncomeCompareKeys);
    }
  }

  /**
   * Syncing the same income rows again, in a fresh session on the table the
   * first commit left as the database hands it back, skips every row with
   * a row id and changes nothing, when every amount is a whole number of cents.
   */
  lemma SyncIncomeTwice(table: map<string, Record>, rows: seq<IncomeSheetRow>)
    requires DistinctIncomeKeys(rows)
    requires forall i | 0 <= i < |rows| :: rows[i].status != "" && IncomeInCents(rows[i])
    requires RunIncome(table, NoPending, rows, NoCounts).result.Ok?
    ensures var stored := ReloadTable(RunIncome(table, NoPending, rows, NoCounts).table);
            RunIncome(stored, NoPending, rows, NoCounts) == IncomeRun(Ok(Counts(0, 0, KeyedIncome(rows))), stored, NoPending)
  {
    var first := RunIncome(table, NoPending, rows, NoCounts);
    RunIncomeSettles(table, NoPending, rows, NoCounts);
    forall i | 0 <= i < |rows| ensures IncomeSettled(ReloadTable(first.table), rows[i]) {
      IncomeSettledReloads(first.table, rows[i]);
    }
    RunIncomeSkipsSettled(ReloadTable(first.table), NoPending, rows, NoCounts);
  }

  // ---- resolving a category in the session ----

  /**
   * One find-or-add in the session does what the find-or-add function does
   * to the category table; it fails on a taken name, and when it inserts
   * while a duplicate is on record, the flush fails with that row id. It
   * keeps the expenses and the duplicate, and only a flush empties the
   * pending records.
   */
  lemma FlushAddFacts(t: Tables, name: string, parent: Option<int>)
    ensures var f := FlushAdd(t, name, parent);
            var o := FindOrAdd(t.categories, t.nextId, name, parent);
            f.tables.expenses == t.expenses && f.tables.pending.duplicate == t.pending.duplicate
            && (f.tables.pending == t.pending || f.tables.pending == Flushed(t.pending))
            && (o.Err? ==> f == Resolved(Err(CategoryConflict(o.error)), t))
            && (o.Ok? ==>
                  f.tables.categories == o.value.categories && f.tables.nextId == o.value.nextId
                  && (f.result == Ok(o.value.id)
                      || (t.pending.duplicate.Some? && f.result == Err(DuplicateRowId(t.pending.duplicate.value))))
                  && (t.pending.duplicate.None? ==> f.result == Ok(o.value.id)))
  {
  }

  /** On a valid table, a find-or-add that finds its row leaves the tables and the session as they are. */
  lemma FlushAddFound(t: Tables, name: string, parent: Option<int>, id: int)
    requires TableValid(t.categories, t.nextId)
    requires FindOrAdd(t.categories, t.nextId, name, parent) == Ok(CategoryStep(id, t.categories, t.nextId))
    ensures FlushAdd(t, name, parent) == Resolved(Ok(id), t)
  {
  }

  /**
   * Resolving a row's category in the session: it agrees with
   * `GetOrCreate` whenever it succeeds, and always when no duplicate is on
   * record; it fails whenever `GetOrCreate` fails; its only other error is
   * the duplicate on record. It keeps the expenses and the duplicate and
   * never adds pending records.
   */
  lemma ResolveCategoryFacts(t: Tables, category: Option<string>, subcategory: Option<string>)
    ensures var r := ResolveCategory(t, category, subcategory);
            var g := GetOrCreate(t.categories, t.nextId, category, subcategory);
            r.tables.expenses == t.expenses && r.tables.pending.duplicate == t.pending.duplicate
            && r.tables.pending.incomes <= t.pending.incomes && r.tables.pending.expenses <= t.pending.expenses
            && (r.result.Ok? ==>
                  g.Ok? && r.result.value == g.value.id
                  && r.tables.categories == g.value.categories && r.tables.nextId == g.value.nextId)
            && (g.Err? ==> r.result.Err?)
            && (t.pending.duplicate.None? && g.Err? ==> r.result == Err(CategoryConflict(g.error)))
            && (t.pending.duplicate.None? ==> r.result.Ok? == g.Ok?)
            && (r.result.Err? ==>
                  r.result.error.CategoryConflict?
                  || (r.result.error.DuplicateRowId? && t.pending.duplicate == Some(r.result.error.rowId)))
  {
    var name := CategoryName(category);
    FlushAddFacts(t, name, None);
    var root := FlushAdd(t, name, None);
    if root.result.Ok? && ChildName(subcategory).Some? {
      FlushAddFacts(root.tables, ChildName(subcategory).value, Some(root.result.value));
    }
  }

  /**
   * On a valid table, resolving keeps the table valid and every category,
   * and a resolved id names a category of the table.
   */
  lemma ResolveCategoryValid(t: Tables, category: Option<string>, subcategory: Option<string>)
    requires TableValid(t.categories, t.nextId)
    ensures var r := ResolveCategory(t, category, subcategory);
            TableValid(r.tables.categories, r.tables.nextId) && KeepsCategories(t.categories, r.tables.categories)
            && (r.result.Ok? ==> r.result.value in r.tables.categories)
  {
    var name := CategoryName(category);
    FlushAddFacts(t, name, None);
    FindOrAddStep(t.categories, t.nextId, name, None);
    var root := FlushAdd(t, name, None);
    if root.result.Ok? && ChildName(subcategory).Some? {
      var o := FindOrAdd(t.categories, t.nextId, name, None);
      FlushAddFacts(root.tables, ChildName(subcategory).value, Some(root.result.value));
      FindOrAddStep(root.tables.categories, root.tables.nextId, ChildName(subcategory).value, Some(root.result.value));
    }
  }

  /** On a valid table, a category `GetOrCreate` finds without creating anything is resolved with no flush. */
  lemma ResolveFound(t: Tables, category: Option<string>, subcategory: Option<string>, id: int)
    requires TableValid(t.categories, t.nextId)
    requires GetOrCreate(t.categories, t.nextId, category, subcategory) == Ok(CategoryStep(id, t.categories, t.nextId))
    ensures ResolveCategory(t, category, subcategory) == Resolved(Ok(id), t)
  {
    var name := CategoryName(category);
    var root := FindOrAdd(t.categories, t.nextId, name, None);
    FindOrAddStep(t.categories, t.nextId, name, None);
    if ChildName(subcategory).None? {
      FlushAddFound(t, name, None, id);
    } else {
      var child := ChildName(subcategory).value;
      FindOrAddStep(root.value.categories, root.value.nextId, child, Some(root.value.id));
      FlushAddFound(t, name, None, root.value.id);
      FlushAddFound(t, child, Some(root.value.id), id);
    }
  }

  // ---- the expense loop ----

  /**
   * A session upsert of data naming a category of the new table keeps every
   * stored expense naming a category, when the new table keeps the old categories.
   */
  lemma UpsertKeepsRefs(expenses: map<string, Record>, pending: set<string>, categories: map<int, Category>,
                        categories': map<int, Category>, key: string, data: Record)
    requires forall k | k in expenses :: RefersToCategory(expenses[k], categories)
    requires KeepsCategories(categories, categories') && RefersToCategory(data, categories')
    ensures var u := SessionUpsert(expenses, pending, key, data, ExpenseCompareKeys);
            forall k | k in u.table :: RefersToCategory(u.table[k], categories')
  {
    var u := SessionUpsert(expenses, pending, key, data, ExpenseCompareKeys);
    SessionUpsertOutcome(expenses, pending, key, data, ExpenseCompareKeys);
    forall k | k in u.table ensures RefersToCategory(u.table[k], categories') {
      if k == key && u.outcome != Skipped {
        assert Attr(data, "category_id") == Attr(u.table[k], "category_id");
      } else {
        assert u.table[k] == expenses[k];
        assert RefersToCategory(expenses[k], categories);
      }
    }
  }

  /**
   * One expense row keeps the category table valid and every category it
   * held, and, when every stored expense named a category, so does every
   * expense afterwards.
   */
  lemma ExpenseRowStepValid(t: Tables, row: ExpenseSheetRow, today: CalendarDate)
    requires TableValid(t.categories, t.nextId)
    ensures var step := ExpenseRowStep(t, row, today);
            TableValid(step.tables.categories, step.tables.nextId) && KeepsCategories(t.categories, step.tables.categories)
            && (CategoryRefsPresent(t) ==> CategoryRefsPresent(step.tables))
  {
    var key := RowKey(row.rowId);
    if key.Some? {
      var c := ResolveCategory(t, CellText(row.category), CellText(row.subcategory));
      ResolveCategoryValid(t, CellText(row.category), CellText(row.subcategory));
      ResolveCategoryFacts(t, CellText(row.category), CellText(row.subcategory));
      if c.result.Ok? && ExpenseData(row, key.value, c.result.value, today).Ok? && CategoryRefsPresent(t) {
        var data := ExpenseData(row, key.value, c.result.value, today).value;
        ExpenseDocNo(row, key.value, c.result.value, today);
        assert RefersToCategory(data, c.tables.categories);
        UpsertKeepsRefs(t.expenses, c.tables.pending.expenses, t.categories, c.tables.categories, key.value, data);
      }
    }
  }

  /** The expense loop, completed or not, keeps the category table valid and every category and reference. */
  lemma {:induction false} RunExpensesValid(t: Tables, rows: seq<ExpenseSheetRow>, today: CalendarDate, counts: Counts)
    requires TableValid(t.categories, t.nextId)
    ensures var run := RunExpenses(t, rows, today, counts);
            TableValid(run.tables.categories, run.tables.nextId) && KeepsCategories(t.categories, run.tables.categories)
            && (CategoryRefsPresent(t) ==> CategoryRefsPresent(run.tables))
    decreases |rows|
  {
    if rows != [] {
      var step := ExpenseRowStep(t, rows[0], today);
      ExpenseRowStepValid(t, rows[0], today);
      if step.result.Ok? {
        RunExpensesValid(step.tables, rows[1..], today, Count(counts, step.result.value));
      }
    }
  }

  /**
   * One expense row: without a row id it does nothing; it stops the sync
   * whenever its category cannot be created or its location is `None`, and,
   * with no duplicate on record, only then; otherwise its id is in the
   * expense table afterwards, an insert of an id the table already has
   * leaves a duplicate on record, and no other expense changes.
   */
  lemma ExpenseRowStepFacts(t: Tables, row: ExpenseSheetRow, today: CalendarDate)
    ensures var step := ExpenseRowStep(t, row, today);
            var key := RowKey(row.rowId);
            var g := GetOrCreate(t.categories, t.nextId, CellText(row.category), CellText(row.subcategory));
            (key.None? ==> step == ExpenseStep(Ok(None), t))
            && (key.Some? && (g.Err? || row.location.Blank?) ==> step.result.Err?)
            && (t.pending.duplicate.None? && step.result.Err? ==> key.Some? && (g.Err? || row.location.Blank?))
            && (key.Some? && step.result.Ok? ==>
                  step.result.value.Some?
                  && step.tables.expenses.Keys == t.expenses.Keys + {key.value}
                  && (step.result == Ok(Some(Inserted)) && key.value in t.expenses ==> step.tables.pending.duplicate.Some?)
                  && (step.result != Ok(Some(Inserted)) ==> key.value in t.expenses)
                  && (forall k | k in t.expenses && k != key.value :: step.tables.expenses[k] == t.expenses[k]))
  {
    var key := RowKey(row.rowId);
    if key.Some? {
      var c := ResolveCategory(t, CellText(row.category), CellText(row.subcategory));
      ResolveCategoryFacts(t, CellText(row.category), CellText(row.subcategory));
      if c.result.Ok? {
        ExpenseDataFails(row, key.value, c.result.value, today);
        if ExpenseData(row, key.value, c.result.value, today).Ok? {
          SessionUpsertOutcome(t.expenses, c.tables.pending.expenses, key.value,
                               ExpenseData(row, key.value, c.result.value, today).value, ExpenseCompareKeys);
        }
      }
    }
  }

  /**
   * What one expense row does to the session: a noted duplicate stays, an
   * id that is not pending notes none, pending records are added only for
   * the row's id, the only duplicate error is the one on record, and a row
   * never stops on a missing row id.
   */
  lemma ExpenseRowStepPending(t: Tables, row: ExpenseSheetRow, today: CalendarDate)
    ensures var step := ExpenseRowStep(t, row, today);
            var key := RowKey(row.rowId);
            step.tables.pending.incomes <= t.pending.incomes
            && (t.pending.duplicate.Some? ==> step.tables.pending.duplicate == t.pending.duplicate)
            && (key.Some? ==> step.tables.pending.expenses <= t.pending.expenses + {key.value})
            && (key.Some? && key.value !in t.pending.expenses ==> step.tables.pending.duplicate == t.pending.duplicate)
            && (step.result.Err? && step.result.error.DuplicateRowId? ==> t.pending.duplicate == Some(step.result.error.rowId))
  {
    var key := RowKey(row.rowId);
    if key.Some? {
      var c := ResolveCategory(t, CellText(row.category), CellText(row.subcategory));
      ResolveCategoryFacts(t, CellText(row.category), CellText(row.subcategory));
    }
  }

  /** A completed expense loop counts every row with a row id exactly once. */
  lemma {:induction false} RunExpensesCounts(t: Tables, rows: seq<ExpenseSheetRow>, today: CalendarDate, counts: Counts)
    ensures var run := RunExpenses(t, rows, today, counts);
            run.result.Ok? ==> Counted(run.result.value) == Counted(counts) + KeyedExpenses(rows)
    decreases |rows|
  {
    if rows != [] {
      var step := ExpenseRowStep(t, rows[0], today);
      if step.result.Ok? {
        ExpenseRowStepFacts(t, rows[0], today);
        CountTotal(counts, step.result.value);
        RunExpensesCounts(step.tables, rows[1..], today, Count(counts, step.result.value));
      }
    }
  }

  /** After a completed expense loop the expense table holds the old row ids and the rows' ids. */
  lemma {:induction false} RunExpensesKeys(t: Tables, rows: seq<ExpenseSheetRow>, today: CalendarDate, counts: Counts)
    ensures var run := RunExpenses(t, rows, today, counts);
            run.result.Ok? ==> run.tables.expenses.Keys == t.expenses.Keys + ExpenseKeySet(rows)
    decreases |rows|
  {
    if rows != [] {
      var step := ExpenseRowStep(t, rows[0], today);
      if step.result.Ok? {
        ExpenseRowStepFacts(t, rows[0], today);
        RunExpensesKeys(step.tables, rows[1..], today, Count(counts, step.result.value));
      }
    }
  }

  /** A completed expense loop leaves every expense under another row id as it was. */
  lemma {:induction false} RunExpensesKeepsOthers(t: Tables, rows: seq<ExpenseSheetRow>, today: CalendarDate, counts: Counts)
    ensures var run := RunExpenses(t, rows, today, counts);
            run.result.Ok? ==>
              forall k | k in t.expenses && k !in ExpenseKeySet(rows) :: k in run.tables.expenses && run.tables.expenses[k] == t.expenses[k]
    decreases |rows|
  {
    if rows != [] {
      var step := ExpenseRowStep(t, rows[0], today);
      if step.result.Ok? {
        ExpenseRowStepFacts(t, rows[0], today);
        RunExpensesKeepsOthers(step.tables, rows[1..], today, Count(counts, step.result.value));
      }
    }
  }

  /** Once the session has met a duplicate, the expense loop keeps it on record, completed or not. */
  lemma {:induction false} RunExpensesKeepsDuplicate(t: Tables, rows: seq<ExpenseSheetRow>, today: CalendarDate, counts: Counts)
    requires t.pending.duplicate.Some?
    ensures RunExpenses(t, rows, today, counts).tables.pending.duplicate == t.pending.duplicate
    decreases |rows|
  {
    if rows != [] {
      var step := ExpenseRowStep(t, rows[0], today);
      ExpenseRowStepPending(t, rows[0], today);
      if step.result.Ok? {
        RunExpensesKeepsDuplicate(step.tables, rows[1..], today, Count(counts, step.result.value));
      }
    }
  }

  /** Adding a key to a set grows it by one exactly when the key is new. */
  lemma KeyAdded(keys: set<string>, keys': set<string>, key: string, inserted: bool)
    requires keys' == keys + {key}
    requires inserted ==> key !in keys
    requires !inserted ==> key in keys
    ensures |keys'| == |keys| + (if inserted then 1 else 0)
  {
    if !inserted {
      assert keys' == keys;
    }
  }

  /** A completed expense row that leaves no duplicate on record gains a record exactly when it is an insert. */
  lemma ExpenseRowStepInserts(t: Tables, row: ExpenseSheetRow, today: CalendarDate)
    requires ExpenseRowStep(t, row, today).result.Ok? && ExpenseRowStep(t, row, today).tables.pending.duplicate.None?
    ensures var step := ExpenseRowStep(t, row, today);
            |step.tables.expenses.Keys| == |t.expenses.Keys| + (if step.result == Ok(Some(Inserted)) then 1 else 0)
  {
    var step := ExpenseRowStep(t, row, today);
    ExpenseRowStepFacts(t, row, today);
    var key := RowKey(row.rowId);
    if key.Some? {
      KeyAdded(t.expenses.Keys, step.tables.expenses.Keys, key.value, step.result == Ok(Some(Inserted)));
    }
  }

  /**
   * The inserts a completed expense loop counts are the expenses the table
   * gained, unless the session added some row id twice.
   */
  lemma {:induction false} RunExpensesInserts(t: Tables, rows: seq<ExpenseSheetRow>, today: CalendarDate, counts: Counts)
    ensures var run := RunExpenses(t, rows, today, counts);
            run.result.Ok? && run.tables.pending.duplicate.None? ==>
              run.result.value.inserted + |t.expenses.Keys| == counts.inserted + |run.tables.expenses.Keys|
    decreases |rows|
  {
    if rows != [] {
      var step := ExpenseRowStep(t, rows[0], today);
      if step.result.Ok? {
        var counts' := Count(counts, step.result.value);
        CountTotal(counts, step.result.value);
        RunExpensesInserts(step.tables, rows[1..], today, counts');
        if step.tables.pending.duplicate.Some? {
          RunExpensesKeepsDuplicate(step.tables, rows[1..], today, counts');
        } else {
          ExpenseRowStepInserts(t, rows[0], today);
        }
      }
    }
  }

  lemma {:induction false} ExpenseKeySetMember(rows: seq<ExpenseSheetRow>, k: string)
    ensures k in ExpenseKeySet(rows) <==> exists i | 0 <= i < |rows| :: RowKey(rows[i].rowId) == Some(k)
    decreases |rows|
  {
    if rows != [] {
      ExpenseKeySetMember(rows[1..], k);
      if k in ExpenseKeySet(rows[1..]) {
        var i :| 0 <= i < |rows[1..]| && RowKey(rows[1..][i].rowId) == Some(k);
        assert rows[i + 1] == rows[1..][i];
      }
      if exists i | 0 <= i < |rows| :: RowKey(rows[i].rowId) == Some(k) {
        var i :| 0 <= i < |rows| && RowKey(rows[i].rowId) == Some(k);
        if i > 0 {
          assert rows[1..][i - 1] == rows[i];
        }
      }
    }
  }

  lemma DistinctExpenseRest(rows: seq<ExpenseSheetRow>)
    requires rows != [] && DistinctExpenseKeys(rows)
    ensures DistinctExpenseKeys(rows[1..])
    ensures RowKey(rows[0].rowId).Some? ==> RowKey(rows[0].rowId).value !in ExpenseKeySet(rows[1..])
  {
    var rest := rows[1..];
    forall i, j | 0 <= i < j < |rest| && RowKey(rest[i].rowId).Some?
      ensures RowKey(rest[i].rowId) != RowKey(rest[j].rowId)
    {
      assert rest[i] == rows[i + 1] && rest[j] == rows[j + 1];
    }
    var key := RowKey(rows[0].rowId);
    if key.Some? {
      ExpenseKeySetMember(rest, key.value);
    }
  }

  /**
   * With distinct row ids none of which is pending, the expense loop adds
   * no row id twice and never fails on a duplicate row id, completed or not.
   */
  lemma {:induction false} RunExpensesNoDuplicate(t: Tables, rows: seq<ExpenseSheetRow>, today: CalendarDate, counts: Counts)
    requires DistinctExpenseKeys(rows) && ExpenseKeySet(rows) !! t.pending.expenses
    ensures var run := RunExpenses(t, rows, today, counts);
            run.tables.pending.duplicate == t.pending.duplicate
            && (run.result.Err? && run.result.error.DuplicateRowId? ==> t.pending.duplicate == Some(run.result.error.rowId))
    decreases |rows|
  {
    if rows != [] {
      var step := ExpenseRowStep(t, rows[0], today);
      ExpenseRowStepPending(t, rows[0], today);
      if step.result.Ok? {
        DistinctExpenseRest(rows);
        RunExpensesNoDuplicate(step.tables, rows[1..], today, Count(counts, step.result.value));
      }
    }
  }

  /** On a valid table, a settled expense row whose id is not pending is skipped and changes nothing. */
  lemma ExpenseSettledSkips(t: Tables, row: ExpenseSheetRow, today: CalendarDate)
    requires TableValid(t.categories, t.nextId) && ExpenseSettled(t, row, today)
    requires RowKey(row.rowId).Some? ==> RowKey(row.rowId).value !in t.pending.expenses
    ensures var step := ExpenseRowStep(t, row, today);
            step.tables == t && step.result == Ok(if RowKey(row.rowId).Some? then Some(Skipped) else None)
  {
    var key := RowKey(row.rowId);
    if key.Some? {
      var g := GetOrCreate(t.categories, t.nextId, CellText(row.category), CellText(row.subcategory));
      ResolveFound(t, CellText(row.category), CellText(row.subcategory), g.value.id);
    }
  }

  /** A synced expense row is settled in the tables it leaves. */
  lemma ExpenseRowStepSettles(t: Tables, row: ExpenseSheetRow, today: CalendarDate)
    requires TableValid(t.categories, t.nextId) && row.status != ""
    ensures var step := ExpenseRowStep(t, row, today);
            step.result.Ok? ==> ExpenseSettled(step.tables, row, today)
  {
    var key := RowKey(row.rowId);
    var category := CellText(row.category);
    var subcategory := CellText(row.subcategory);
    var c := ResolveCategory(t, category, subcategory);
    ResolveCategoryFacts(t, category, subcategory);
    if key.Some? && c.result.Ok? && ExpenseData(row, key.value, c.result.value, today).Ok? {
      GetOrCreateIdempotent(t.categories, t.nextId, category, subcategory);
      ExpenseMembersNonEmpty(row, key.value, c.result.value, today);
      SessionUpsertLeavesSettled(t.expenses, c.tables.pending.expenses, key.value,
                                 ExpenseData(row, key.value, c.result.value, today).value, ExpenseCompareKeys);
    }
  }

  /** A settled row stays settled in valid tables that keep its categories and its expense. */
  lemma ExpenseSettledMoves(t: Tables, t': Tables, row: ExpenseSheetRow, today: CalendarDate)
    requires ExpenseSettled(t, row, today)
    requires TableValid(t.categories, t.nextId) && TableValid(t'.categories, t'.nextId)
    requires KeepsCategories(t.categories, t'.categories)
    requires RowKey(row.rowId).Some? ==>
               var key := RowKey(row.rowId).value;
               key in t'.expenses && t'.expenses[key] == t.expenses[key]
    ensures ExpenseSettled(t', row, today)
  {
    var key := RowKey(row.rowId);
    if key.Some? {
      var category := CellText(row.category);
      var subcategory := CellText(row.subcategory);
      var g := GetOrCreate(t.categories, t.nextId, category, subcategory);
      GetOrCreateFoundStays(t.categories, t.nextId, t'.categories, t'.nextId, category, subcategory, g.value.id);
    }
  }

  ghost predicate AllExpensesSettled(t: Tables, rows: seq<ExpenseSheetRow>, today: CalendarDate) {
    forall i | 0 <= i < |rows| :: ExpenseSettled(t, rows[i], today)
  }

  lemma AllExpensesSettledRest(t: Tables, rows: seq<ExpenseSheetRow>, today: CalendarDate)
    requires rows != [] && AllExpensesSettled(t, rows, today)
    ensures AllExpensesSettled(t, rows[1..], today)
  {
    forall i | 0 <= i < |rows[1..]| ensures ExpenseSettled(t, rows[1..][i], today) {
      assert rows[1..][i] == rows[i + 1];
    }
  }

  lemma RunExpensesSkipFirst(t: Tables, rows: seq<ExpenseSheetRow>, today: CalendarDate, counts: Counts)
    requires TableValid(t.categories, t.nextId) && t.pending.expenses == {}
    requires rows != [] && ExpenseSettled(t, rows[0], today)
    ensures RunExpenses(t, rows, today, counts)
         == RunExpenses(t, rows[1..], today, Count(counts, if RowKey(rows[0].rowId).Some? then Some(Skipped) else None))
  {
    ExpenseSettledSkips(t, rows[0], today);
  }

  lemma CountSkips(c: Counts, keyed: bool, rest: nat)
    ensures var c' := Count(c, if keyed then Some(Skipped) else None);
            c'.(skipped := c'.skipped + rest) == c.(skipped := c.skipped + (if keyed then 1 else 0) + rest)
  {
  }

  /**
   * On a valid table, in a session with no pending expense, settled rows
   * are all skipped, and the tables and the session are left as they are.
   */
  lemma {:induction false} RunExpensesSkipsSettled(t: Tables, rows: seq<ExpenseSheetRow>, today: CalendarDate, counts: Counts)
    requires TableValid(t.categories, t.nextId) && t.pending.expenses == {}
    requires AllExpensesSettled(t, rows, today)
    ensures RunExpenses(t, rows, today, counts) == ExpenseRun(Ok(counts.(skipped := counts.skipped + KeyedExpenses(rows))), t)
    decreases |rows|
  {
    if rows == [] {
      assert counts.(skipped := counts.skipped + 0) == counts;
    } else {
      var keyed := RowKey(rows[0].rowId).Some?;
      var counts' := Count(counts, if keyed then Some(Skipped) else None);
      var rest := KeyedExpenses(rows[1..]);
      RunExpensesSkipFirst(t, rows, today, counts);
      AllExpensesSettledRest(t, rows, today);
      RunExpensesSkipsSettled(t, rows[1..], today, counts');
      CountSkips(counts, keyed, rest);
      assert KeyedExpenses(rows) == (if keyed then 1 else 0) + rest;
      assert RunExpenses(t, rows, today, counts) == ExpenseRun(Ok(counts'.(skipped := counts'.skipped + rest)), t);
    }
  }

  /** A fresh loop over settled rows counts every keyed row as skipped and changes nothing. */
  lemma SettledExpensesAllSkipped(t: Tables, rows: seq<ExpenseSheetRow>, today: CalendarDate)
    requires TableValid(t.categories, t.nextId) && t.pending.expenses == {}
    requires AllExpensesSettled(t, rows, today)
    ensures RunExpenses(t, rows, today, NoCounts) == ExpenseRun(Ok(Counts(0, 0, KeyedExpenses(rows))), t)
  {
    RunExpensesSkipsSettled(t, rows, today, NoCounts);
    assert NoCounts.(skipped := NoCounts.skipped + KeyedExpenses(rows)) == Counts(0, 0, KeyedExpenses(rows));
  }

  /** With distinct row ids, a completed expense loop leaves every row settled in the tables. */
  lemma {:induction false} RunExpensesSettles(t: Tables, rows: seq<ExpenseSheetRow>, today: CalendarDate, counts: Counts)
    requires TableValid(t.categories, t.nextId)
    requires DistinctExpenseKeys(rows)
    requires forall i | 0 <= i < |rows| :: rows[i].status != ""
    ensures var run := RunExpenses(t, rows, today, counts);
            run.result.Ok? ==> AllExpensesSettled(run.tables, rows, today)
    decreases |rows|
  {
    var run := RunExpenses(t, rows, today, counts);
    if rows != [] && run.result.Ok? {
      var step := ExpenseRowStep(t, rows[0], today);
      var rest := rows[1..];
      var counts' := Count(counts, step.result.value);
      assert run == RunExpenses(step.tables, rest, today, counts');
      ExpenseRowStepValid(t, rows[0], today);
      DistinctExpenseRest(rows);
      forall i | 0 <= i < |rest| ensures rest[i].status != "" {
        assert rest[i] == rows[i + 1];
      }
      RunExpensesSettles(step.tables, rest, today, counts');
      RunExpensesKeepsOthers(step.tables, rest, today, counts');
      RunExpensesValid(step.tables, rest, today, counts');
      ExpenseRowStepSettles(t, rows[0], today);
      ExpenseSettledMoves(step.tables, run.tables, rows[0], today);
      forall i | 0 <= i < |rows| ensures ExpenseSettled(run.tables, rows[i], today) {
        if i > 0 {
          assert rows[i] == rest[i - 1];
        }
      }
    }
  }

  /** A settled row stays settled in the expense table the database hands back, whatever the session. */
  lemma ExpenseSettledReloads(t: Tables, p: Pending, row: ExpenseSheetRow, today: CalendarDate)
    requires ExpenseSettled(t, row, today) && ExpenseInCents(row)
    ensures ExpenseSettled(Tables(t.categories, t.nextId, ReloadTable(t.expenses), p), row, today)
  {
    var key := RowKey(row.rowId);
    if key.Some? {
      var g := GetOrCreate(t.categories, t.nextId, CellText(row.category), CellText(row.subcategory));
      ExpenseDataInCents(row, key.value, g.value.id, today);
      ReloadedKeepsSettled(t.expenses[key.value], ExpenseData(row, key.value, g.value.id, today).value, ExpenseCompareKeys);
    }
  }

  /**
   * Syncing the same expense rows again, in a session with no pending
   * expense, on the tables the first loop left with the expenses as the
   * database hands them back, creates no category and skips every row with
   * a row id, when every amount is a whole number of cents.
   */
  lemma SyncExpensesTwice(t: Tables, rows: seq<ExpenseSheetRow>, today: CalendarDate, first: ExpenseRun, p: Pending)
    requires TableValid(t.categories, t.nextId)
    requires DistinctExpenseKeys(rows)
    requires forall i | 0 <= i < |rows| :: rows[i].status != "" && ExpenseInCents(rows[i])
    requires first == RunExpenses(t, rows, today, NoCounts) && first.result.Ok?
    requires p.expenses == {}
    ensures var t' := Tables(first.tables.categories, first.tables.nextId, ReloadTable(first.tables.expenses), p);
            RunExpenses(t', rows, today, NoCounts) == ExpenseRun(Ok(Counts(0, 0, KeyedExpenses(rows))), t')
  {
    var t' := Tables(first.tables.categories, first.tables.nextId, ReloadTable(first.tables.expenses), p);
    RunExpensesSettles(t, rows, today, NoCounts);
    RunExpensesValid(t, rows, today, NoCounts);
    forall i | 0 <= i < |rows| ensures ExpenseSettled(t', rows[i], today) {
      ExpenseSettledReloads(first.tables, p, rows[i], today);
    }
    SettledExpensesAllSkipped(t', rows, today);
  }

  /** An expense row without a row id touches nothing, not even the category table. */
  lemma ExpenseRowWithoutKey(t: Tables, row: ExpenseSheetRow, today: CalendarDate)
    requires RowKey(row.rowId).None?
    ensures ExpenseRowStep(t, row, today) == ExpenseStep(Ok(None), t)
  {
  }

  /**
   * A subcategory named like its category stops the expense loop at that
   * row, with the conflicting name when no duplicate is on record.
   */
  lemma ExpenseRowConflict(t: Tables, row: ExpenseSheetRow, today: CalendarDate)
    requires TableValid(t.categories, t.nextId)
    requires RowKey(row.rowId).Some?
    requires ChildName(CellText(row.subcategory)) == Some(CategoryName(CellText(row.category)))
    ensures ExpenseRowStep(t, row, today).result.Err?
    ensures t.pending.duplicate.None? ==>
              ExpenseRowStep(t, row, today).result == Err(CategoryConflict(CategoryName(CellText(row.category))))
  {
    ChildNamedAsParentFails(t.categories, t.nextId, CellText(row.category), CellText(row.subcategory));
    GetOrCreateConflict(t.categories, t.nextId, CellText(row.category), CellText(row.subcategory));
    ResolveCategoryFacts(t, CellText(row.category), CellText(row.subcategory));
  }

  // ---- the whole sync ----

  /** The income loop never touches the pending expenses. */
  lemma {:induction false} RunIncomeLeavesExpenses(table: map<string, Record>, p: Pending, rows: seq<IncomeSheetRow>, counts: Counts)
    ensures RunIncome(table, p, rows, counts).pending.expenses == p.expenses
    decreases |rows|
  {
    if rows != [] {
      var step := IncomeRowStep(table, p, rows[0]);
      IncomeRowStepPending(table, p, rows[0]);
      if step.result.Ok? {
        RunIncomeLeavesExpenses(step.table, step.pending, rows[1..], Count(counts, step.result.value));
      }
    }
  }

  /**
   * The database hands back a record under every row id it was given and
   * no other, handing it back again changes nothing, and the category an
   * expense names is kept.
   */
  lemma ReloadTableFacts(table: map<string, Record>, categories: map<int, Category>)
    ensures ReloadTable(table).Keys == table.Keys
    ensures ReloadTable(ReloadTable(table)) == ReloadTable(table)
    ensures (forall k | k in table :: RefersToCategory(table[k], categories)) ==>
              forall k | k in ReloadTable(table) :: RefersToCategory(ReloadTable(table)[k], categories)
  {
    forall k | k in table ensures Reloaded(Reloaded(table[k])) == Reloaded(table[k]) {
      ReloadedIdempotent(table[k]);
    }
    assert "category_id" !in NumericColumns;
  }

  /** A completed sync counts every row with a row id exactly once per tab. */
  lemma SyncCounts(s: Committed, incomeRows: seq<IncomeSheetRow>, expenseRows: seq<ExpenseSheetRow>, today: CalendarDate)
    ensures var run := Sync(s, incomeRows, expenseRows, today);
            run.result.Ok? ==>
              Counted(run.result.value.income) == KeyedIncome(incomeRows)
              && Counted(run.result.value.expenses) == KeyedExpenses(expenseRows)
  {
    var income := RunIncome(s.incomes, NoPending, incomeRows, NoCounts);
    RunIncomeCounts(s.incomes, NoPending, incomeRows, NoCounts);
    if income.result.Ok? {
      RunExpensesCounts(Tables(s.categories, s.nextId, s.expenses, income.pending), expenseRows, today, NoCounts);
    }
  }

  /** A completed sync commits tables holding the old row ids and the rows' ids. */
  lemma SyncKeys(s: Committed, incomeRows: seq<IncomeSheetRow>, expenseRows: seq<ExpenseSheetRow>, today: CalendarDate)
    ensures var run := Sync(s, incomeRows, expenseRows, today);
            run.result.Ok? ==>
              run.store.incomes.Keys == s.incomes.Keys + IncomeKeySet(incomeRows)
              && run.store.expenses.Keys == s.expenses.Keys + ExpenseKeySet(expenseRows)
  {
    var income := RunIncome(s.incomes, NoPending, incomeRows, NoCounts);
    RunIncomeKeys(s.incomes, NoPending, incomeRows, NoCounts);
    ReloadTableFacts(income.table, s.categories);
    if income.result.Ok? {
      var t := Tables(s.categories, s.nextId, s.expenses, income.pending);
      RunExpensesKeys(t, expenseRows, today, NoCounts);
      ReloadTableFacts(RunExpenses(t, expenseRows, today, NoCounts).tables.expenses, s.categories);
    }
  }

  /** The inserts a completed sync counts are the records each table gained. */
  lemma SyncInserts(s: Committed, incomeRows: seq<IncomeSheetRow>, expenseRows: seq<ExpenseSheetRow>, today: CalendarDate)
    ensures var run := Sync(s, incomeRows, expenseRows, today);
            run.result.Ok? ==>
              run.result.value.income.inserted + |s.incomes.Keys| == |run.store.incomes.Keys|
              && run.result.value.expenses.inserted + |s.expenses.Keys| == |run.store.expenses.Keys|
  {
    var income := RunIncome(s.incomes, NoPending, incomeRows, NoCounts);
    if income.result.Ok? {
      var t := Tables(s.categories, s.nextId, s.expenses, income.pending);
      var expense := RunExpenses(t, expenseRows, today, NoCounts);
      if expense.result.Ok? && expense.tables.pending.duplicate.None? {
        if income.pending.duplicate.Some? {
          RunExpensesKeepsDuplicate(t, expenseRows, today, NoCounts);
        }
        RunIncomeInserts(s.incomes, NoPending, incomeRows, NoCounts);
        RunExpensesInserts(t, expenseRows, today, NoCounts);
        ReloadTableFacts(income.table, s.categories);
        ReloadTableFacts(expense.tables.expenses, s.categories);
      }
    }
  }

  /**
   * A sync, completed or not, on a valid category table leaves it valid
   * with every category it held, and keeps every stored expense naming a
   * category.
   */
  lemma SyncKeepsCategories(s: Committed, incomeRows: seq<IncomeSheetRow>, expenseRows: seq<ExpenseSheetRow>, today: CalendarDate)
    requires TableValid(s.categories, s.nextId)
    ensures var run := Sync(s, incomeRows, expenseRows, today);
            TableValid(run.store.categories, run.store.nextId) && KeepsCategories(s.categories, run.store.categories)
            && ((forall k | k in s.expenses :: RefersToCategory(s.expenses[k], s.categories)) ==>
                  forall k | k in run.store.expenses :: RefersToCategory(run.store.expenses[k], run.store.categories))
  {
    var income := RunIncome(s.incomes, NoPending, incomeRows, NoCounts);
    if income.result.Ok? {
      var t := Tables(s.categories, s.nextId, s.expenses, income.pending);
      var expense := RunExpenses(t, expenseRows, today, NoCounts);
      RunExpensesValid(t, expenseRows, today, NoCounts);
      ReloadTableFacts(expense.tables.expenses, expense.tables.categories);
    }
  }

  /**
   * Two rows of the Income tab with one row id that the income table does
   * not hold yet make the sync fail, whatever else the tabs hold, and
   * nothing is kept: the second row adds the record again, and the flush of
   * the commit, or of the first new category, breaks the unique row-id index.
   */
  lemma RepeatedIncomeKeyFails(s: Committed, incomeRows: seq<IncomeSheetRow>, expenseRows: seq<ExpenseSheetRow>,
                               today: CalendarDate, i: int, j: int)
    requires 0 <= i < j < |incomeRows|
    requires RowKey(incomeRows[i].rowId).Some? && RowKey(incomeRows[j].rowId) == RowKey(incomeRows[i].rowId)
    requires RowKey(incomeRows[i].rowId).value !in s.incomes
    ensures var run := Sync(s, incomeRows, expenseRows, today);
            run.result.Err? && run.store == s
  {
    var k := RowKey(incomeRows[i].rowId).value;
    var income := RunIncome(s.incomes, NoPending, incomeRows, NoCounts);
    RunIncomeRepeatDuplicates(s.incomes, NoPending, incomeRows, NoCounts, k, i, j);
    if income.result.Ok? {
      RunExpensesKeepsDuplicate(Tables(s.categories, s.nextId, s.expenses, income.pending), expenseRows, today, NoCounts);
    }
  }

  /** When no tab repeats a row id, no sync fails on a duplicate row id. */
  lemma SyncWithDistinctKeys(s: Committed, incomeRows: seq<IncomeSheetRow>, expenseRows: seq<ExpenseSheetRow>, today: CalendarDate)
    requires DistinctIncomeKeys(incomeRows) && DistinctExpenseKeys(expenseRows)
    ensures var r := Sync(s, incomeRows, expenseRows, today).result;
            r.Err? ==> !r.error.DuplicateRowId?
  {
    var income := RunIncome(s.incomes, NoPending, incomeRows, NoCounts);
    RunIncomeNoDuplicate(s.incomes, NoPending, incomeRows, NoCounts);
    RunIncomeFailsOnlyAtBlock(s.incomes, NoPending, incomeRows, NoCounts);
    RunIncomeLeavesExpenses(s.incomes, NoPending, incomeRows, NoCounts);
    if income.result.Ok? {
      RunExpensesNoDuplicate(Tables(s.categories, s.nextId, s.expenses, income.pending), expenseRows, today, NoCounts);
    }
  }

  /**
   * Syncing the same rows a second time, on what the first commit left,
   * creates no category, skips every row with a row id in both tabs and
   * commits the same content, when no tab repeats a row id, every status is
   * set and every amount is a whole number of cents.
   */
  lemma SyncTwice(s: Committed, incomeRows: seq<IncomeSheetRow>, expenseRows: seq<ExpenseSheetRow>, today: CalendarDate)
    requires TableValid(s.categories, s.nextId)
    requires DistinctIncomeKeys(incomeRows) && DistinctExpenseKeys(expenseRows)
    requires forall i | 0 <= i < |incomeRows| :: incomeRows[i].status != "" && IncomeInCents(incomeRows[i])
    requires forall i | 0 <= i < |expenseRows| :: expenseRows[i].status != "" && ExpenseInCents(expenseRows[i])
    requires Sync(s, incomeRows, expenseRows, today).result.Ok?
    ensures var first := Sync(s, incomeRows, expenseRows, today).store;
            Sync(first, incomeRows, expenseRows, today)
            == SyncRun(Ok(SyncSummary(Counts(0, 0, KeyedIncome(incomeRows)), Counts(0, 0, KeyedExpenses(expenseRows)))), first)
  {
    var income := RunIncome(s.incomes, NoPending, incomeRows, NoCounts);
    var t := Tables(s.categories, s.nextId, s.expenses, income.pending);
    var expense := RunExpenses(t, expenseRows, today, NoCounts);
    var first := Sync(s, incomeRows, expenseRows, today).store;
    assert first == Committed(expense.tables.categories, expense.tables.nextId,
                              ReloadTable(income.table), ReloadTable(expense.tables.expenses));
    SyncIncomeTwice(s.incomes, incomeRows);
    SyncExpensesTwice(t, expenseRows, today, expense, NoPending);
    ReloadTableFacts(income.table, s.categories);
    ReloadTableFacts(expense.tables.expenses, s.categories);
  }

  // ---- two concrete syncs ----

  /** An income row with row id "7", amount `amount` and everything else left to its default. */
  function SampleIncome(amount: real): IncomeSheetRow {
    IncomeSheetRow(Given("7"), Absent, NoDate, Absent, Absent, Num(amount), NoNumber, NoNumber, "Paid", Absent)
  }

  lemma SampleIncomeKey(amount: real)
    ensures RowKey(SampleIncome(amount).rowId) == Some("7")
    ensures IncomeData(SampleIncome(amount), "7").Ok?
  {
    StripKeeps("7");
  }

  /**
   * The same row twice on an empty database: both are counted as inserts,
   * so the commit fails on row id "7" and nothing is kept.
   */
  lemma RepeatedRowExample(today: CalendarDate)
    ensures var rows := [SampleIncome(100.0), SampleIncome(100.0)];
            var run := RunIncome(map[], NoPending, rows, NoCounts);
            var empty := Committed(map[], 1, map[], map[]);
            run.result == Ok(Counts(2, 0, 0)) && run.pending.duplicate == Some("7")
            && Sync(empty, rows, [], today) == SyncRun(Err(DuplicateRowId("7")), empty)
  {
    var row := SampleIncome(100.0);
    SampleIncomeKey(100.0);
    var data := IncomeData(row, "7").value;
    var empty: map<string, Record> := map[];
    var step := IncomeRowStep(empty, NoPending, row);
    assert step == RowStep(Ok(Some(Inserted)), map["7" := data], Pending({"7"}, {}, None));
    var step' := IncomeRowStep(step.table, step.pending, row);
    assert step' == RowStep(Ok(Some(Inserted)), map["7" := data], Pending({"7"}, {}, Some("7")));
    assert [row, row][1..] == [row];
    assert [row][1..] == [];
  }

  /** The record of the sample row with amount 100.125, as the database hands it back, differs from the sheet row. */
  lemma FractionOfCentStored(data: Record)
    requires IncomeData(SampleIncome(100.125), "7") == Ok(data)
    ensures ReloadTable(map["7" := data]) == map["7" := Reloaded(data)]
    ensures Reloaded(data)["amount"] == Decimal(100.12)
    ensures Changed(Reloaded(data), data, IncomeCompareKeys)
  {
    CentsExamples();
    DecimalDiffersExamples();
    assert data["amount"] == Number(100.125);
    assert IncomeCompareKeys[3] == "amount";
  }

  /** The first sync of the sample row on an empty database inserts it. */
  lemma FractionOfCentFirst(today: CalendarDate, data: Record)
    requires IncomeData(SampleIncome(100.125), "7") == Ok(data)
    ensures Sync(Committed(map[], 1, map[], map[]), [SampleIncome(100.125)], [], today)
            == SyncRun(Ok(SyncSummary(Counts(1, 0, 0), NoCounts)), Committed(map[], 1, ReloadTable(map["7" := data]), map[]))
  {
    var row := SampleIncome(100.125);
    SampleIncomeKey(100.125);
    var empty: map<string, Record> := map[];
    assert [row][1..] == [];
    assert IncomeRowStep(empty, NoPending, row) == RowStep(Ok(Some(Inserted)), map["7" := data], Pending({"7"}, {}, None));
  }

  /** A second sync of the sample row, on the record the database handed back, updates it. */
  lemma FractionOfCentSecond(today: CalendarDate, data: Record)
    requires IncomeData(SampleIncome(100.125), "7") == Ok(data)
    ensures Sync(Committed(map[], 1, map["7" := Reloaded(data)], map[]), [SampleIncome(100.125)], [], today).result
            == Ok(SyncSummary(Counts(0, 1, 0), NoCounts))
  {
    var row := SampleIncome(100.125);
    SampleIncomeKey(100.125);
    FractionOfCentStored(data);
    var stored := map["7" := Reloaded(data)];
    var u := SessionUpsert(stored, {}, "7", data, IncomeCompareKeys);
    assert u.outcome == Updated;
    var step := IncomeRowStep(stored, NoPending, row);
    assert step == RowStep(Ok(Some(Updated)), u.table, NoPending);
    assert [row][1..] == [];
    assert RunIncome(stored, NoPending, [row], NoCounts) == IncomeRun(Ok(Counts(0, 1, 0)), u.table, NoPending);
  }

  /**
   * A row whose amount has a fraction of a cent: the first sync inserts it;
   * the database hands the amount back rounded to 100.12, which differs from
   * the sheet's 100.125, so the second sync updates the record again.
   */
  lemma FractionOfCentExample(today: CalendarDate)
    ensures var first := Sync(Committed(map[], 1, map[], map[]), [SampleIncome(100.125)], [], today);
            first.result == Ok(SyncSummary(Counts(1, 0, 0), NoCounts))
            && Sync(first.store, [SampleIncome(100.125)], [], today).result == Ok(SyncSummary(Counts(0, 1, 0), NoCounts))
  {
    SampleIncomeKey(100.125);
    var data := IncomeData(SampleIncome(100.125), "7").value;
    FractionOfCentFirst(today, data);
    FractionOfCentStored(data);
    FractionOfCentSecond(today, data);
  }
}
