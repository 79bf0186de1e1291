/**
 * One sheet row of the Income or Expenses tab as `sync_data` reads it, the
 * record data it builds from that row (with the field defaults), and the
 * upsert of that data into a table keyed by `row_id`.
 */
module SheetRows {
  import opened Wrappers
  import opened Calendar
  import opened ReportData
  import opened SheetText
  import opened SheetValues

  /** A cell of a text column: the column is missing from the tab, the cell is `None`, or it holds a string. */
  datatype Cell = Absent | Blank | Given(s: string)

  /** A cell of a numeric column after coercion: missing or NaN, or a number. */
  datatype NumberCell = NoNumber | Num(x: real)

  /** A cell of a date column after coercion: missing or NaT, or a date. */
  datatype DateCell = NoDate | On(d: CalendarDate)

  /**
   * A row of the Income tab. `status` is the value of the `IncomeStatus`
   * member the row's status names (the enum lookup itself is not modelled).
   */
  datatype IncomeSheetRow = IncomeSheetRow(
    rowId: Cell, docNo: Cell, docDate: DateCell, customer: Cell, currency: Cell,
    amount: NumberCell, vat: NumberCell, grandTotal: NumberCell, status: string, location: Cell)

  /** A row of the Expenses tab; `status` and `kind` are the results of the two enum lookups. */
  datatype ExpenseSheetRow = ExpenseSheetRow(
    rowId: Cell, docNo: Cell, docDate: DateCell, overdueDate: DateCell, supplier: Cell, currency: Cell,
    amount: NumberCell, vat: NumberCell, grandTotal: NumberCell, status: string, kind: ExpenseType,
    location: Cell, category: Cell, subcategory: Cell)

  /**
   * Why a sync stops: a row's location is `None`, a category insert breaks
   * the unique name, or a flush writes two records with one row id.
   */
  datatype SyncError = NoLocation(rowId: string) | CategoryConflict(name: string) | DuplicateRowId(rowId: string)

  /** `row.get(column, default)` of a text column, as a stored value. */
  function TextOr(c: Cell, default: Value): Value {
    match c
    case Absent => default
    case Blank => Null
    case Given(s) => Text(s)
  }

  /** `row.get(column)` as the argument of `get_or_create_category`. */
  function CellText(c: Cell): Option<string> {
    if c.Given? then Some(c.s) else None
  }

  /** The row's key: `None` when `_is_empty(row_id)`, else `str(row_id).strip()`. */
  function RowKey(c: Cell): (key: Option<string>)
    ensures key.None? <==> IsEmpty(TextOr(c, Null))
    ensures key.Some? ==> c.Given? && key.value == Strip(c.s) && key.value != ""
  {
    if IsEmpty(TextOr(c, Null)) then None else Some(Strip(c.s))
  }

  /** The `doc_no` cell when it is not empty, else `"AUTO-" + row_id`. */
  function DocNo(c: Cell, key: string): Value {
    var raw := TextOr(c, Null);
    if !IsEmpty(raw) then raw else Text("AUTO-" + key)
  }

  /** `float(row["amount"]) if pd.notna(row.get("amount")) else 0.0`. */
  function AmountOf(c: NumberCell): real {
    if c.Num? then c.x else 0.0
  }

  /** The grand total when given, else amount plus VAT. */
  function GrandTotalOf(grandTotal: NumberCell, amount: NumberCell, vat: NumberCell): real {
    if grandTotal.Num? then grandTotal.x else AmountOf(amount) + AmountOf(vat)
  }

  function DateOr(c: DateCell, default: Value): Value {
    if c.On? then Day(c.d) else default
  }

  /** `row.get("location", "Unknown").title()`: a `None` cell has no `title` and stops the sync. */
  function LocationOf(c: Cell, key: string): Result<Value, SyncError> {
    match c
    case Absent => Ok(Text("Unknown"))
    case Blank => Err(NoLocation(key))
    case Given(s) => Ok(Text(Title(s)))
  }

  const IncomeCompareKeys: seq<string> := ["doc_date", "customer", "currency", "amount", "vat", "grand_total", "status", "location"]

  const ExpenseCompareKeys: seq<string> := ["doc_date", "overdue_date", "supplier", "currency", "amount", "vat", "grand_total",
                                            "status", "type", "location", "category_id"]

  /** The income record the sync writes, from the values it has worked out. */
  function IncomeRecord(key: string, docNo: Value, docDate: Value, customer: Value, currency: Value,
                        amount: real, vat: real, grandTotal: real, status: string, location: Value): Record
  {
    map["row_id" := Text(key), "doc_no" := docNo, "doc_date" := docDate, "customer" := customer,
        "currency" := currency, "amount" := Number(amount), "vat" := Number(vat),
        "grand_total" := Number(grandTotal), "status" := Member(status), "location" := location]
  }

  /** `income_data`. */
  function IncomeData(row: IncomeSheetRow, key: string): Result<Record, SyncError> {
    match LocationOf(row.location, key)
    case Err(e) => Err(e)
    case Ok(location) =>
      Ok(IncomeRecord(key, DocNo(row.docNo, key), DateOr(row.docDate, Null), TextOr(row.customer, Text("Unknown")),
                      TextOr(row.currency, Text("THB")), AmountOf(row.amount), AmountOf(row.vat),
                      GrandTotalOf(row.grandTotal, row.amount, row.vat), row.status, location))
  }

  /** The recurring categories, matched against the stripped category cell. */
  const RecurringCategories: set<string> := {"Alquiler", "Utilidades", "Gastos Personal", "Sueldos",
                                             "Internet, Agua y Electricidad", "Electricidad Nave"}

  /** `str(row.get("category", "")).strip()`. */
  function RecurringKey(c: Cell): string {
    match c
    case Absent => ""
    case Blank => "None"
    case Given(s) => Strip(s)
  }

  function TypeName(kind: ExpenseType): string {
    match kind
    case Capex => "CAPEX"
    case Opex => "OPEX"
    case Cogs => "COGS"
  }

  /** The expense record the sync writes, from the values it has worked out. */
  function ExpenseRecord(key: string, docNo: Value, docDate: Value, overdueDate: Value, supplier: Value, currency: Value,
                         amount: real, vat: real, grandTotal: real, status: string, kind: string, location: Value,
                         categoryId: int, recurring: bool): Record
  {
    map["row_id" := Text(key), "doc_no" := docNo, "doc_date" := docDate, "overdue_date" := overdueDate,
        "supplier" := supplier, "currency" := currency, "amount" := Number(amount), "vat" := Number(vat),
        "grand_total" := Number(grandTotal), "status" := Member(status), "type" := Member(kind),
        "location" := location, "category_id" := Number(categoryId as real), "is_recurring" := Flag(recurring),
        "recurrence_period" := if recurring then Text("monthly") else Null]
  }

  /** `expense_data`, given the category id the row resolved to and today's date. */
  function ExpenseData(row: ExpenseSheetRow, key: string, categoryId: int, today: CalendarDate): Result<Record, SyncError> {
    match LocationOf(row.location, key)
    case Err(e) => Err(e)
    case Ok(location) =>
      Ok(ExpenseRecord(key, DocNo(row.docNo, key), DateOr(row.docDate, Day(today)), DateOr(row.overdueDate, Null),
                       TextOr(row.supplier, Text("Unknown")), TextOr(row.currency, Text("THB")),
                       AmountOf(row.amount), AmountOf(row.vat), GrandTotalOf(row.grandTotal, row.amount, row.vat),
                       row.status, TypeName(row.kind), location, categoryId,
                       RecurringKey(row.category) in RecurringCategories))
  }

  /** The fields of an income record. */
  lemma IncomeRecordFields(key: string, docNo: Value, docDate: Value, customer: Value, currency: Value,
                           amount: real, vat: real, grandTotal: real, status: string, location: Value)
    ensures var r := IncomeRecord(key, docNo, docDate, customer, currency, amount, vat, grandTotal, status, location);
            r["row_id"] == Text(key) && r["doc_no"] == docNo && r["doc_date"] == docDate
            && r["amount"] == Number(amount) && r["vat"] == Number(vat) && r["grand_total"] == Number(grandTotal)
  {
  }

  /** The dated and amount fields of an expense record. */
  lemma ExpenseAmountFields(key: string, docNo: Value, docDate: Value, overdueDate: Value, supplier: Value, currency: Value,
                            amount: real, vat: real, grandTotal: real, status: string, kind: string, location: Value,
                            categoryId: int, recurring: bool)
    ensures var r := ExpenseRecord(key, docNo, docDate, overdueDate, supplier, currency, amount, vat, grandTotal,
                                   status, kind, location, categoryId, recurring);
            r["doc_date"] == docDate && r["amount"] == Number(amount) && r["vat"] == Number(vat)
            && r["grand_total"] == Number(grandTotal)
  {
  }

  /** The key and reference fields of an expense record. */
  lemma ExpenseKeyFields(key: string, docNo: Value, docDate: Value, overdueDate: Value, supplier: Value, currency: Value,
                            amount: real, vat: real, grandTotal: real, status: string, kind: string, location: Value,
                            categoryId: int, recurring: bool)
    ensures var r := ExpenseRecord(key, docNo, docDate, overdueDate, supplier, currency, amount, vat, grandTotal,
                                   status, kind, location, categoryId, recurring);
            r["row_id"] == Text(key) && r["doc_no"] == docNo
            && "category_id" in r && r["category_id"] == Number(categoryId as real)
            && r["is_recurring"] == Flag(recurring)
            && r["recurrence_period"] == (if recurring then Text("monthly") else Null)
  {
  }

  /**
   * The defaults of the amounts: a missing amount or VAT is zero and a missing
   * grand total is amount plus VAT; a missing document date stays `None`.
   */
  lemma IncomeDefaults(row: IncomeSheetRow, key: string)
    requires IncomeData(row, key).Ok?
    ensures var data := IncomeData(row, key).value;
            (row.amount.NoNumber? ==> data["amount"] == Number(0.0))
            && (row.vat.NoNumber? ==> data["vat"] == Number(0.0))
            && (row.grandTotal.NoNumber? ==> data["grand_total"] == Number(AmountOf(row.amount) + AmountOf(row.vat)))
            && (row.grandTotal.Num? ==> data["grand_total"] == Number(row.grandTotal.x))
            && (row.docDate.NoDate? ==> data["doc_date"] == Null)
  {
    var location := LocationOf(row.location, key).value;
    IncomeRecordFields(key, DocNo(row.docNo, key), DateOr(row.docDate, Null), TextOr(row.customer, Text("Unknown")),
                       TextOr(row.currency, Text("THB")), AmountOf(row.amount), AmountOf(row.vat),
                       GrandTotalOf(row.grandTotal, row.amount, row.vat), row.status, location);
  }

  /** The record carries the row id, and an empty document number becomes "AUTO-" and the row id. */
  lemma IncomeDocNo(row: IncomeSheetRow, key: string)
    requires IncomeData(row, key).Ok?
    ensures var data := IncomeData(row, key).value;
            (IsEmpty(TextOr(row.docNo, Null)) ==> data["doc_no"] == Text("AUTO-" + key))
            && (!IsEmpty(TextOr(row.docNo, Null)) ==> data["doc_no"] == Text(row.docNo.s))
            && data["row_id"] == Text(key)
  {
    var location := LocationOf(row.location, key).value;
    IncomeRecordFields(key, DocNo(row.docNo, key), DateOr(row.docDate, Null), TextOr(row.customer, Text("Unknown")),
                       TextOr(row.currency, Text("THB")), AmountOf(row.amount), AmountOf(row.vat),
                       GrandTotalOf(row.grandTotal, row.amount, row.vat), row.status, location);
  }

  /** The amount defaults of an expense; a missing document date becomes today. */
  lemma ExpenseDefaults(row: ExpenseSheetRow, key: string, categoryId: int, today: CalendarDate)
    requires ExpenseData(row, key, categoryId, today).Ok?
    ensures var data := ExpenseData(row, key, categoryId, today).value;
            (row.amount.NoNumber? ==> data["amount"] == Number(0.0))
            && (row.vat.NoNumber? ==> data["vat"] == Number(0.0))
            && (row.grandTotal.NoNumber? ==> data["grand_total"] == Number(AmountOf(row.amount) + AmountOf(row.vat)))
            && (row.docDate.NoDate? ==> data["doc_date"] == Day(today))
  {
    var location := LocationOf(row.location, key).value;
    ExpenseAmountFields(key, DocNo(row.docNo, key), DateOr(row.docDate, Day(today)), DateOr(row.overdueDate, Null),
                        TextOr(row.supplier, Text("Unknown")), TextOr(row.currency, Text("THB")),
                        AmountOf(row.amount), AmountOf(row.vat), GrandTotalOf(row.grandTotal, row.amount, row.vat),
                        row.status, TypeName(row.kind), location, categoryId,
                        RecurringKey(row.category) in RecurringCategories);
  }

  /** The expense record carries the row id and the category id, and an empty document number is generated. */
  lemma ExpenseDocNo(row: ExpenseSheetRow, key: string, categoryId: int, today: CalendarDate)
    requires ExpenseData(row, key, categoryId, today).Ok?
    ensures var data := ExpenseData(row, key, categoryId, today).value;
            (IsEmpty(TextOr(row.docNo, Null)) ==> data["doc_no"] == Text("AUTO-" + key))
            && data["row_id"] == Text(key)
            && "category_id" in data && data["category_id"] == Number(categoryId as real)
  {
    var location := LocationOf(row.location, key).value;
    ExpenseKeyFields(key, DocNo(row.docNo, key), DateOr(row.docDate, Day(today)), DateOr(row.overdueDate, Null),
                     TextOr(row.supplier, Text("Unknown")), TextOr(row.currency, Text("THB")),
                     AmountOf(row.amount), AmountOf(row.vat), GrandTotalOf(row.grandTotal, row.amount, row.vat),
                     row.status, TypeName(row.kind), location, categoryId,
                     RecurringKey(row.category) in RecurringCategories);
  }

  /** An expense is recurring exactly when its stripped category is one of the recurring ones, and then monthly. */
  lemma ExpenseRecurring(row: ExpenseSheetRow, key: string, categoryId: int, today: CalendarDate)
    requires ExpenseData(row, key, categoryId, today).Ok?
    ensures var data := ExpenseData(row, key, categoryId, today).value;
            (data["is_recurring"] == Flag(true) <==> RecurringKey(row.category) in RecurringCategories)
            && (data["is_recurring"] == Flag(true) <==> data["recurrence_period"] == Text("monthly"))
  {
    var location := LocationOf(row.location, key).value;
    ExpenseKeyFields(key, DocNo(row.docNo, key), DateOr(row.docDate, Day(today)), DateOr(row.overdueDate, Null),
                     TextOr(row.supplier, Text("Unknown")), TextOr(row.currency, Text("THB")),
                     AmountOf(row.amount), AmountOf(row.vat), GrandTotalOf(row.grandTotal, row.amount, row.vat),
                     row.status, TypeName(row.kind), location, categoryId,
                     RecurringKey(row.category) in RecurringCategories);
  }

  /** The three amounts of an income row hold whole cents. */
  predicate IncomeInCents(row: IncomeSheetRow) {
    WholeCents(AmountOf(row.amount)) && WholeCents(AmountOf(row.vat))
    && WholeCents(GrandTotalOf(row.grandTotal, row.amount, row.vat))
  }

  /** The three amounts of an expense row hold whole cents. */
  predicate ExpenseInCents(row: ExpenseSheetRow) {
    WholeCents(AmountOf(row.amount)) && WholeCents(AmountOf(row.vat))
    && WholeCents(GrandTotalOf(row.grandTotal, row.amount, row.vat))
  }

  /** The `Numeric` fields of an income row's data are the row's amounts, so they hold whole cents when those do. */
  lemma IncomeDataInCents(row: IncomeSheetRow, key: string)
    requires IncomeInCents(row) && IncomeData(row, key).Ok?
    ensures InCents(IncomeData(row, key).value)
  {
    var location := LocationOf(row.location, key).value;
    IncomeRecordFields(key, DocNo(row.docNo, key), DateOr(row.docDate, Null), TextOr(row.customer, Text("Unknown")),
                       TextOr(row.currency, Text("THB")), AmountOf(row.amount), AmountOf(row.vat),
                       GrandTotalOf(row.grandTotal, row.amount, row.vat), row.status, location);
  }

  /** The same for an expense row. */
  lemma ExpenseDataInCents(row: ExpenseSheetRow, key: string, categoryId: int, today: CalendarDate)
    requires ExpenseInCents(row) && ExpenseData(row, key, categoryId, today).Ok?
    ensures InCents(ExpenseData(row, key, categoryId, today).value)
  {
    var location := LocationOf(row.location, key).value;
    ExpenseAmountFields(key, DocNo(row.docNo, key), DateOr(row.docDate, Day(today)), DateOr(row.overdueDate, Null),
                        TextOr(row.supplier, Text("Unknown")), TextOr(row.currency, Text("THB")),
                        AmountOf(row.amount), AmountOf(row.vat), GrandTotalOf(row.grandTotal, row.amount, row.vat),
                        row.status, TypeName(row.kind), location, categoryId,
                        RecurringKey(row.category) in RecurringCategories);
  }

  /** The data of an income row fails only for a `None` location. */
  lemma IncomeDataFails(row: IncomeSheetRow, key: string)
    ensures IncomeData(row, key).Err? <==> row.location.Blank?
  {
  }

  /** The data of an expense row fails only for a `None` location. */
  lemma ExpenseDataFails(row: ExpenseSheetRow, key: string, categoryId: int, today: CalendarDate)
    ensures ExpenseData(row, key, categoryId, today).Err? <==> row.location.Blank?
  {
  }

  /** Every enum member an income record holds has a non-empty value when its status does. */
  lemma IncomeRecordMembers(key: string, docNo: Value, docDate: Value, customer: Value, currency: Value,
                            amount: real, vat: real, grandTotal: real, status: string, location: Value)
    requires status != ""
    requires !docNo.Member? && !docDate.Member? && !customer.Member? && !currency.Member? && !location.Member?
    ensures NoEmptyMembers(IncomeRecord(key, docNo, docDate, customer, currency, amount, vat, grandTotal, status, location))
  {
  }

  /** Every enum member an expense record holds has a non-empty value when its status and type do. */
  lemma ExpenseRecordMembers(key: string, docNo: Value, docDate: Value, overdueDate: Value, supplier: Value, currency: Value,
                             amount: real, vat: real, grandTotal: real, status: string, kind: string, location: Value,
                             categoryId: int, recurring: bool)
    requires status != "" && kind != ""
    requires !docNo.Member? && !docDate.Member? && !overdueDate.Member? && !supplier.Member? && !currency.Member?
    requires !location.Member?
    ensures NoEmptyMembers(ExpenseRecord(key, docNo, docDate, overdueDate, supplier, currency, amount, vat, grandTotal,
                                         status, kind, location, categoryId, recurring))
  {
  }

  /** The data of an income row holds no empty enum member when the row's status is not empty. */
  lemma IncomeMembersNonEmpty(row: IncomeSheetRow, key: string)
    requires row.status != ""
    ensures IncomeData(row, key).Ok? ==> NoEmptyMembers(IncomeData(row, key).value)
  {
    if IncomeData(row, key).Ok? {
      IncomeRecordMembers(key, DocNo(row.docNo, key), DateOr(row.docDate, Null), TextOr(row.customer, Text("Unknown")),
                          TextOr(row.currency, Text("THB")), AmountOf(row.amount), AmountOf(row.vat),
                          GrandTotalOf(row.grandTotal, row.amount, row.vat), row.status,
                          LocationOf(row.location, key).value);
    }
  }

  /** The data of an expense row holds no empty enum member when the row's status is not empty. */
  lemma ExpenseMembersNonEmpty(row: ExpenseSheetRow, key: string, categoryId: int, today: CalendarDate)
    requires row.status != ""
    ensures ExpenseData(row, key, categoryId, today).Ok? ==> NoEmptyMembers(ExpenseData(row, key, categoryId, today).value)
  {
    if ExpenseData(row, key, categoryId, today).Ok? {
      ExpenseRecordMembers(key, DocNo(row.docNo, key), DateOr(row.docDate, Day(today)), DateOr(row.overdueDate, Null),
                           TextOr(row.supplier, Text("Unknown")), TextOr(row.currency, Text("THB")),
                           AmountOf(row.amount), AmountOf(row.vat), GrandTotalOf(row.grandTotal, row.amount, row.vat),
                           row.status, TypeName(row.kind), LocationOf(row.location, key).value, categoryId,
                           RecurringKey(row.category) in RecurringCategories);
    }
  }

  // ---- the upsert ----

  datatype RowOutcome = Inserted | Updated | Skipped

  datatype Upserted = Upserted(outcome: RowOutcome, table: map<string, Record>)

  /**
   * Match by row id: insert when no record has it; otherwise overwrite every
   * field of the new data when some compared field changed, else skip.
   */
  function Upsert(table: map<string, Record>, key: string, data: Record, keys: seq<string>): Upserted {
    if key !in table then Upserted(Inserted, table[key := data])
    else if Changed(table[key], data, keys) then Upserted(Updated, table[key := table[key] + data])
    else Upserted(Skipped, table)
  }

  /**
   * Exactly one outcome per row: an insert only for a new row id, an update
   * only when a compared field changed, a skip otherwise; no other record is
   * touched, and afterwards the key holds a record agreeing with the data.
   */
  lemma UpsertOutcome(table: map<string, Record>, key: string, data: Record, keys: seq<string>)
    ensures var u := Upsert(table, key, data, keys);
            (u.outcome == Inserted <==> key !in table)
            && (u.outcome == Updated <==> key in table && Changed(table[key], data, keys))
            && (u.outcome == Skipped <==> key in table && !Changed(table[key], data, keys))
            && u.table.Keys == table.Keys + {key}
            && (forall k | k in table && k != key :: u.table[k] == table[k])
            && (u.outcome != Skipped ==> forall f | f in data :: u.table[key][f] == data[f])
            && (u.outcome == Skipped ==> u.table == table)
  {
  }

  /** Upserting the same data again skips it and leaves the table as it is. */
  lemma UpsertAgain(table: map<string, Record>, key: string, data: Record, keys: seq<string>)
    requires NoEmptyMembers(data)
    ensures var u := Upsert(table, key, data, keys);
            Upsert(u.table, key, data, keys) == Upserted(Skipped, u.table)
  {
    var u := Upsert(table, key, data, keys);
    if u.outcome == Inserted {
      assert data + data == data;
      UpdateSettlesChanges(data, data, keys);
    } else if u.outcome == Updated {
      UpdateSettlesChanges(table[key], data, keys);
    }
  }
}
