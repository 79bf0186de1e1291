/**
 * The values the import compares and stores: a field of a stored record or of
 * the freshly built row data, the emptiness test `_is_empty` and the change
 * test `_has_changes`.
 */
module SheetValues {
  import opened Calendar
  import opened SheetText

  /**
   * A Python value held in a record field: `None`, a float NaN, a string, a
   * number, a date, a member of a string-valued enum (by its value), a bool,
   * or the `decimal.Decimal` a `Numeric` column hands back when a record is
   * loaded from the database.
   */
  datatype Value = Null | NaN | Text(s: string) | Number(x: real) | Day(d: Date) | Member(value: string) | Flag(b: bool)
                 | Decimal(exact: real)

  /** A record as a dict from field name to value. */
  type Record = map<string, Value>

  /** `getattr(existing, key, None)`. */
  function Attr(r: Record, key: string): Value {
    if key in r then r[key] else Null
  }

  /** `_is_empty`: None, NaN, or a string that is empty once stripped. */
  predicate IsEmpty(v: Value) {
    v == Null || v == NaN || (v.Text? && Strip(v.s) == "")
  }

  /** The kinds of value `_is_empty` accepts, stated without `strip`. */
  lemma IsEmptyCases(v: Value)
    ensures IsEmpty(v) <==> v.Null? || v.NaN? || (v.Text? && AllSpace(v.s))
  {
    if v.Text? {
      StripEmpty(v.s);
    }
  }

  /** `isinstance(v, (int, float))`; a bool is an int in Python. */
  predicate IsNumeric(v: Value) {
    v.Number? || v.NaN? || v.Flag?
  }

  /** `float(v)` of a numeric value other than NaN. */
  function AsReal(v: Value): real
    requires IsNumeric(v) && !v.NaN?
  {
    match v
    case Number(x) => x
    case Flag(b) => if b then 1.0 else 0.0
  }

  /** A string-valued enum member compares equal to its value. */
  function StrOf(v: Value): string
    requires v.Text? || v.Member?
  {
    if v.Text? then v.s else v.value
  }

  /** A value a `Decimal` compares with by its exact value: a number, a bool or another `Decimal`. */
  predicate IsExact(v: Value) {
    v.Number? || v.Flag? || v.Decimal?
  }

  function ExactOf(v: Value): real
    requires IsExact(v)
  {
    match v
    case Number(x) => x
    case Flag(b) => if b then 1.0 else 0.0
    case Decimal(e) => e
  }

  /**
   * Python `==` on two values that are not both an int or a float: strings
   * and string-valued enum members by their text, a `Decimal` by its exact
   * value; NaN equals nothing.
   */
  predicate PyEq(a: Value, b: Value) {
    if (a.Text? || a.Member?) && (b.Text? || b.Member?) then StrOf(a) == StrOf(b)
    else if (a.Decimal? || b.Decimal?) && IsExact(a) && IsExact(b) then ExactOf(a) == ExactOf(b)
    else a == b && !a.NaN?
  }

  /**
   * The enum normalisation of `_has_changes`: when the stored value is an enum
   * member both sides are replaced by their values (a falsy member by `None`).
   */
  function Normalized(existing: Value, incoming: Value): (Value, Value) {
    if existing.Member? then
      (if existing.value == "" then Null else Text(existing.value), if incoming.Member? then Text(incoming.value) else incoming)
    else (existing, incoming)
  }

  function Abs(x: real): real {
    if x < 0.0 then -x else x
  }

  /** Two numbers differ by more than 0.001; anything else differs by `!=`. */
  predicate FieldDiffers(existing: Value, incoming: Value) {
    var (e, n) := Normalized(existing, incoming);
    if IsNumeric(e) && IsNumeric(n) then
      !e.NaN? && !n.NaN? && Abs(AsReal(e) - AsReal(n)) > 0.001
    else !PyEq(e, n)
  }

  /** A value never differs from itself, except an enum member with an empty value. */
  lemma FieldDiffersSelf(v: Value)
    requires !(v.Member? && v.value == "")
    ensures !FieldDiffers(v, v)
  {
  }

  lemma FieldDiffersExamples()
    ensures !FieldDiffers(Number(100.0), Number(100.0005))
    ensures FieldDiffers(Number(100.0), Number(100.002))
    ensures !FieldDiffers(Number(1.0), Flag(true))
    ensures !FieldDiffers(Member("Paid"), Text("Paid")) && !FieldDiffers(Text("Paid"), Member("Paid"))
    ensures FieldDiffers(Member("Paid"), Member("Pending"))
    ensures !FieldDiffers(NaN, Number(3.0)) && FieldDiffers(Null, NaN)
    ensures FieldDiffers(Text("Bkk"), Text("Bkk "))
  {
  }

  /** A `Decimal` is not an int or a float: it meets no tolerance and equals only its exact value. */
  lemma DecimalDiffersExamples()
    ensures !FieldDiffers(Decimal(100.12), Number(100.12))
    ensures FieldDiffers(Decimal(100.12), Number(100.125))
    ensures FieldDiffers(Decimal(100.12), Number(100.1205))
    ensures !FieldDiffers(Decimal(1.0), Flag(true))
  {
  }

  /** Some compared key present in the new data holds a value that differs from the stored one. */
  predicate Changed(existing: Record, data: Record, keys: seq<string>) {
    exists i | 0 <= i < |keys| :: keys[i] in data && FieldDiffers(Attr(existing, keys[i]), data[keys[i]])
  }

  /** `_has_changes`: scan the compared keys in order and stop at the first that differs. */
  method HasChanges(existing: Record, data: Record, keys: seq<string>) returns (changed: bool)
    ensures changed <==> Changed(existing, data, keys)
  {
    for i := 0 to |keys|
      invariant forall j | 0 <= j < i :: !(keys[j] in data && FieldDiffers(Attr(existing, keys[j]), data[keys[j]]))
    {
      var key := keys[i];
      if key !in data {
        continue;
      }
      if FieldDiffers(Attr(existing, key), data[key]) {
        return true;
      }
    }
    return false;
  }

  /** A compared key the new data lacks never makes a difference. */
  lemma ChangedIgnoresMissingKey(existing: Record, data: Record, keys: seq<string>, key: string)
    requires key !in data
    ensures Changed(existing, data, keys + [key]) <==> Changed(existing, data, keys)
  {
    var ks := keys + [key];
    if Changed(existing, data, ks) {
      var i :| 0 <= i < |ks| && ks[i] in data && FieldDiffers(Attr(existing, ks[i]), data[ks[i]]);
      assert i < |keys| && keys[i] == ks[i];
    }
    if Changed(existing, data, keys) {
      var i :| 0 <= i < |keys| && keys[i] in data && FieldDiffers(Attr(existing, keys[i]), data[keys[i]]);
      assert ks[i] == keys[i];
    }
  }

  /** Only the compared keys matter: fields outside them may hold anything. */
  lemma ChangedOnlyByKeys(existing: Record, existing': Record, data: Record, keys: seq<string>)
    requires forall k | k in keys :: Attr(existing, k) == Attr(existing', k)
    ensures Changed(existing, data, keys) <==> Changed(existing', data, keys)
  {
    if Changed(existing, data, keys) {
      var i :| 0 <= i < |keys| && keys[i] in data && FieldDiffers(Attr(existing, keys[i]), data[keys[i]]);
      assert keys[i] in keys;
    }
    if Changed(existing', data, keys) {
      var i :| 0 <= i < |keys| && keys[i] in data && FieldDiffers(Attr(existing', keys[i]), data[keys[i]]);
      assert keys[i] in keys;
    }
  }

  /** Values an enum lookup or the import can produce: no enum member has an empty value. */
  predicate NoEmptyMembers(data: Record) {
    forall k | k in data :: !(data[k].Member? && data[k].value == "")
  }

  /** After `setattr` of every new field, the same data shows no change: a second sync skips the row. */
  lemma UpdateSettlesChanges(existing: Record, data: Record, keys: seq<string>)
    requires NoEmptyMembers(data)
    ensures !Changed(existing + data, data, keys)
  {
    forall i | 0 <= i < |keys| && keys[i] in data
      ensures !FieldDiffers(Attr(existing + data, keys[i]), data[keys[i]])
    {
      FieldDiffersSelf(data[keys[i]]);
    }
  }

  // ---- what a record loaded from the database holds ----

  /** The columns declared `Numeric(12, 2)` in both the income and the expenses table. */
  const NumericColumns: set<string> := {"amount", "vat", "grand_total"}

  /** `x * 100` is a whole number. */
  predicate WholeCents(x: real) {
    (x * 100.0).Floor as real == x * 100.0
  }

  /**
   * `x` rounded to two places, halves to the even cent: the `"%.2f"` format
   * through which SQLAlchemy reads a `Numeric(12, 2)` column from SQLite.
   */
  function Cents(x: real): (c: real)
    ensures WholeCents(c)
  {
    var y := x * 100.0;
    var n := y.Floor;
    var f := y - n as real;
    var m := if f < 0.5 then n else if f > 0.5 then n + 1 else if n % 2 == 0 then n else n + 1;
    assert (m as real / 100.0) * 100.0 == m as real;
    m as real / 100.0
  }

  /** A whole number of cents is its own rounding, and so is anything within 0.001 of it. */
  lemma CentsNear(x: real, y: real)
    requires WholeCents(x) && Abs(y - x) <= 0.001
    ensures Cents(y) == x
  {
    var n := (x * 100.0).Floor;
    var y100 := y * 100.0;
    assert n as real - 0.1 <= y100 <= n as real + 0.1;
    if y100 >= n as real {
      assert y100.Floor == n;
    } else {
      assert y100.Floor == n - 1;
    }
  }

  lemma CentsExamples()
    ensures Cents(100.125) == 100.12 && Cents(100.135) == 100.14 && Cents(100.1251) == 100.13
    ensures Cents(-0.004) == 0.0 && Cents(7.0) == 7.0
  {
    assert (100.125 * 100.0).Floor == 10012;
    assert (100.135 * 100.0).Floor == 10013;
    assert (100.1251 * 100.0).Floor == 10012;
    assert (-0.004 * 100.0).Floor == -1;
  }

  /**
   * What a `Numeric(12, 2)` column of a reloaded record holds: the stored
   * number as a `Decimal` rounded to cents; NaN and `None` come back as they are.
   */
  function Stored(v: Value): Value {
    if v.Number? || v.Flag? then Decimal(Cents(AsReal(v))) else v
  }

  /** Reloading a field that showed no change against a whole number of cents still shows none. */
  lemma StoredKeepsSettled(v: Value, x: real)
    requires WholeCents(x) && !FieldDiffers(v, Number(x))
    ensures !FieldDiffers(Stored(v), Number(x))
  {
    if v.Number? || v.Flag? {
      CentsNear(x, AsReal(v));
    }
  }

  /** A record as the database hands it back after the commit. */
  function Reloaded(r: Record): (r': Record)
    ensures r'.Keys == r.Keys
    ensures forall k | k in r :: r'[k] == if k in NumericColumns then Stored(r[k]) else r[k]
  {
    map k | k in r :: if k in NumericColumns then Stored(r[k]) else r[k]
  }

  /** A reloaded record reloads to itself. */
  lemma ReloadedIdempotent(r: Record)
    ensures Reloaded(Reloaded(r)) == Reloaded(r)
  {
  }

  /** Data whose `Numeric` fields are numbers holding whole cents. */
  predicate InCents(data: Record) {
    forall k | k in NumericColumns && k in data :: data[k].Number? && WholeCents(data[k].x)
  }

  /** A reloaded record shows no change for data in whole cents where the in-session record showed none. */
  lemma ReloadedKeepsSettled(r: Record, data: Record, keys: seq<string>)
    requires InCents(data) && !Changed(r, data, keys)
    ensures !Changed(Reloaded(r), data, keys)
  {
    forall i | 0 <= i < |keys| && keys[i] in data
      ensures !FieldDiffers(Attr(Reloaded(r), keys[i]), data[keys[i]])
    {
      var k := keys[i];
      assert !FieldDiffers(Attr(r, k), data[k]);
      if k in NumericColumns {
        assert Attr(Reloaded(r), k) == Stored(Attr(r, k));
        StoredKeepsSettled(Attr(r, k), data[k].x);
      }
    }
  }
}
