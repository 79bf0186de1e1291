/**
 * Per-period sums over rows that carry a period label: the model of
 * `df.groupby('period')[col].sum()` followed by `{p: totals.get(p, 0.0) for p in periods}`,
 * of boolean-mask row selection, and of `Series.unique()`.
 */
module PeriodSums {
  import opened Calendar
  import opened ReportPeriods

  /** A row after its `period` column has been assigned: a grouping key, its column and its amount. */
  datatype Posted<K> = Posted(key: K, period: Period, amount: real)

  /** A per-period figure of the report: a dict keyed by period label. */
  type PeriodMap = map<Period, real>

  function Last<T>(s: seq<T>): T
    requires |s| > 0
  {
    s[|s| - 1]
  }

  function Front<T>(s: seq<T>): seq<T>
    requires |s| > 0
  {
    s[..|s| - 1]
  }

  /** The sum of the amounts of the rows assigned to `p` (zero when there are none). */
  function PeriodSum<K>(rows: seq<Posted<K>>, p: Period): real
  {
    if rows == [] then 0.0
    else PeriodSum(Front(rows), p) + (if Last(rows).period == p then Last(rows).amount else 0.0)
  }

  /** `d.get(p, 0.0)`. */
  function Get(m: PeriodMap, p: Period): real {
    if p in m then m[p] else 0.0
  }

  predicate HasPeriods(m: PeriodMap, periods: seq<Period>) {
    m.Keys == set p | p in periods
  }

  /** The grouped sums, zero-filled over the planned periods and restricted to them. */
  function PeriodTotals<K>(rows: seq<Posted<K>>, periods: seq<Period>): (m: PeriodMap)
    ensures HasPeriods(m, periods)
  {
    map p | p in periods :: PeriodSum(rows, p)
  }

  /** `{period: 0.0 for period in periods}`. */
  function Zeros(periods: seq<Period>): (m: PeriodMap)
    ensures HasPeriods(m, periods)
    ensures forall p | p in m :: m[p] == 0.0
  {
    map p | p in periods :: 0.0
  }

  lemma {:induction false} PeriodSumAppend<K>(a: seq<Posted<K>>, b: seq<Posted<K>>, p: Period)
    ensures PeriodSum(a + b, p) == PeriodSum(a, p) + PeriodSum(b, p)
    decreases |b|
  {
    if b == [] {
      assert a + b == a;
    } else {
      assert Front(a + b) == a + Front(b);
      assert Last(a + b) == Last(b);
      PeriodSumAppend(a, Front(b), p);
    }
  }

  /** Rows none of which falls in `p` sum to zero there: the zero fill of an empty group. */
  lemma {:induction false} PeriodSumOfOtherPeriods<K>(rows: seq<Posted<K>>, p: Period)
    requires forall r | r in rows :: r.period != p
    ensures PeriodSum(rows, p) == 0.0
  {
    if rows != [] {
      assert Last(rows) in rows;
      assert forall r | r in Front(rows) :: r in rows;
      PeriodSumOfOtherPeriods(Front(rows), p);
    }
  }

  lemma PeriodTotalsOfEmpty<K>(periods: seq<Period>)
    ensures PeriodTotals<K>([], periods) == Zeros(periods)
  {
  }

  /** The sum of the amounts of all the rows. */
  function AmountSum<K>(rows: seq<Posted<K>>): real {
    if rows == [] then 0.0 else AmountSum(Front(rows)) + Last(rows).amount
  }

  /** The sum of the per-period sums over the columns `periods`. */
  function PeriodsSum<K>(rows: seq<Posted<K>>, periods: seq<Period>): real {
    if periods == [] then 0.0 else PeriodsSum(rows, Front(periods)) + PeriodSum(rows, Last(periods))
  }

  /** One row spread over distinct columns lands in exactly the one column that is its period. */
  lemma {:induction false} PeriodsSumOfRow<K>(r: Posted<K>, periods: seq<Period>)
    requires Distinct(periods)
    ensures PeriodsSum([r], periods) == if r.period in periods then r.amount else 0.0
  {
    if periods != [] {
      var front := Front(periods);
      assert Distinct(front);
      assert periods == front + [Last(periods)];
      assert Last(periods) !in front;
      assert Front([r]) == [] && Last([r]) == r;
      assert PeriodSum([r], Last(periods)) == if r.period == Last(periods) then r.amount else 0.0;
      PeriodsSumOfRow(r, front);
    }
  }

  lemma {:induction false} PeriodsSumAppend<K>(a: seq<Posted<K>>, b: seq<Posted<K>>, periods: seq<Period>)
    ensures PeriodsSum(a + b, periods) == PeriodsSum(a, periods) + PeriodsSum(b, periods)
  {
    if periods != [] {
      PeriodsSumAppend(a, b, Front(periods));
      PeriodSumAppend(a, b, Last(periods));
    }
  }

  /**
   * When every row's period is one of the distinct columns, the columns add up
   * to all the rows: each row is counted in exactly one column.
   */
  lemma {:induction false} PeriodsCoverRows<K>(rows: seq<Posted<K>>, periods: seq<Period>)
    requires Distinct(periods)
    requires forall r | r in rows :: r.period in periods
    ensures PeriodsSum(rows, periods) == AmountSum(rows)
  {
    if rows == [] {
      PeriodsOfNoRows<K>(periods);
    } else {
      var front, last := Front(rows), Last(rows);
      assert rows == front + [last];
      assert last in rows;
      assert forall r | r in front :: r in rows;
      PeriodsCoverRows(front, periods);
      PeriodsSumAppend(front, [last], periods);
      PeriodsSumOfRow(last, periods);
    }
  }

  lemma {:induction false} PeriodsOfNoRows<K>(periods: seq<Period>)
    ensures PeriodsSum<K>([], periods) == 0.0
  {
    if periods != [] {
      PeriodsOfNoRows<K>(Front(periods));
    }
  }

  /** The sum of a report line over its columns. */
  function ColumnsSum(m: PeriodMap, periods: seq<Period>): real {
    if periods == [] then 0.0 else ColumnsSum(m, Front(periods)) + Get(m, Last(periods))
  }

  /** Adding up the zero-filled columns of grouped sums is adding up the per-period sums. */
  lemma {:induction false} ColumnsOfTotals<K>(rows: seq<Posted<K>>, periods: seq<Period>, plan: seq<Period>)
    requires forall p | p in periods :: p in plan
    ensures ColumnsSum(PeriodTotals(rows, plan), periods) == PeriodsSum(rows, periods)
  {
    if periods != [] {
      assert Last(periods) in periods;
      assert forall p | p in Front(periods) :: p in periods;
      ColumnsOfTotals(rows, Front(periods), plan);
    }
  }

  /** `{period: a.get(period, 0.0) - b.get(period, 0.0) for period in periods}`. */
  function Difference(a: PeriodMap, b: PeriodMap, periods: seq<Period>): (m: PeriodMap)
    ensures HasPeriods(m, periods)
  {
    map p | p in periods :: Get(a, p) - Get(b, p)
  }

  /** `{period: a.get(period, 0.0) + b.get(period, 0.0) + c.get(period, 0.0) for period in periods}`. */
  function Sum3(a: PeriodMap, b: PeriodMap, c: PeriodMap, periods: seq<Period>): (m: PeriodMap)
    ensures HasPeriods(m, periods)
  {
    map p | p in periods :: Get(a, p) + Get(b, p) + Get(c, p)
  }

  /** Over the columns of the plan, a difference of lines adds up to the difference of their sums. */
  lemma {:induction false} ColumnsOfDifference(a: PeriodMap, b: PeriodMap, periods: seq<Period>, plan: seq<Period>)
    requires forall p | p in periods :: p in plan
    ensures ColumnsSum(Difference(a, b, plan), periods) == ColumnsSum(a, periods) - ColumnsSum(b, periods)
  {
    if periods != [] {
      assert Last(periods) in periods;
      assert forall p | p in Front(periods) :: p in periods;
      ColumnsOfDifference(a, b, Front(periods), plan);
    }
  }

  lemma {:induction false} ColumnsOfSum3(a: PeriodMap, b: PeriodMap, c: PeriodMap, periods: seq<Period>, plan: seq<Period>)
    requires forall p | p in periods :: p in plan
    ensures ColumnsSum(Sum3(a, b, c, plan), periods) == ColumnsSum(a, periods) + ColumnsSum(b, periods) + ColumnsSum(c, periods)
  {
    if periods != [] {
      assert Last(periods) in periods;
      assert forall p | p in Front(periods) :: p in periods;
      ColumnsOfSum3(a, b, c, Front(periods), plan);
    }
  }

  // ---- row selection ----

  /** `df[mask]` where the mask is a condition on the grouping key; keeps the order of the rows. */
  function Where<K>(rows: seq<Posted<K>>, keep: K -> bool): (r: seq<Posted<K>>)
    ensures |r| <= |rows|
    ensures forall x | x in r :: x in rows && keep(x.key)
    ensures forall x | x in rows && keep(x.key) :: x in r
  {
    if rows == [] then []
    else Where(Front(rows), keep) + (if keep(Last(rows).key) then [Last(rows)] else [])
  }

  /** Two masks that agree on the rows select the same rows. */
  lemma {:induction false} WhereCongruent<K>(rows: seq<Posted<K>>, a: K -> bool, b: K -> bool)
    requires forall r | r in rows :: a(r.key) == b(r.key)
    ensures Where(rows, a) == Where(rows, b)
  {
    if rows != [] {
      assert Last(rows) in rows;
      assert forall r | r in Front(rows) :: r in rows;
      WhereCongruent(Front(rows), a, b);
    }
  }

  /** Selecting twice is selecting by the conjunction. */
  lemma {:induction false} WhereWhere<K>(rows: seq<Posted<K>>, a: K -> bool, b: K -> bool, c: K -> bool)
    requires forall r | r in rows :: c(r.key) == (a(r.key) && b(r.key))
    ensures Where(Where(rows, a), b) == Where(rows, c)
  {
    if rows != [] {
      assert Last(rows) in rows;
      assert forall r | r in Front(rows) :: r in rows;
      WhereWhere(Front(rows), a, b, c);
      var w := Where(Front(rows), a);
      if a(Last(rows).key) {
        assert Where(rows, a) == w + [Last(rows)];
        assert Front(w + [Last(rows)]) == w;
      } else {
        assert Where(rows, a) == w;
      }
    }
  }

  /** A mask that holds of every row selects all of them. */
  lemma {:induction false} WhereAll<K>(rows: seq<Posted<K>>, a: K -> bool)
    requires forall r | r in rows :: a(r.key)
    ensures Where(rows, a) == rows
  {
    if rows != [] {
      var f, l := Front(rows), Last(rows);
      assert rows == f + [l];
      assert a(l.key) by { assert l in rows; }
      forall r | r in f ensures a(r.key) { assert r in rows; }
      WhereAll(f, a);
    }
  }

  /** A mask that holds of no row selects nothing. */
  lemma {:induction false} WhereNone<K>(rows: seq<Posted<K>>, a: K -> bool)
    requires forall r | r in rows :: !a(r.key)
    ensures Where(rows, a) == []
  {
    if rows != [] {
      assert Last(rows) in rows;
      assert forall r | r in Front(rows) :: r in rows;
      WhereNone(Front(rows), a);
    }
  }

  /** Splitting a selection by two disjoint masks splits its sums. */
  lemma {:induction false} WhereSplit<K>(rows: seq<Posted<K>>, a: K -> bool, b: K -> bool, c: K -> bool, p: Period)
    requires forall r | r in rows :: c(r.key) == (a(r.key) || b(r.key))
    requires forall r | r in rows :: !(a(r.key) && b(r.key))
    ensures PeriodSum(Where(rows, c), p) == PeriodSum(Where(rows, a), p) + PeriodSum(Where(rows, b), p)
  {
    if rows != [] {
      var f, l := Front(rows), Last(rows);
      assert l in rows;
      assert forall r | r in f :: r in rows;
      WhereSplit(f, a, b, c, p);
      var lc := if c(l.key) then [l] else [];
      var la := if a(l.key) then [l] else [];
      var lb := if b(l.key) then [l] else [];
      PeriodSumAppend(Where(f, c), lc, p);
      PeriodSumAppend(Where(f, a), la, p);
      PeriodSumAppend(Where(f, b), lb, p);
      assert PeriodSum(lc, p) == PeriodSum(la, p) + PeriodSum(lb, p) by {
        assert PeriodSum<K>([], p) == 0.0;
        if lc != [] {
          assert Front(lc) == [] && Last(lc) == l;
        }
        if la != [] {
          assert Front(la) == [] && Last(la) == l;
        }
        if lb != [] {
          assert Front(lb) == [] && Last(lb) == l;
        }
      }
    }
  }

  /** A column of the selected rows, as projected from their keys, in row order. */
  function Column<K, J>(rows: seq<Posted<K>>, f: K -> J): (c: seq<J>)
    ensures |c| == |rows|
    ensures forall r | r in rows :: f(r.key) in c
    ensures forall j | j in c :: exists r | r in rows :: f(r.key) == j
  {
    if rows == [] then []
    else
      assert forall x | x in Front(rows) :: x in rows;
      assert rows == Front(rows) + [Last(rows)];
      Column(Front(rows), f) + [f(Last(rows).key)]
  }

  lemma ColumnOfOne<K, J>(rows: seq<Posted<K>>, f: K -> J)
    requires |rows| == 1
    ensures Column(rows, f) == [f(rows[0].key)]
  {
    assert Front(rows) == [];
  }

  // ---- unique values ----

  /** The index at which `x` first appears in `s`. */
  function FirstIndex<T(==)>(s: seq<T>, x: T): (i: nat)
    requires x in s
    ensures i < |s| && s[i] == x
    ensures forall j | 0 <= j < i :: s[j] != x
  {
    if s[0] == x then 0
    else
      var i := FirstIndex(s[1..], x);
      assert forall j | 1 <= j <= i :: s[j] == s[1..][j - 1];
      1 + i
  }

  /** A value of the front of `s` first appears in `s` where it first appears in the front. */
  lemma FirstIndexFront<T>(s: seq<T>, x: T)
    requires |s| > 0 && x in Front(s)
    ensures FirstIndex(s, x) == FirstIndex(Front(s), x) < |s| - 1
  {
    var i := FirstIndex(Front(s), x);
    assert s[i] == Front(s)[i];
    assert forall j | 0 <= j < i :: s[j] == Front(s)[j];
  }

  /** `Series.unique()`: the distinct values, in order of first appearance. */
  function Unique<T(==)>(s: seq<T>): (u: seq<T>)
    ensures forall x | x in u :: x in s
    ensures forall x | x in s :: x in u
    ensures Distinct(u)
    ensures forall i, j | 0 <= i < j < |u| :: FirstIndex(s, u[i]) < FirstIndex(s, u[j])
  {
    if s == [] then []
    else
      var u := Unique(Front(s));
      assert forall x | x in Front(s) :: x in s;
      forall x | x in u ensures FirstIndex(s, x) == FirstIndex(Front(s), x) < |s| - 1 {
        FirstIndexFront(s, x);
      }
      if Last(s) in u then u
      else
        assert forall j | 0 <= j < |s| - 1 :: s[j] == Front(s)[j];
        assert FirstIndex(s, Last(s)) == |s| - 1;
        u + [Last(s)]
  }

  lemma UniqueExample()
    ensures Unique(["b", "a", "b", "c", "a"]) == ["b", "a", "c"]
  {
    assert Front(["b", "a", "b", "c", "a"]) == ["b", "a", "b", "c"];
    assert Front(["b", "a", "b", "c"]) == ["b", "a", "b"];
    assert Front(["b", "a", "b"]) == ["b", "a"];
    assert Front(["b", "a"]) == ["b"];
    assert Front(["b"]) == [];
  }

  // ---- grouping ----

  /** The rows whose key projects to `j`. */
  function Is<K, J(==)>(f: K -> J, j: J): K -> bool {
    k => f(k) == j
  }

  /** The rows whose key projects into `js`. */
  function In<K, J(==)>(f: K -> J, js: seq<J>): K -> bool {
    k => f(k) in js
  }

  /** The sum, over the groups named in `js`, of each group's total in `p`. */
  function GroupSum<K, J(==)>(rows: seq<Posted<K>>, f: K -> J, js: seq<J>, p: Period): real {
    if js == [] then 0.0
    else GroupSum(rows, f, Front(js), p) + PeriodSum(Where(rows, Is(f, Last(js))), p)
  }

  lemma {:induction false} GroupSumAppend<K, J>(rows: seq<Posted<K>>, f: K -> J, js: seq<J>, ks: seq<J>, p: Period)
    ensures GroupSum(rows, f, js + ks, p) == GroupSum(rows, f, js, p) + GroupSum(rows, f, ks, p)
    decreases |ks|
  {
    if ks == [] {
      assert js + ks == js;
    } else {
      assert Front(js + ks) == js + Front(ks);
      assert Last(js + ks) == Last(ks);
      GroupSumAppend(rows, f, js, Front(ks), p);
    }
  }

  /** Summing distinct groups is summing the rows of all of them. */
  lemma {:induction false} Partition<K, J>(rows: seq<Posted<K>>, f: K -> J, js: seq<J>, p: Period)
    requires Distinct(js)
    ensures GroupSum(rows, f, js, p) == PeriodSum(Where(rows, In(f, js)), p)
  {
    if js == [] {
      WhereNone(rows, In(f, js));
    } else {
      var front, last := Front(js), Last(js);
      assert Distinct(front);
      assert last !in front;
      assert js == front + [last];
      Partition(rows, f, front, p);
      WhereSplit(rows, In(f, front), Is(f, last), In(f, js), p);
    }
  }
}
