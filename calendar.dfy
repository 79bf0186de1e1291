/**
 * Calendar dates, month indices and the period labels of a report.
 * A Python `date` always holds a valid day of the Gregorian calendar
 * between years 1 and 9999; `CalendarDate` is that type.
 */
module Calendar {

  datatype Date = Date(year: int, month: int, day: int)

  predicate IsLeapYear(y: int) {
    y % 4 == 0 && (y % 100 != 0 || y % 400 == 0)
  }

  function DaysInMonth(y: int, m: int): (n: int)
    requires 1 <= m <= 12
    ensures 28 <= n <= 31
  {
    if m == 2 then (if IsLeapYear(y) then 29 else 28)
    else if m == 4 || m == 6 || m == 9 || m == 11 then 30
    else 31
  }

  predicate IsCalendarDate(d: Date) {
    1 <= d.year <= 9999 && 1 <= d.month <= 12 && 1 <= d.day <= DaysInMonth(d.year, d.month)
  }

  type CalendarDate = d: Date | IsCalendarDate(d) witness Date(2000, 1, 1)

  /** Python's `a <= b` on dates: lexicographic on (year, month, day). */
  predicate Le(a: Date, b: Date) {
    a.year < b.year || (a.year == b.year && (a.month < b.month || (a.month == b.month && a.day <= b.day)))
  }

  /** Months since January of year 0: consecutive calendar months have consecutive indices. */
  function MonthIndex(d: Date): int {
    d.year * 12 + (d.month - 1)
  }

  /** The month difference of the range check, which ignores the day of month. */
  function MonthsDiff(start: Date, end: Date): int {
    (end.year - start.year) * 12 + (end.month - start.month)
  }

  /** A report column: the whole range, or one calendar month as (month, year mod 100). */
  datatype Period = Total | Month(month: int, yy: int)

  /** The `mmm-yy` label of the month holding `d` (`d.strftime('%b-%y').lower()`). */
  function MonthLabel(d: Date): Period {
    Month(d.month, d.year % 100)
  }

  /** The label of the month with index `k`. */
  function LabelOfIndex(k: int): Period {
    Month(k % 12 + 1, (k / 12) % 100)
  }

  /** The label of the month after `p`; December rolls over to January of the next year. */
  function NextLabel(p: Period): Period {
    match p
    case Total => Total
    case Month(m, yy) => if m == 12 then Month(1, (yy + 1) % 100) else Month(m + 1, yy)
  }

  predicate WellFormedLabel(p: Period) {
    p.Total? || (1 <= p.month <= 12 && 0 <= p.yy < 100)
  }

  const MonthNames: seq<string> :=
    ["jan", "feb", "mar", "apr", "may", "jun", "jul", "aug", "sep", "oct", "nov", "dec"]

  function Digit(n: int): char
    requires 0 <= n < 10
  {
    "0123456789"[n]
  }

  /** The text of a label as it appears as a key of the report: "Total" or e.g. "sep-24". */
  function LabelText(p: Period): (s: string)
    requires WellFormedLabel(p)
    ensures p.Total? ==> |s| == 5
    ensures p.Month? ==> |s| == 6 && s[3] == '-'
  {
    match p
    case Total => "Total"
    case Month(m, yy) => MonthNames[m - 1] + "-" + [Digit(yy / 10), Digit(yy % 10)]
  }

  // ---- arithmetic facts about month indices ----

  lemma MonthIndexLabel(d: Date)
    requires 1 <= d.month <= 12
    ensures LabelOfIndex(MonthIndex(d)) == MonthLabel(d)
  {
    var k := MonthIndex(d);
    assert k == 12 * d.year + (d.month - 1);
    assert k / 12 == d.year && k % 12 == d.month - 1;
  }

  lemma MonthsDiffIsIndexDistance(start: Date, end: Date)
    ensures MonthsDiff(start, end) == MonthIndex(end) - MonthIndex(start)
  {
  }

  lemma LeMonthIndex(a: Date, b: Date)
    requires 1 <= a.month <= 12 && 1 <= b.month <= 12
    requires Le(a, b)
    ensures MonthIndex(a) <= MonthIndex(b)
  {
  }

  /** On first-of-month dates, `<=` is exactly `<=` on month indices. */
  lemma LeFirstOfMonth(a: Date, b: Date)
    requires 1 <= a.month <= 12 && 1 <= b.month <= 12 && a.day == 1 && b.day == 1
    ensures Le(a, b) <==> MonthIndex(a) <= MonthIndex(b)
  {
  }

  lemma {:induction false} NextLabelOfIndex(k: int)
    ensures LabelOfIndex(k + 1) == NextLabel(LabelOfIndex(k))
  {
    var q, r := k / 12, k % 12;
    assert k == 12 * q + r && 0 <= r < 12;
    if r == 11 {
      assert k + 1 == 12 * (q + 1) + 0;
      assert (k + 1) / 12 == q + 1 && (k + 1) % 12 == 0;
      assert (q + 1) % 100 == ((q % 100) + 1) % 100;
    } else {
      assert k + 1 == 12 * q + (r + 1);
      assert (k + 1) / 12 == q && (k + 1) % 12 == r + 1;
    }
  }

  /** Labels of month indices closer than 1200 months (100 years) never coincide. */
  lemma {:induction false} LabelOfIndexInjective(a: int, b: int)
    requires a < b < a + 1200
    ensures LabelOfIndex(a) != LabelOfIndex(b)
  {
    if a % 12 == b % 12 {
      var qa, qb := a / 12, b / 12;
      assert b - a == 12 * (qb - qa);
      assert 0 < qb - qa < 100;
    }
  }

  /** Distinct well-formed labels have distinct texts. */
  lemma LabelTextInjective(p: Period, q: Period)
    requires WellFormedLabel(p) && WellFormedLabel(q)
    requires LabelText(p) == LabelText(q)
    ensures p == q
  {
    if p.Month? && q.Month? {
      var s, t := LabelText(p), LabelText(q);
      assert s[..3] == MonthNames[p.month - 1] && t[..3] == MonthNames[q.month - 1];
      assert p.month == q.month;
      assert s[4] == Digit(p.yy / 10) && t[4] == Digit(q.yy / 10);
      assert s[5] == Digit(p.yy % 10) && t[5] == Digit(q.yy % 10);
      assert p.yy / 10 == q.yy / 10 && p.yy % 10 == q.yy % 10;
    }
  }

  lemma LabelTextExample()
    ensures LabelText(Month(9, 24)) == "sep-24"
    ensures LabelText(MonthLabel(Date(2024, 11, 3))) == "nov-24"
  {
  }
}
