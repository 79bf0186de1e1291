/**
 * The period planner shared by the P&L and cashflow services: the date range
 * check, the list of report columns, and the column a document date falls in.
 */
module ReportPeriods {
  import opened Wrappers
  import opened Calendar

  datatype Format = Yearly | Monthly

  /** The report format named by the request, if it is one of the two accepted names. */
  function ParseFormat(name: string): (r: Option<Format>)
    ensures r == Some(Yearly) <==> name == "yearly"
    ensures r == Some(Monthly) <==> name == "monthly"
    ensures r.None? <==> name != "yearly" && name != "monthly"
  {
    if name == "yearly" then Some(Yearly)
    else if name == "monthly" then Some(Monthly)
    else None
  }

  datatype RangeError =
    | StartAfterEnd(start: CalendarDate, end: CalendarDate)
    | SpanTooLong(start: CalendarDate, end: CalendarDate, monthsDifference: int)

  const MaxMonths := 12

  /** The date range check: start not after end, and at most 12 months apart by calendar month. */
  function ValidateDateRange(start: CalendarDate, end: CalendarDate): (r: Outcome<RangeError>)
    ensures r.Pass? <==> Le(start, end) && MonthsDiff(start, end) <= MaxMonths
    ensures r == Fail(StartAfterEnd(start, end)) <==> !Le(start, end)
    ensures r.Fail? && r.error.SpanTooLong? ==>
              Le(start, end) && r.error.monthsDifference == MonthsDiff(start, end) > MaxMonths
  {
    if !Le(start, end) then Fail(StartAfterEnd(start, end))
    else
      var monthsDiff := MonthsDiff(start, end);
      if monthsDiff > MaxMonths then Fail(SpanTooLong(start, end, monthsDiff))
      else Pass
  }

  /** The day of month plays no part in the check: only the months of the two dates matter. */
  lemma ValidateIgnoresDay(start: CalendarDate, end: CalendarDate, start': CalendarDate, end': CalendarDate)
    requires Le(start, end) && Le(start', end')
    requires start.year == start'.year && start.month == start'.month
    requires end.year == end'.year && end.month == end'.month
    ensures ValidateDateRange(start, end).Pass? <==> ValidateDateRange(start', end').Pass?
  {
  }

  lemma ValidateRangeExamples()
    ensures ValidateDateRange(Date(2024, 1, 1), Date(2025, 2, 1)) == Fail(SpanTooLong(Date(2024, 1, 1), Date(2025, 2, 1), 13))
    ensures ValidateDateRange(Date(2024, 1, 1), Date(2024, 12, 31)) == Pass
    ensures ValidateDateRange(Date(2024, 1, 1), Date(2025, 1, 31)) == Pass
    ensures ValidateDateRange(Date(2024, 3, 2), Date(2024, 3, 1)).Fail?
  {
  }

  /** A valid range always plans between 1 and 13 months. */
  lemma ValidRangeSpan(start: CalendarDate, end: CalendarDate)
    requires ValidateDateRange(start, end).Pass?
    ensures 0 <= MonthsDiff(start, end) <= MaxMonths
  {
    LeMonthIndex(start, end);
  }

  // ---- monthly periods ----

  /** How many month labels the stepping loop appends for the range. */
  function MonthCount(start: Date, end: Date): nat {
    var diff := MonthsDiff(start, end);
    if diff < 0 then 0 else diff + 1
  }

  /** The month labels from the month of `start` to the month of `end`, one per calendar month. */
  function PlannedMonths(start: Date, end: Date): (ps: seq<Period>)
    ensures |ps| == MonthCount(start, end)
  {
    seq(MonthCount(start, end), i => LabelOfIndex(MonthIndex(start) + i))
  }

  /** `generate_monthly_periods`: step a first-of-month date from start's month to end's month. */
  method GenerateMonthlyPeriods(start: CalendarDate, end: CalendarDate) returns (periods: seq<Period>)
    ensures periods == PlannedMonths(start, end)
  {
    periods := [];
    var current := Date(start.year, start.month, 1);
    var last := Date(end.year, end.month, 1);
    ghost var planned := PlannedMonths(start, end);
    while Le(current, last)
      invariant 1 <= current.month <= 12 && current.day == 1
      invariant MonthIndex(current) == MonthIndex(start) + |periods|
      invariant |periods| <= |planned|
      invariant periods == planned[..|periods|]
      decreases MonthIndex(last) - MonthIndex(current)
    {
      LeFirstOfMonth(current, last);
      MonthIndexLabel(current);
      periods := periods + [MonthLabel(current)];
      if current.month == 12 {
        current := Date(current.year + 1, 1, 1);
      } else {
        current := Date(current.year, current.month + 1, 1);
      }
    }
    LeFirstOfMonth(current, last);
  }

  /** A valid range plans monthsDiff + 1 labels, from start's month to end's month. */
  lemma PlannedMonthsBounds(start: CalendarDate, end: CalendarDate)
    requires ValidateDateRange(start, end).Pass?
    ensures |PlannedMonths(start, end)| == MonthsDiff(start, end) + 1
    ensures 1 <= |PlannedMonths(start, end)| <= MaxMonths + 1
    ensures PlannedMonths(start, end)[0] == MonthLabel(start)
    ensures PlannedMonths(start, end)[|PlannedMonths(start, end)| - 1] == MonthLabel(end)
  {
    ValidRangeSpan(start, end);
    MonthIndexLabel(start);
    MonthIndexLabel(end);
  }

  /** Each label is the calendar successor of the one before it. */
  lemma PlannedMonthsConsecutive(start: Date, end: Date, i: nat)
    requires i + 1 < MonthCount(start, end)
    ensures PlannedMonths(start, end)[i + 1] == NextLabel(PlannedMonths(start, end)[i])
  {
    NextLabelOfIndex(MonthIndex(start) + i);
  }

  predicate Distinct<T(==)>(s: seq<T>) {
    forall i, j :: 0 <= i < j < |s| ==> s[i] != s[j]
  }

  /** Fewer than a hundred years of labels never repeat; so the planned list of a valid range has no duplicates. */
  lemma PlannedMonthsDistinct(start: Date, end: Date)
    requires MonthCount(start, end) <= 1200
    ensures Distinct(PlannedMonths(start, end))
  {
    var ps := PlannedMonths(start, end);
    forall i, j | 0 <= i < j < |ps| ensures ps[i] != ps[j] {
      LabelOfIndexInjective(MonthIndex(start) + i, MonthIndex(start) + j);
    }
  }

  lemma PlannedMonthsWellFormed(start: Date, end: Date)
    ensures forall p | p in PlannedMonths(start, end) :: WellFormedLabel(p)
  {
    var ps := PlannedMonths(start, end);
    forall i | 0 <= i < |ps| ensures WellFormedLabel(ps[i]) {
      assert ps[i] == LabelOfIndex(MonthIndex(start) + i);
    }
  }

  lemma PlannedMonthsExample()
    ensures PlannedMonths(Date(2024, 9, 15), Date(2024, 11, 3)) == [Month(9, 24), Month(10, 24), Month(11, 24)]
  {
    var start := Date(2024, 9, 15);
    var ps := PlannedMonths(start, Date(2024, 11, 3));
    assert MonthsDiff(start, Date(2024, 11, 3)) == 2;
    assert |ps| == 3;
    assert ps[0] == LabelOfIndex(MonthIndex(start));
    assert ps[1] == LabelOfIndex(MonthIndex(start) + 1);
    MonthIndexLabel(Date(2024, 9, 1));
    MonthIndexLabel(Date(2024, 10, 1));
    MonthIndexLabel(Date(2024, 11, 1));
    assert PlannedMonths(start, Date(2024, 11, 3))[1] == LabelOfIndex(MonthIndex(Date(2024, 10, 1)));
    assert PlannedMonths(start, Date(2024, 11, 3))[2] == LabelOfIndex(MonthIndex(Date(2024, 11, 1)));
  }

  lemma PlannedMonthsYearEndExample()
    ensures PlannedMonths(Date(2024, 12, 5), Date(2025, 1, 1)) == [Month(12, 24), Month(1, 25)]
  {
    MonthIndexLabel(Date(2024, 12, 5));
    MonthIndexLabel(Date(2025, 1, 1));
    assert PlannedMonths(Date(2024, 12, 5), Date(2025, 1, 1))[1] == LabelOfIndex(MonthIndex(Date(2025, 1, 1)));
  }

  // ---- period assignment ----

  /** `assign_period`: "Total" for the yearly format, the document's month label otherwise. */
  function AssignPeriod(docDate: CalendarDate, format: Format): (p: Period)
    ensures format == Yearly ==> p == Total
    ensures format == Monthly ==> p == MonthLabel(docDate) && WellFormedLabel(p)
  {
    match format
    case Yearly => Total
    case Monthly => MonthLabel(docDate)
  }

  /** The columns of a report of the given format over [start, end]. */
  function PlanPeriods(format: Format, start: CalendarDate, end: CalendarDate): seq<Period> {
    match format
    case Yearly => [Total]
    case Monthly => PlannedMonths(start, end)
  }

  /** Any document dated within the range is assigned a column of the plan. */
  lemma {:induction false} AssignedPeriodIsPlanned(docDate: CalendarDate, format: Format, start: CalendarDate, end: CalendarDate)
    requires Le(start, docDate) && Le(docDate, end)
    ensures AssignPeriod(docDate, format) in PlanPeriods(format, start, end)
  {
    if format == Monthly {
      LeMonthIndex(start, docDate);
      LeMonthIndex(docDate, end);
      var i := MonthIndex(docDate) - MonthIndex(start);
      MonthIndexLabel(docDate);
      assert PlannedMonths(start, end)[i] == MonthLabel(docDate);
    }
  }

  /** The plan of a valid range never repeats a column and lists only well-formed labels. */
  lemma PlanPeriodsDistinct(format: Format, start: CalendarDate, end: CalendarDate)
    requires ValidateDateRange(start, end).Pass?
    ensures Distinct(PlanPeriods(format, start, end))
    ensures |PlanPeriods(format, start, end)| > 0
    ensures forall p | p in PlanPeriods(format, start, end) :: WellFormedLabel(p)
  {
    PlannedMonthsBounds(start, end);
    PlannedMonthsDistinct(start, end);
    PlannedMonthsWellFormed(start, end);
  }
}
