/**
 * The request handling both report services share: the order of the checks,
 * the `'All'` location, and the report's columns.
 */
module ReportRequest {
  import opened Wrappers
  import opened Calendar
  import opened ReportPeriods
  import opened ReportData

  datatype ReportError = InvalidRange(rangeError: RangeError) | InvalidFormat(providedFormat: string)

  /** `report_info`, without the generation timestamp. */
  datatype ReportInfo = ReportInfo(start: CalendarDate, end: CalendarDate, format: Format, location: string, periods: seq<Period>)

  /** The date range is checked first, then the format name. */
  function CheckRequest(start: CalendarDate, end: CalendarDate, formatName: string): (r: Result<Format, ReportError>)
    ensures ValidateDateRange(start, end).Fail? ==> r == Err(InvalidRange(ValidateDateRange(start, end).error))
    ensures ValidateDateRange(start, end).Pass? && ParseFormat(formatName).None? ==> r == Err(InvalidFormat(formatName))
    ensures r.Ok? <==> ValidateDateRange(start, end).Pass? && ParseFormat(formatName).Some?
    ensures r.Ok? ==> Some(r.value) == ParseFormat(formatName)
  {
    match ValidateDateRange(start, end)
    case Fail(e) => Err(InvalidRange(e))
    case Pass =>
      match ParseFormat(formatName)
      case None => Err(InvalidFormat(formatName))
      case Some(format) => Ok(format)
  }

  /** `None if location == 'All' else location`: the filter handed to the queries. */
  function LocationFilter(location: Option<string>): (f: Option<string>)
    ensures location == Some("All") ==> f == None
    ensures location != Some("All") ==> f == location
  {
    if location == Some("All") then None else location
  }

  /** `location or 'All'`: the location the report states. */
  function ReportLocation(location: Option<string>): (s: string)
    ensures s == "All" <==> location == None || location == Some("") || location == Some("All")
    ensures s != "All" ==> location == Some(s)
  {
    if location.Some? && location.value != "" then location.value else "All"
  }

  /** The queries see no location filter exactly when the report states "All". */
  lemma FilterActiveUnlessAll(location: Option<string>)
    ensures LocationFilterActive(LocationFilter(location)) <==> ReportLocation(location) != "All"
  {
  }

  /** The report's columns: `['Total']` for the yearly format, the month labels otherwise. */
  method PlanReportPeriods(format: Format, start: CalendarDate, end: CalendarDate) returns (periods: seq<Period>)
    ensures periods == PlanPeriods(format, start, end)
  {
    if format == Yearly {
      periods := [Total];
    } else {
      periods := GenerateMonthlyPeriods(start, end);
    }
  }
}
