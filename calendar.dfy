/**
 * The fiscal-quarter calendar of `get_quarter_dates` (bse_core.py): fiscal year `fy` starts
 * on 1 April of `fy - 1`; Q1..Q3 fall in `fy - 1`, Q4 in `fy`. Dates are (year, month, day)
 * triples; Python's `datetime` only admits years 1..9999, which the model keeps as an error.
 */
module QuarterCalendar {
  import opened Wrappers
  import opened Strings

  datatype Date = Date(year: int, month: int, day: int)

  /** `InvalidQuarter` is the ValueError of bse_core.py:88; `YearOutOfRange` is the ValueError
      `datetime` raises for a year outside 1..9999. */
  datatype CalendarError = InvalidQuarter | YearOutOfRange

  const MinYear := 1
  const MaxYear := 9999

  predicate IsLeapYear(y: int) {
    y % 4 == 0 && (y % 100 != 0 || y % 400 == 0)
  }

  function DaysInMonth(y: int, m: int): (n: int)
    requires 1 <= m <= 12
    ensures 28 <= n <= 31
    ensures m != 2 ==> (n == 30 <==> m in {4, 6, 9, 11})
  {
    if m == 2 then (if IsLeapYear(y) then 29 else 28)
    else if m == 4 || m == 6 || m == 9 || m == 11 then 30
    else 31
  }

  predicate ValidDate(d: Date) {
    MinYear <= d.year <= MaxYear && 1 <= d.month <= 12 && 1 <= d.day <= DaysInMonth(d.year, d.month)
  }

  /** The calendar day after `d`. */
  function NextDay(d: Date): Date
    requires 1 <= d.month <= 12
  {
    if d.day < DaysInMonth(d.year, d.month) then Date(d.year, d.month, d.day + 1)
    else if d.month < 12 then Date(d.year, d.month + 1, 1)
    else Date(d.year + 1, 1, 1)
  }

  /** `d + timedelta(days=-1)`. */
  function PrevDay(d: Date): (r: Date)
    requires 1 <= d.month <= 12
    ensures 1 <= r.month <= 12
  {
    if d.day > 1 then Date(d.year, d.month, d.day - 1)
    else if d.month > 1 then Date(d.year, d.month - 1, DaysInMonth(d.year, d.month - 1))
    else Date(d.year - 1, 12, 31)
  }

  /** `d + relativedelta(months=k)`: the month moves on `k` places, carrying into the year,
      and the day is clamped to the length of the new month. */
  function AddMonths(d: Date, k: nat): (r: Date)
    requires 1 <= d.month <= 12
    ensures 1 <= r.month <= 12
    ensures 12 * r.year + r.month == 12 * d.year + d.month + k
  {
    var total := 12 * d.year + (d.month - 1) + k;
    var y := total / 12;
    var m := total % 12 + 1;
    Date(y, m, if d.day < DaysInMonth(y, m) then d.day else DaysInMonth(y, m))
  }

  /** The first day of quarter `q` of fiscal year `fy` (bse_core.py:79-88). */
  function QuarterStart(q: int, fy: int): (r: Result<Date, CalendarError>)
    ensures r.Failure? <==> !(1 <= q <= 4)
    ensures r.Failure? ==> r.error == InvalidQuarter
  {
    if q == 1 then Success(Date(fy - 1, 4, 1))
    else if q == 2 then Success(Date(fy - 1, 7, 1))
    else if q == 3 then Success(Date(fy - 1, 10, 1))
    else if q == 4 then Success(Date(fy, 1, 1))
    else Failure(InvalidQuarter)
  }

  /**
   * Start and end of quarter `q` of `fy` (bse_core.py:75-90): the end is the start plus three
   * months minus one day. Both steps go through `datetime`, so both the start's year and the
   * year three months on must lie in 1..9999.
   */
  function QuarterDates(q: int, fy: int): (r: Result<(Date, Date), CalendarError>)
    ensures r.Success? ==> 1 <= q <= 4
    ensures !(1 <= q <= 4) ==> r == Failure(InvalidQuarter)
    ensures r.Success? ==> ValidDate(r.value.0) && ValidDate(r.value.1) && r.value.0.day == 1
  {
    match QuarterStart(q, fy)
    case Failure(e) => Failure(e)
    case Success(start) =>
      if !(MinYear <= start.year <= MaxYear) then Failure(YearOutOfRange)
      else
        var shifted := AddMonths(start, 3);
        if !(MinYear <= shifted.year <= MaxYear) then Failure(YearOutOfRange)
        else Success((start, PrevDay(shifted)))
  }

  /** Which (q, fy) pairs `datetime` can represent: the exact domain of `QuarterDates`. */
  lemma QuarterDatesDomain(q: int, fy: int)
    ensures QuarterDates(q, fy).Success? <==>
      || ((q == 1 || q == 2) && 2 <= fy <= 10000)
      || (q == 3 && 2 <= fy <= 9999)
      || (q == 4 && 1 <= fy <= 9999)
  {
  }

  /** The four quarters start on 1 Apr, 1 Jul, 1 Oct of `fy - 1` and 1 Jan of `fy`, and end on
      30 Jun, 30 Sep, 31 Dec and 31 Mar of the same calendar year. */
  lemma QuarterDatesTable(q: int, fy: int)
    requires QuarterDates(q, fy).Success?
    ensures var (start, end) := QuarterDates(q, fy).value;
      && start == Date(if q == 4 then fy else fy - 1, [4, 7, 10, 1][q - 1], 1)
      && end == Date(start.year, start.month + 2, [30, 30, 31, 31][q - 1])
  {
  }

  /** Each quarter spans exactly three calendar months and ends on the last day of its month. */
  lemma QuarterSpansThreeMonths(q: int, fy: int)
    requires QuarterDates(q, fy).Success?
    ensures var (start, end) := QuarterDates(q, fy).value;
      && end.year == start.year && end.month == start.month + 2
      && end.day == DaysInMonth(end.year, end.month)
      && NextDay(end) == AddMonths(start, 3)
  {
  }

  /** The quarter after (q, fy), as bse_core.py:100-101 computes it. */
  function NextQuarter(q: int, fy: int): (r: (int, int))
    requires 1 <= q <= 4
    ensures 1 <= r.0 <= 4
    ensures 4 * r.1 + r.0 == 4 * fy + q + 1
  {
    (q % 4 + 1, if q == 4 then fy + 1 else fy)
  }

  /** Consecutive quarters tile the calendar: the day after a quarter's end is the start of the
      next quarter, including the wrap from Q4 of `fy` to Q1 of `fy + 1`. */
  lemma QuartersTile(q: int, fy: int)
    requires QuarterDates(q, fy).Success?
    ensures var (nq, nfy) := NextQuarter(q, fy);
      QuarterDates(nq, nfy).Success? ==>
        NextDay(QuarterDates(q, fy).value.1) == QuarterDates(nq, nfy).value.0
  {
  }

  /** Reads a YYYYMMDD digit string back into a date. */
  function ReadYmd(s: string): Date
    requires |s| == 8 && AllDigits(s)
  {
    Date(DecimalValue(s[..4]), DecimalValue(s[4..6]), DecimalValue(s[6..]))
  }

  /** `strftime("%Y%m%d")` for a date whose year has four digits: eight digits that read back as the date. */
  function FormatYmd(d: Date): (s: string)
    requires ValidDate(d)
    ensures |s| == 8 && AllDigits(s) && ReadYmd(s) == d
  {
    var y, m, dd := FixedDigits(d.year, 4), FixedDigits(d.month, 2), FixedDigits(d.day, 2);
    var s := y + m + dd;
    assert s[..4] == y && s[4..6] == m && s[6..] == dd;
    s
  }

  /** `get_quarter_dates(q, fy)`: the quarter's start and end formatted as YYYYMMDD. */
  function GetQuarterDates(q: int, fy: int): Result<(string, string), CalendarError> {
    match QuarterDates(q, fy)
    case Failure(e) => Failure(e)
    case Success((start, end)) => Success((FormatYmd(start), FormatYmd(end)))
  }

  /** The formatted dates exist exactly when the quarter's dates do, fail with the same error
      otherwise, and are eight digits each that read back as the quarter's first and last day. */
  lemma GetQuarterDatesSpec(q: int, fy: int)
    ensures var r := GetQuarterDates(q, fy);
      && (r.Success? <==> QuarterDates(q, fy).Success?)
      && (r.Failure? ==> r.error == QuarterDates(q, fy).error)
      && (r.Success? ==> var (start, end) := r.value;
            && |start| == 8 && AllDigits(start) && ReadYmd(start) == QuarterDates(q, fy).value.0
            && |end| == 8 && AllDigits(end) && ReadYmd(end) == QuarterDates(q, fy).value.1)
  {
  }

  /** Worked value: Q3 of FY2024 runs from 1 Oct 2023 to 31 Dec 2023, Q4 from 1 Jan to 31 Mar 2024,
      and Q1 of FY2025 from 1 Apr to 30 Jun 2024. */
  lemma QuarterDatesExamples()
    ensures QuarterDates(3, 2024) == Success((Date(2023, 10, 1), Date(2023, 12, 31)))
    ensures QuarterDates(4, 2024) == Success((Date(2024, 1, 1), Date(2024, 3, 31)))
    ensures QuarterDates(1, 2025) == Success((Date(2024, 4, 1), Date(2024, 6, 30)))
    ensures QuarterDates(5, 2024) == Failure(InvalidQuarter)
  {
    QuarterDatesDomain(3, 2024);
    QuarterDatesTable(3, 2024);
    QuarterDatesDomain(4, 2024);
    QuarterDatesTable(4, 2024);
    QuarterDatesDomain(1, 2025);
    QuarterDatesTable(1, 2025);
  }

}
