/** Date bounds: `datetime.strptime(s, "%Y-%m-%d")`, read as midnight in the
 *  UTC+3 zone and converted to UTC. Instants are whole seconds since the Unix
 *  epoch; a calendar date is counted the way Python's `date.toordinal` does. */
module Dates {
  import opened Common

  datatype Date = Date(year: int, month: int, day: int)

  predicate IsLeap(y: int)
  {
    y % 4 == 0 && (y % 100 != 0 || y % 400 == 0)
  }

  function DaysInYear(y: int): int
  {
    if IsLeap(y) then 366 else 365
  }

  function DaysInMonth(y: int, m: int): int
    requires 1 <= m <= 12
  {
    if m == 2 then (if IsLeap(y) then 29 else 28)
    else if m == 4 || m == 6 || m == 9 || m == 11 then 30
    else 31
  }

  /** What `datetime(year, month, day)` accepts. */
  predicate ValidDate(d: Date)
  {
    1 <= d.year <= 9999 && 1 <= d.month <= 12 && 1 <= d.day <= DaysInMonth(d.year, d.month)
  }

  /** Days from 0001-01-01 to January 1st of year `y` (proleptic Gregorian). */
  function DaysBeforeYear(y: int): int
    requires y >= 1
  {
    var p := y - 1;
    p * 365 + p / 4 - p / 100 + p / 400
  }

  /** Days of year `y` before the first of month `m`. */
  function DaysBeforeMonth(y: int, m: int): int
    requires 1 <= m <= 12
  {
    var table := [0, 31, 59, 90, 120, 151, 181, 212, 243, 273, 304, 334];
    table[m - 1] + (if m > 2 && IsLeap(y) then 1 else 0)
  }

  /** `date.toordinal()` of 1970-01-01. */
  const EPOCH_ORDINAL: int := 719163

  /** Whole days from 1970-01-01 to `d`. */
  function EpochDay(d: Date): int
    requires ValidDate(d)
  {
    DaysBeforeYear(d.year) + DaysBeforeMonth(d.year, d.month) + d.day - EPOCH_ORDINAL
  }

  /** The instant at which `d` begins in UTC. */
  function MidnightUtc(d: Date): int
    requires ValidDate(d)
  {
    EpochDay(d) * SECONDS_PER_DAY
  }

  /** The calendar day after `d`. */
  function NextDay(d: Date): Date
    requires ValidDate(d)
  {
    if d.day < DaysInMonth(d.year, d.month) then Date(d.year, d.month, d.day + 1)
    else if d.month < 12 then Date(d.year, d.month + 1, 1)
    else Date(d.year + 1, 1, 1)
  }

  /** Calendar order on dates. */
  predicate Before(a: Date, b: Date)
  {
    a.year < b.year
    || (a.year == b.year && a.month < b.month)
    || (a.year == b.year && a.month == b.month && a.day < b.day)
  }

  // ---------------------------------------------------------------------
  // strptime(s, "%Y-%m-%d")
  // ---------------------------------------------------------------------

  predicate IsDigit(c: char)
  {
    '0' <= c <= '9'
  }

  function DigitValue(c: char): int
    requires IsDigit(c)
  {
    c as int - '0' as int
  }

  /** `%m` is the group `1[0-2]|0[1-9]|[1-9]` and must be followed by the
   *  literal `-`: the month and the text after that `-`. The three
   *  alternatives cannot both be followed by `-`, so at most one applies. */
  function MatchMonth(t: string): Option<(int, string)>
  {
    if |t| >= 3 && t[0] == '1' && '0' <= t[1] <= '2' && t[2] == '-' then Some((10 + DigitValue(t[1]), t[3..]))
    else if |t| >= 3 && t[0] == '0' && '1' <= t[1] <= '9' && t[2] == '-' then Some((DigitValue(t[1]), t[3..]))
    else if |t| >= 2 && '1' <= t[0] <= '9' && t[1] == '-' then Some((DigitValue(t[0]), t[2..]))
    else None
  }

  /** `%d` is the group `3[01]|[12]\d|0[1-9]|[1-9]| [1-9]`, the last of the
   *  pattern: the first alternative that matches wins. Gives the day and the
   *  number of characters consumed. */
  function MatchDay(t: string): Option<(int, nat)>
  {
    if |t| >= 2 && t[0] == '3' && '0' <= t[1] <= '1' then Some((30 + DigitValue(t[1]), 2))
    else if |t| >= 2 && '1' <= t[0] <= '2' && IsDigit(t[1]) then Some((10 * DigitValue(t[0]) + DigitValue(t[1]), 2))
    else if |t| >= 2 && t[0] == '0' && '1' <= t[1] <= '9' then Some((DigitValue(t[1]), 2))
    else if |t| >= 1 && '1' <= t[0] <= '9' then Some((DigitValue(t[0]), 1))
    else if |t| >= 2 && t[0] == ' ' && '1' <= t[1] <= '9' then Some((DigitValue(t[1]), 2))
    else None
  }

  /** `datetime.strptime(s, "%Y-%m-%d")`; None is the ValueError it raises on
   *  text that does not match, on trailing text ("unconverted data remains"),
   *  on year 0 and on a day past the end of its month. */
  function ParseYmd(s: string): (r: Option<Date>)
    ensures r.Some? ==> ValidDate(r.value)
  {
    if |s| < 5 || !(IsDigit(s[0]) && IsDigit(s[1]) && IsDigit(s[2]) && IsDigit(s[3])) || s[4] != '-' then None
    else
      var year := 1000 * DigitValue(s[0]) + 100 * DigitValue(s[1]) + 10 * DigitValue(s[2]) + DigitValue(s[3]);
      match MatchMonth(s[5..])
      case None => None
      case Some((month, dayText)) =>
        match MatchDay(dayText)
        case None => None
        case Some((day, used)) =>
          if used != |dayText| then None
          else if ValidDate(Date(year, month, day)) then Some(Date(year, month, day))
          else None
  }

  function Digit(n: int): char
    requires 0 <= n <= 9
  {
    ('0' as int + n) as char
  }

  /** The canonical spelling `YYYY-MM-DD` of a date. */
  function FormatYmd(d: Date): string
    requires ValidDate(d)
  {
    [Digit(d.year / 1000), Digit(d.year / 100 % 10), Digit(d.year / 10 % 10), Digit(d.year % 10), '-',
     Digit(d.month / 10), Digit(d.month % 10), '-', Digit(d.day / 10), Digit(d.day % 10)]
  }

  /** The first date `datetime` represents; its midnight at UTC+3 lies before
   *  the earliest representable UTC instant. */
  const FIRST_DATE: Date := Date(1, 1, 1)

  /** A non-empty argument that `datetime.strptime(arg, "%Y-%m-%d")` rejects. */
  predicate Unparsable(arg: Option<string>)
  {
    arg.Some? && arg.value != "" && ParseYmd(arg.value).None?
  }

  /** `date_from`/`date_to` handling shared by every downloader: a missing or
   *  empty argument gives no bound; otherwise the date is midnight at UTC+3,
   *  converted to UTC by `astimezone`, which overflows for the first date. */
  function DateBound(arg: Option<string>): (r: Result<Option<int>>)
    ensures r == Ok(None) <==> (arg.None? || arg.value == "")
    ensures r == Err(ValueError) <==> Unparsable(arg)
    ensures r == Err(OverflowError) <==> arg.Some? && arg.value != "" && ParseYmd(arg.value) == Some(FIRST_DATE)
    ensures r.Err? ==> r.error == ValueError || r.error == OverflowError
    ensures r.Ok? && r.value.Some? ==> (r.value.value + UTC_PLUS_3) % SECONDS_PER_DAY == 0
  {
    if arg.None? || arg.value == "" then Ok(None)
    else
      match ParseYmd(arg.value)
      case None => Err(ValueError)
      case Some(d) =>
        if d == FIRST_DATE then Err(OverflowError)
        else
          WholeDays(EpochDay(d));
          Ok(Some(MidnightUtc(d) - UTC_PLUS_3))
  }

  /** Both bounds, in the order the downloaders compute them: both strings
   *  are parsed (ValueError) before either is converted to UTC
   *  (OverflowError), the start before the end. */
  function DateBounds(dateFrom: Option<string>, dateTo: Option<string>): (r: Result<(Option<int>, Option<int>)>)
    ensures r.Err? <==> DateBound(dateFrom).Err? || DateBound(dateTo).Err?
    ensures r.Err? && (Unparsable(dateFrom) || Unparsable(dateTo)) ==> r.error == ValueError
    ensures r.Err? && !Unparsable(dateFrom) && !Unparsable(dateTo) ==> r.error == OverflowError
    ensures r.Ok? ==> r.value == (DateBound(dateFrom).value, DateBound(dateTo).value)
  {
    if Unparsable(dateFrom) || Unparsable(dateTo) then Err(ValueError)
    else match (DateBound(dateFrom), DateBound(dateTo))
      case (Err(e), _) => Err(e)
      case (_, Err(e)) => Err(e)
      case (Ok(from), Ok(to)) => Ok((from, to))
  }

  /** A whole number of days is a multiple of 86400 seconds. */
  lemma WholeDays(k: int)
    ensures (k * SECONDS_PER_DAY) % SECONDS_PER_DAY == 0
  {
  }

  // ---------------------------------------------------------------------
  // Properties
  // ---------------------------------------------------------------------

  lemma YearDigits(y: int)
    requires 1 <= y <= 9999
    ensures 1000 * (y / 1000) + 100 * (y / 100 % 10) + 10 * (y / 10 % 10) + y % 10 == y
  {
    var a, b, c := y / 1000, y / 100 % 10, y / 10 % 10;
    assert y / 100 == 10 * a + b;
    assert y / 10 == 10 * (y / 100) + c;
  }

  lemma MatchTwoDigitMonth(m: int, rest: string)
    requires 1 <= m <= 12
    ensures MatchMonth([Digit(m / 10), Digit(m % 10), '-'] + rest) == Some((m, rest))
  {
    var t := [Digit(m / 10), Digit(m % 10), '-'] + rest;
    assert t[3..] == rest;
  }

  lemma MatchTwoDigitDay(dd: int)
    requires 1 <= dd <= 31
    ensures MatchDay([Digit(dd / 10), Digit(dd % 10)]) == Some((dd, 2))
  {
  }

  /** Reading back the canonical spelling of a valid date gives that date. */
  lemma ParseFormatRoundTrip(d: Date)
    requires ValidDate(d)
    ensures ParseYmd(FormatYmd(d)) == Some(d)
  {
    var s := FormatYmd(d);
    var dayText := [Digit(d.day / 10), Digit(d.day % 10)];
    assert s[5..] == [Digit(d.month / 10), Digit(d.month % 10), '-'] + dayText;
    YearDigits(d.year);
    MatchTwoDigitMonth(d.month, dayText);
    MatchTwoDigitDay(d.day);
  }

  /** A supplied `YYYY-MM-DD` bound is the instant exactly three hours before
   *  midnight UTC of that date; for the first date that instant does not
   *  exist and the conversion overflows. */
  lemma BoundOfDate(d: Date)
    requires ValidDate(d)
    ensures DateBound(Some(FormatYmd(d))) ==
      if d == FIRST_DATE then Err(OverflowError) else Ok(Some(MidnightUtc(d) - 10800))
  {
    ParseFormatRoundTrip(d);
  }

  /** "0001-01-01" overflows while "0001-01-02" gives 21:00 UTC on the first
   *  day. */
  lemma EarliestBounds()
    ensures DateBound(Some("0001-01-01")) == Err(OverflowError)
    ensures DateBound(Some("0001-01-02")) == Ok(Some(-62135521200))
  {
    BoundOfDate(Date(1, 1, 1));
    BoundOfDate(Date(1, 1, 2));
    assert FormatYmd(Date(1, 1, 1)) == "0001-01-01";
    assert FormatYmd(Date(1, 1, 2)) == "0001-01-02";
    assert EpochDay(Date(1, 1, 2)) == -719161;
  }

  /** Both dates are parsed before either is converted: a start that
   *  overflows still loses to an end that does not parse. */
  lemma ParseBeforeConvert()
    ensures DateBounds(Some("0001-01-01"), Some("2024-13-01")) == Err(ValueError)
    ensures DateBounds(Some("0001-01-01"), None) == Err(OverflowError)
  {
    assert "2024-13-01"[5..] == "13-01";
    assert ParseYmd("2024-13-01").None?;
    EarliestBounds();
  }

  lemma QuotientSteps(y: int)
    ensures y / 4 - (y - 1) / 4 == if y % 4 == 0 then 1 else 0
    ensures y / 100 - (y - 1) / 100 == if y % 100 == 0 then 1 else 0
    ensures y / 400 - (y - 1) / 400 == if y % 400 == 0 then 1 else 0
  {
  }

  lemma CenturyOfQuadricentennial(y: int)
    requires y % 400 == 0
    ensures y % 100 == 0
  {
    var k := y / 400;
    assert y == 100 * (4 * k) + 0;
  }

  lemma LeapOfCentury(y: int)
    requires y % 100 == 0
    ensures y % 4 == 0
  {
    var k := y / 100;
    assert y == 4 * (25 * k) + 0;
  }

  lemma DaysBeforeYearStep(y: int)
    requires y >= 1
    ensures DaysBeforeYear(y + 1) == DaysBeforeYear(y) + DaysInYear(y)
  {
    QuotientSteps(y);
    if y % 400 == 0 {
      CenturyOfQuadricentennial(y);
    }
    if y % 100 == 0 {
      LeapOfCentury(y);
    }
  }

  lemma DaysBeforeMonthStep(y: int, m: int)
    requires 1 <= m < 12
    ensures DaysBeforeMonth(y, m + 1) == DaysBeforeMonth(y, m) + DaysInMonth(y, m)
  {
  }

  lemma DayOfYearBound(d: Date)
    requires ValidDate(d)
    ensures 0 <= DaysBeforeMonth(d.year, d.month) + d.day - 1 < DaysInYear(d.year)
  {
  }

  /** Consecutive dates are one day, 86400 seconds, apart, and 1970-01-01 is
   *  day 0: together these determine EpochDay on every valid date. */
  lemma NextDayIsOneDayLater(d: Date)
    requires ValidDate(d) && d.year < 9999
    ensures ValidDate(NextDay(d))
    ensures EpochDay(NextDay(d)) == EpochDay(d) + 1
    ensures MidnightUtc(NextDay(d)) == MidnightUtc(d) + SECONDS_PER_DAY
    ensures EpochDay(Date(1970, 1, 1)) == 0
  {
    if d.day < DaysInMonth(d.year, d.month) {
    } else if d.month < 12 {
      DaysBeforeMonthStep(d.year, d.month);
    } else {
      DaysBeforeYearStep(d.year);
    }
  }

  lemma {:induction false} DaysBeforeYearMonotone(a: int, b: int)
    requires 1 <= a < b
    ensures DaysBeforeYear(a) + DaysInYear(a) <= DaysBeforeYear(b)
    decreases b - a
  {
    DaysBeforeYearStep(a);
    if a + 1 < b {
      DaysBeforeYearMonotone(a + 1, b);
    }
  }

  /** A later date always gives a later bound, so distinct dates give distinct
   *  bounds. */
  lemma BoundMonotone(a: Date, b: Date)
    requires ValidDate(a) && ValidDate(b)
    requires Before(a, b)
    ensures EpochDay(a) < EpochDay(b)
    ensures MidnightUtc(a) - UTC_PLUS_3 < MidnightUtc(b) - UTC_PLUS_3
  {
    if a.year < b.year {
      DayOfYearBound(a);
      DaysBeforeYearMonotone(a.year, b.year);
    } else if a.month < b.month {
      DaysBeforeMonthMonotone(a.year, a.month, b.month);
    }
  }

  lemma DaysBeforeMonthMonotone(y: int, m1: int, m2: int)
    requires 1 <= m1 < m2 <= 12
    ensures DaysBeforeMonth(y, m1) + DaysInMonth(y, m1) <= DaysBeforeMonth(y, m2)
  {
  }
}
