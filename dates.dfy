/**
 * Calendar values and the month-range resolver of backend/utils/dateUtils.js.
 *
 * An instant is a broken-down local date and time. Instants are compared
 * lexicographically, which is chronological order for valid instants. The
 * constructor `new Date(year, monthIndex, day)` is modelled by its two uses in the
 * source: day 1 of a month and day 0 (the day before day 1), both with JavaScript's
 * month normalisation and its two-digit-year rule.
 */
module Dates {
  import opened Wrappers

  datatype DateTime = DateTime(year: int, month: int, day: int, hour: int, minute: int, second: int, ms: int)

  /** A calendar window `{startDate, endDate}` as the resolver returns it. */
  datatype DateRange = DateRange(startDate: DateTime, endDate: DateTime)

  predicate IsLeapYear(y: int) {
    (y % 4 == 0 && y % 100 != 0) || y % 400 == 0
  }

  function DaysInMonth(y: int, m: int): (n: int)
    requires 1 <= m <= 12
    ensures 28 <= n <= 31
    ensures m == 2 ==> (n == 29 <==> IsLeapYear(y)) && (n == 28 <==> !IsLeapYear(y))
  {
    if m == 2 then (if IsLeapYear(y) then 29 else 28)
    else if m == 4 || m == 6 || m == 9 || m == 11 then 30
    else 31
  }

  /** A real calendar instant: month 1..12, a day that exists in it, a time of day. */
  predicate Valid(d: DateTime) {
    && 1 <= d.month <= 12
    && 1 <= d.day <= DaysInMonth(d.year, d.month)
    && 0 <= d.hour < 24 && 0 <= d.minute < 60 && 0 <= d.second < 60 && 0 <= d.ms < 1000
  }

  /** The clock values the model accepts as "now": years that `toISOString` writes with four digits. */
  predicate ValidNow(now: DateTime) {
    Valid(now) && 1 <= now.year <= 9999
  }

  /** Strict chronological order (`a < b` on two JavaScript dates). */
  predicate Before(a: DateTime, b: DateTime) {
    if a.year != b.year then a.year < b.year
    else if a.month != b.month then a.month < b.month
    else if a.day != b.day then a.day < b.day
    else if a.hour != b.hour then a.hour < b.hour
    else if a.minute != b.minute then a.minute < b.minute
    else if a.second != b.second then a.second < b.second
    else a.ms < b.ms
  }

  /** `a <= b` on two dates. */
  predicate NotAfter(a: DateTime, b: DateTime) {
    !Before(b, a)
  }

  lemma NotAfterIsBeforeOrEqual(a: DateTime, b: DateTime)
    ensures NotAfter(a, b) <==> a == b || Before(a, b)
  {
  }

  /** The half-open filter `date: { $gte: startDate, $lt: endDate }` used by every caller. */
  predicate InRange(d: DateTime, r: DateRange) {
    NotAfter(r.startDate, d) && Before(d, r.endDate)
  }

  predicate SameMonth(a: DateTime, b: DateTime) {
    a.year == b.year && a.month == b.month
  }

  // ---------------------------------------------------------------------------
  // JavaScript `Date` construction
  // ---------------------------------------------------------------------------

  /** `new Date(y, ...)` reads a year in 0..99 as 1900 + y. */
  function FullYear(y: int): (r: int)
    ensures 0 <= y <= 99 ==> r == 1900 + y
    ensures !(0 <= y <= 99) ==> r == y
  {
    if 0 <= y <= 99 then 1900 + y else y
  }

  /** Month normalisation: a 0-based month index outside 0..11 moves into a neighbouring year. */
  function NormalizeMonth(y: int, monthIndex: int): (ym: (int, int))
    ensures 1 <= ym.1 <= 12
    ensures 12 * ym.0 + ym.1 - 1 == 12 * y + monthIndex
  {
    (y + monthIndex / 12, monthIndex % 12 + 1)
  }

  /** Month normalisation is determined by the linear month count alone. */
  lemma NormalizeMonthUnique(y: int, monthIndex: int, y': int, m': int)
    requires 1 <= m' <= 12
    requires 12 * y' + m' - 1 == 12 * y + monthIndex
    ensures NormalizeMonth(y, monthIndex) == (y', m')
  {
    var (y0, m0) := NormalizeMonth(y, monthIndex);
    assert 12 * (y0 - y') == m' - m0;
  }

  /** `new Date(year, monthIndex, 1)`: midnight on day 1 of the normalised month. */
  function FirstOfMonth(year: int, monthIndex: int): (d: DateTime)
    ensures Valid(d) && d.day == 1
    ensures (d.year, d.month) == NormalizeMonth(FullYear(year), monthIndex)
    ensures d.hour == 0 && d.minute == 0 && d.second == 0 && d.ms == 0
  {
    var (y, m) := NormalizeMonth(FullYear(year), monthIndex);
    DateTime(y, m, 1, 0, 0, 0, 0)
  }

  /** The calendar day before `d`, at the same time of day. */
  function PrevDay(d: DateTime): (r: DateTime)
    requires Valid(d)
    ensures Valid(r) && Before(r, d)
    ensures (r.hour, r.minute, r.second, r.ms) == (d.hour, d.minute, d.second, d.ms)
  {
    if d.day > 1 then d.(day := d.day - 1)
    else if d.month > 1 then d.(month := d.month - 1, day := DaysInMonth(d.year, d.month - 1))
    else d.(year := d.year - 1, month := 12, day := 31)
  }

  /** The calendar day after `d`, at the same time of day. */
  function NextDay(d: DateTime): (r: DateTime)
    requires Valid(d)
    ensures Valid(r) && Before(d, r)
    ensures (r.hour, r.minute, r.second, r.ms) == (d.hour, d.minute, d.second, d.ms)
  {
    if d.day < DaysInMonth(d.year, d.month) then d.(day := d.day + 1)
    else if d.month < 12 then d.(month := d.month + 1, day := 1)
    else d.(year := d.year + 1, month := 1, day := 1)
  }

  lemma {:induction false} PrevNextDay(d: DateTime)
    requires Valid(d)
    ensures PrevDay(NextDay(d)) == d && NextDay(PrevDay(d)) == d
  {
  }

  /** `new Date(year, monthIndex, 0)`: day 0 of a month is the day before its day 1. */
  function DayZero(year: int, monthIndex: int): (d: DateTime)
    ensures Valid(d)
  {
    PrevDay(FirstOfMonth(year, monthIndex))
  }

  /** `date.setHours(23, 59, 59, 999)`. */
  function EndOfDay(d: DateTime): (r: DateTime)
    requires Valid(d)
    ensures Valid(r) && (r.year, r.month, r.day) == (d.year, d.month, d.day)
    ensures (r.hour, r.minute, r.second, r.ms) == (23, 59, 59, 999)
  {
    d.(hour := 23, minute := 59, second := 59, ms := 999)
  }

  /** `d.setDate(d.getDate() + n)`: `n` days later, with day overflow carried into the month. */
  function {:induction false} AddDays(d: DateTime, n: nat): (r: DateTime)
    requires Valid(d)
    ensures Valid(r)
    ensures n > 0 ==> Before(d, r)
    ensures NotAfter(d, r)
    decreases n
  {
    if n == 0 then d
    else
      var r := AddDays(NextDay(d), n - 1);
      BeforeTransitive(d, NextDay(d), r);
      r
  }

  lemma BeforeTransitive(a: DateTime, b: DateTime, c: DateTime)
    requires Before(a, b) && NotAfter(b, c)
    ensures Before(a, c)
  {
  }

  lemma NotAfterTransitive(a: DateTime, b: DateTime, c: DateTime)
    requires NotAfter(a, b) && NotAfter(b, c)
    ensures NotAfter(a, c)
  {
    NotAfterIsBeforeOrEqual(a, b);
    NotAfterIsBeforeOrEqual(b, c);
    NotAfterIsBeforeOrEqual(a, c);
    if a != b {
      BeforeTransitive(a, b, c);
    }
  }

  /** `d.setMonth(d.getMonth() - 1)` on a day that exists in every month. */
  function PrevMonthDate(d: DateTime): (r: DateTime)
    requires Valid(d) && d.day <= 28
    ensures Valid(r) && r.day == d.day
    ensures 12 * r.year + r.month == 12 * d.year + d.month - 1
  {
    if d.month > 1 then d.(month := d.month - 1) else d.(year := d.year - 1, month := 12)
  }

  // ---------------------------------------------------------------------------
  // `YYYY-MM` tokens
  // ---------------------------------------------------------------------------

  predicate IsDigit(c: char) {
    '0' <= c <= '9'
  }

  /** The regular expression `^\d{4}-\d{2}$`. */
  predicate IsMonthToken(s: string) {
    |s| == 7 && IsDigit(s[0]) && IsDigit(s[1]) && IsDigit(s[2]) && IsDigit(s[3])
    && s[4] == '-' && IsDigit(s[5]) && IsDigit(s[6])
  }

  /** The value of one decimal digit. */
  function DigitValue(c: char): (k: int)
    requires IsDigit(c)
    ensures 0 <= k <= 9
  {
    c as int - '0' as int
  }

  /** `Number.parseInt` of a string made of decimal digits only. */
  function DigitsValue(s: string): nat
    requires forall i :: 0 <= i < |s| ==> IsDigit(s[i])
  {
    if s == [] then 0 else DigitsValue(s[..|s| - 1]) * 10 + DigitValue(s[|s| - 1])
  }

  /** The value of a two-digit string. */
  lemma DigitsOfTwo(s: string)
    requires |s| == 2 && IsDigit(s[0]) && IsDigit(s[1])
    ensures DigitsValue(s) == 10 * DigitValue(s[0]) + DigitValue(s[1])
  {
    var s1 := s[..1];
    assert s1[..0] == [];
    assert DigitsValue(s1) == DigitValue(s[0]);
  }

  /** The value of a four-digit string. */
  lemma DigitsOfFour(s: string)
    requires |s| == 4 && IsDigit(s[0]) && IsDigit(s[1]) && IsDigit(s[2]) && IsDigit(s[3])
    ensures DigitsValue(s) == 1000 * DigitValue(s[0]) + 100 * DigitValue(s[1]) + 10 * DigitValue(s[2]) + DigitValue(s[3])
  {
    var s3 := s[..3];
    DigitsOfTwo(s3[..2]);
    assert s3[..2] == s[..2];
    assert DigitsValue(s3) == 100 * DigitValue(s[0]) + 10 * DigitValue(s[1]) + DigitValue(s[2]);
  }

  function DigitChar(k: int): (c: char)
    requires 0 <= k <= 9
    ensures IsDigit(c) && DigitValue(c) == k
  {
    ('0' as int + k) as char
  }

  /** The first seven characters of `toISOString()`: the year on four digits, `-`, the month on two. */
  function MonthTokenOf(year: int, month: int): (s: string)
    requires 0 <= year <= 9999 && 1 <= month <= 12
    ensures IsMonthToken(s)
  {
    var r0 := year % 1000;
    var r1 := r0 % 100;
    [DigitChar(year / 1000), DigitChar(r0 / 100), DigitChar(r1 / 10), DigitChar(r1 % 10),
     '-', DigitChar(month / 10), DigitChar(month % 10)]
  }

  /** The year written in a well-formed token. */
  function TokenYear(s: string): int
    requires IsMonthToken(s)
  {
    DigitsValue(s[0..4])
  }

  /** The (1-based, not range-checked) month written in a well-formed token. */
  function TokenMonth(s: string): int
    requires IsMonthToken(s)
  {
    DigitsValue(s[5..7])
  }

  /** Reading back a formatted token gives the year and month it was made from. */
  lemma MonthTokenRoundTrip(year: int, month: int)
    requires 0 <= year <= 9999 && 1 <= month <= 12
    ensures TokenYear(MonthTokenOf(year, month)) == year
    ensures TokenMonth(MonthTokenOf(year, month)) == month
  {
    var s := MonthTokenOf(year, month);
    DigitsOfFour(s[0..4]);
    DigitsOfTwo(s[5..7]);
  }

  /** The token of the month `now` falls in: `now.toISOString().substring(0, 7)`. */
  function CurrentMonthToken(now: DateTime): (s: string)
    requires ValidNow(now)
    ensures IsMonthToken(s)
  {
    MonthTokenOf(now.year, now.month)
  }

  /** The window of a token that passed the format check. */
  function RangeOfToken(s: string): DateRange
    requires IsMonthToken(s)
  {
    var year := TokenYear(s);
    var monthIndex := TokenMonth(s) - 1;
    DateRange(FirstOfMonth(year, monthIndex), EndOfDay(DayZero(year, monthIndex + 1)))
  }

  /**
   * `getDateRangeFromMonth(month)`. A missing or empty token is replaced by the
   * current month's token; a token failing the format check is replaced the same
   * way. The `catch` fallback handles a non-string token, which a `string` cannot
   * be, and computes the same current-month window.
   */
  function GetDateRangeFromMonth(month: Option<string>, now: DateTime): (r: DateRange)
    requires ValidNow(now)
    ensures Valid(r.startDate) && Valid(r.endDate)
  {
    var token := if month.None? || month.value == "" then CurrentMonthToken(now) else month.value;
    var checked := if IsMonthToken(token) then token else CurrentMonthToken(now);
    RangeOfToken(checked)
  }

  /**
   * The window of the clock's month, built from the clock's year and month as the
   * resolver builds it from their token; `CurrentMonthRangeIsResolved` shows it is
   * `getDateRangeFromMonth(new Date().toISOString().substring(0, 7))`.
   */
  function CurrentMonthRange(now: DateTime): (r: DateRange)
    requires ValidNow(now)
    ensures Valid(r.startDate) && Valid(r.endDate)
  {
    var y := FullYear(now.year);
    DateRange(DateTime(y, now.month, 1, 0, 0, 0, 0), DateTime(y, now.month, DaysInMonth(y, now.month), 23, 59, 59, 999))
  }

  /** Printing the clock's month and resolving that token gives the current-month window. */
  lemma CurrentMonthRangeIsResolved(now: DateTime)
    requires ValidNow(now)
    ensures GetDateRangeFromMonth(Some(CurrentMonthToken(now)), now) == CurrentMonthRange(now)
  {
    var s := CurrentMonthToken(now);
    MonthTokenRoundTrip(now.year, now.month);
    RangeOfTokenShape(s);
    NormalizeMonthUnique(FullYear(now.year), now.month - 1, FullYear(now.year), now.month);
  }

  // ---------------------------------------------------------------------------
  // Properties of the resolver
  // ---------------------------------------------------------------------------

  /** Day 0 of the month after `monthIndex` is the last day of `monthIndex`'s normalised month. */
  lemma DayZeroIsLastDay(year: int, monthIndex: int)
    ensures var (y, m) := NormalizeMonth(FullYear(year), monthIndex);
      DayZero(year, monthIndex + 1) == DateTime(y, m, DaysInMonth(y, m), 0, 0, 0, 0)
  {
    var (y, m) := NormalizeMonth(FullYear(year), monthIndex);
    if m < 12 {
      NormalizeMonthUnique(FullYear(year), monthIndex + 1, y, m + 1);
    } else {
      NormalizeMonthUnique(FullYear(year), monthIndex + 1, y + 1, 1);
    }
  }

  /**
   * The window of a well-formed token: day 1 at 00:00:00.000 through the last day of
   * the same (normalised) month at 23:59:59.999, with the start strictly before the end.
   */
  lemma {:induction false} RangeOfTokenShape(s: string)
    requires IsMonthToken(s)
    ensures var r := RangeOfToken(s);
      var (y, m) := NormalizeMonth(FullYear(TokenYear(s)), TokenMonth(s) - 1);
      && r.startDate == DateTime(y, m, 1, 0, 0, 0, 0)
      && r.endDate == DateTime(y, m, DaysInMonth(y, m), 23, 59, 59, 999)
      && Before(r.startDate, r.endDate)
      && SameMonth(r.startDate, r.endDate)
  {
    DayZeroIsLastDay(TokenYear(s), TokenMonth(s) - 1);
  }

  /** With no token (or an empty one) the window is the current month of a clock from year 100 on. */
  lemma {:induction false} MissingTokenIsCurrentMonth(month: Option<string>, now: DateTime)
    requires ValidNow(now) && 100 <= now.year
    requires month.None? || month == Some("")
    ensures var r := GetDateRangeFromMonth(month, now);
      && r.startDate == DateTime(now.year, now.month, 1, 0, 0, 0, 0)
      && r.endDate == DateTime(now.year, now.month, DaysInMonth(now.year, now.month), 23, 59, 59, 999)
  {
    CurrentMonthWindow(now);
  }

  /** A token failing `^\d{4}-\d{2}$` behaves exactly like a missing one. */
  lemma MalformedTokenIsCurrentMonth(token: string, now: DateTime)
    requires ValidNow(now) && !IsMonthToken(token)
    ensures GetDateRangeFromMonth(Some(token), now) == GetDateRangeFromMonth(None, now)
  {
  }

  /** The window of the current month's own token. */
  lemma {:induction false} CurrentMonthWindow(now: DateTime)
    requires ValidNow(now) && 100 <= now.year
    ensures var r := RangeOfToken(CurrentMonthToken(now));
      && r.startDate == DateTime(now.year, now.month, 1, 0, 0, 0, 0)
      && r.endDate == DateTime(now.year, now.month, DaysInMonth(now.year, now.month), 23, 59, 59, 999)
  {
    var s := CurrentMonthToken(now);
    MonthTokenRoundTrip(now.year, now.month);
    RangeOfTokenShape(s);
    NormalizeMonthUnique(now.year, now.month - 1, now.year, now.month);
  }

  /**
   * A well-formed token whose month is 01..12 and whose year is 0100 or later
   * resolves to exactly that month.
   */
  lemma {:induction false} TokenInRangeIsItsMonth(s: string, now: DateTime)
    requires ValidNow(now) && IsMonthToken(s)
    requires 100 <= TokenYear(s) && 1 <= TokenMonth(s) <= 12
    ensures var r := GetDateRangeFromMonth(Some(s), now);
      var (y, m) := (TokenYear(s), TokenMonth(s));
      && r.startDate == DateTime(y, m, 1, 0, 0, 0, 0)
      && r.endDate == DateTime(y, m, DaysInMonth(y, m), 23, 59, 59, 999)
  {
    RangeOfTokenShape(s);
    NormalizeMonthUnique(TokenYear(s), TokenMonth(s) - 1, TokenYear(s), TokenMonth(s));
  }

  /** Every instant of the month resolved from a well-formed token lies inside its window, except its last millisecond. */
  lemma {:induction false} InRangeIffSameMonth(s: string, d: DateTime)
    requires IsMonthToken(s) && Valid(d)
    ensures var r := RangeOfToken(s);
      InRange(d, r) <==> SameMonth(d, r.startDate) && d != r.endDate
  {
    RangeOfTokenShape(s);
  }

  /** A well-formed token is used as it is. */
  lemma WellFormedTokenIsUsed(s: string, now: DateTime)
    requires ValidNow(now) && IsMonthToken(s)
    ensures GetDateRangeFromMonth(Some(s), now) == RangeOfToken(s)
  {
  }

  /** The window of a literal token whose digits read `year` and `month`, normalised to `(y, m)`. */
  lemma {:induction false} LiteralWindow(s: string, year: int, month: int, y: int, m: int, now: DateTime)
    requires ValidNow(now) && IsMonthToken(s)
    requires 1000 * DigitValue(s[0]) + 100 * DigitValue(s[1]) + 10 * DigitValue(s[2]) + DigitValue(s[3]) == year
    requires 10 * DigitValue(s[5]) + DigitValue(s[6]) == month
    requires 1 <= m <= 12 && 12 * y + m == 12 * FullYear(year) + month
    ensures GetDateRangeFromMonth(Some(s), now)
      == DateRange(DateTime(y, m, 1, 0, 0, 0, 0), DateTime(y, m, DaysInMonth(y, m), 23, 59, 59, 999))
  {
    WellFormedTokenIsUsed(s, now);
    TokenValue(s, year, month);
    RangeOfTokenShape(s);
    NormalizeMonthUnique(FullYear(year), month - 1, y, m);
  }

  /** "2023-02" (not a leap year) ends on the 28th. */
  lemma {:induction false} FebruaryOfCommonYear(now: DateTime)
    requires ValidNow(now)
    ensures GetDateRangeFromMonth(Some("2023-02"), now)
      == DateRange(DateTime(2023, 2, 1, 0, 0, 0, 0), DateTime(2023, 2, 28, 23, 59, 59, 999))
  {
    LiteralWindow("2023-02", 2023, 2, 2023, 2, now);
  }

  /** "2024-02" (a leap year) ends on the 29th. */
  lemma {:induction false} FebruaryOfLeapYear(now: DateTime)
    requires ValidNow(now)
    ensures GetDateRangeFromMonth(Some("2024-02"), now)
      == DateRange(DateTime(2024, 2, 1, 0, 0, 0, 0), DateTime(2024, 2, 29, 23, 59, 59, 999))
  {
    LiteralWindow("2024-02", 2024, 2, 2024, 2, now);
  }

  /** Month 13 passes the format check and becomes January of the next year. */
  lemma {:induction false} MonthThirteenNormalises(now: DateTime)
    requires ValidNow(now)
    ensures GetDateRangeFromMonth(Some("2023-13"), now)
      == DateRange(DateTime(2024, 1, 1, 0, 0, 0, 0), DateTime(2024, 1, 31, 23, 59, 59, 999))
  {
    LiteralWindow("2023-13", 2023, 13, 2024, 1, now);
  }

  /** Month 00 passes the format check and becomes December of the previous year. */
  lemma {:induction false} MonthZeroNormalises(now: DateTime)
    requires ValidNow(now)
    ensures GetDateRangeFromMonth(Some("2023-00"), now)
      == DateRange(DateTime(2022, 12, 1, 0, 0, 0, 0), DateTime(2022, 12, 31, 23, 59, 59, 999))
  {
    LiteralWindow("2023-00", 2023, 0, 2022, 12, now);
  }

  /** A year written 0000..0099 is read as 1900..1999, as `new Date(year, ...)` does. */
  lemma {:induction false} TwoDigitYearQuirk(now: DateTime)
    requires ValidNow(now)
    ensures GetDateRangeFromMonth(Some("0023-05"), now)
      == DateRange(DateTime(1923, 5, 1, 0, 0, 0, 0), DateTime(1923, 5, 31, 23, 59, 59, 999))
  {
    LiteralWindow("0023-05", 23, 5, 1923, 5, now);
  }

  /** Reads the year and month of a literal token. */
  lemma TokenValue(s: string, year: int, month: int)
    requires IsMonthToken(s)
    requires 1000 * DigitValue(s[0]) + 100 * DigitValue(s[1]) + 10 * DigitValue(s[2]) + DigitValue(s[3]) == year
    requires 10 * DigitValue(s[5]) + DigitValue(s[6]) == month
    ensures TokenYear(s) == year && TokenMonth(s) == month
  {
    DigitsOfFour(s[0..4]);
    DigitsOfTwo(s[5..7]);
  }

  /**
   * From year 100 on, the current-month window holds exactly the instants of the
   * clock's month, except the window's own last millisecond (the callers' upper
   * bound is strict).
   */
  lemma {:induction false} CurrentMonthRangeMembership(now: DateTime, d: DateTime)
    requires ValidNow(now) && 100 <= now.year && Valid(d)
    ensures var r := CurrentMonthRange(now);
      && r.endDate == DateTime(now.year, now.month, DaysInMonth(now.year, now.month), 23, 59, 59, 999)
      && (InRange(d, r) <==> SameMonth(d, now) && d != r.endDate)
  {
    CurrentMonthRangeIsResolved(now);
    CurrentMonthWindow(now);
    InRangeIffSameMonth(CurrentMonthToken(now), d);
  }
}
