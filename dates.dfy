/** Python's `date`/`datetime` as the model needs them: a (year, month, day) view, the
    proleptic Gregorian day number `date.toordinal()` (1 is 0001-01-01), comparisons of a
    DATETIME column with a date parameter (the server reads the date as midnight), and the
    zero-padded text forms `%Y-%m-%d` and `isoformat()`. */
module Dates {
  import opened Wrappers
  import opened Text

  const MinYear := 1
  const MaxYear := 9999

  datatype Date = Date(year: int, month: int, day: int)

  /** A wall-clock instant of a naive `datetime`, down to microseconds. */
  datatype DateTime = DateTime(date: Date, hour: int, minute: int, second: int, micro: int)

  predicate IsLeap(y: int) {
    y % 4 == 0 && (y % 100 != 0 || y % 400 == 0)
  }

  function DaysInYear(y: int): int {
    if IsLeap(y) then 366 else 365
  }

  function DaysInMonth(y: int, m: int): int
    requires 1 <= m <= 12
  {
    if m == 2 then (if IsLeap(y) then 29 else 28)
    else if m == 4 || m == 6 || m == 9 || m == 11 then 30
    else 31
  }

  /** Days in the months of year `y` that come before month `m` (m = 13 gives the whole year). */
  function DaysBeforeMonth(y: int, m: int): int
    requires 1 <= m <= 13
  {
    [0, 31, 59, 90, 120, 151, 181, 212, 243, 273, 304, 334, 365][m - 1]
    + (if m > 2 && IsLeap(y) then 1 else 0)
  }

  /** Days in the years 1 .. y-1. */
  function DaysBeforeYear(y: int): nat
    requires y >= 1
  {
    if y == 1 then 0 else DaysBeforeYear(y - 1) + DaysInYear(y - 1)
  }

  predicate ValidDate(d: Date) {
    MinYear <= d.year <= MaxYear && 1 <= d.month <= 12 && 1 <= d.day <= DaysInMonth(d.year, d.month)
  }

  predicate ValidDateTime(t: DateTime) {
    ValidDate(t.date) && 0 <= t.hour < 24 && 0 <= t.minute < 60 && 0 <= t.second < 60
    && 0 <= t.micro < 1000000
  }

  /** `date.toordinal()`. */
  function DayNumber(d: Date): int
    requires ValidDate(d)
  {
    DaysBeforeYear(d.year) + DaysBeforeMonth(d.year, d.month) + d.day
  }

  const MaxDay: int := DayNumber(Date(MaxYear, 12, 31))

  /** Chronological order of the (year, month, day) view: lexicographic, as Python compares dates. */
  predicate DateBefore(a: Date, b: Date) {
    a.year < b.year || (a.year == b.year && (a.month < b.month || (a.month == b.month && a.day < b.day)))
  }

  lemma DaysBeforeMonthStep(y: int, m: int)
    requires 1 <= m <= 12
    ensures DaysBeforeMonth(y, m + 1) == DaysBeforeMonth(y, m) + DaysInMonth(y, m)
  {
  }

  lemma {:induction false} DaysBeforeMonthMono(y: int, m1: int, m2: int)
    requires 1 <= m1 < m2 <= 13
    ensures DaysBeforeMonth(y, m1) + DaysInMonth(y, m1) <= DaysBeforeMonth(y, m2)
    decreases m2 - m1
  {
    DaysBeforeMonthStep(y, m1);
    if m1 + 1 < m2 {
      DaysBeforeMonthMono(y, m1 + 1, m2);
    }
  }

  lemma {:induction false} DaysBeforeYearMono(y1: int, y2: int)
    requires 1 <= y1 < y2
    ensures DaysBeforeYear(y1) + DaysInYear(y1) <= DaysBeforeYear(y2)
    decreases y2 - y1
  {
    if y1 + 1 < y2 {
      DaysBeforeYearMono(y1 + 1, y2);
    }
  }

  /** A date's day number lies inside its year's range. */
  lemma DayNumberInYear(d: Date)
    requires ValidDate(d)
    ensures DaysBeforeYear(d.year) < DayNumber(d) <= DaysBeforeYear(d.year) + DaysInYear(d.year)
  {
    if d.month < 12 {
      DaysBeforeMonthMono(d.year, d.month, 13);
    }
    assert DaysBeforeMonth(d.year, 13) == DaysInYear(d.year);
  }

  lemma DayNumberOrderOneWay(a: Date, b: Date)
    requires ValidDate(a) && ValidDate(b) && DateBefore(a, b)
    ensures DayNumber(a) < DayNumber(b)
  {
    if a.year < b.year {
      DayNumberInYear(a);
      DayNumberInYear(b);
      DaysBeforeYearMono(a.year, b.year);
    } else if a.month < b.month {
      DaysBeforeMonthMono(a.year, a.month, b.month);
    }
  }

  /** Day numbers order dates chronologically, and two valid dates with the same day number
      are the same date. */
  lemma DayNumberOrder(a: Date, b: Date)
    requires ValidDate(a) && ValidDate(b)
    ensures DateBefore(a, b) <==> DayNumber(a) < DayNumber(b)
    ensures a == b <==> DayNumber(a) == DayNumber(b)
  {
    if DateBefore(a, b) {
      DayNumberOrderOneWay(a, b);
    } else if DateBefore(b, a) {
      DayNumberOrderOneWay(b, a);
    }
  }

  /** `date + timedelta(days=k)` as a day number; None where Python raises OverflowError. */
  function AddDays(d: Date, k: int): (r: Option<int>)
    requires ValidDate(d)
    ensures r.Some? <==> 1 <= DayNumber(d) + k <= MaxDay
    ensures r.Some? ==> r.value == DayNumber(d) + k
  {
    var n := DayNumber(d) + k;
    if 1 <= n <= MaxDay then Some(n) else None
  }

  predicate IsMidnight(t: DateTime) {
    t.hour == 0 && t.minute == 0 && t.second == 0 && t.micro == 0
  }

  /** `column >= day` for a DATETIME column and a date parameter. */
  predicate AtOrAfter(t: DateTime, day: int)
    requires ValidDate(t.date)
  {
    DayNumber(t.date) >= day
  }

  /** `column < day`. */
  predicate StrictlyBefore(t: DateTime, day: int)
    requires ValidDate(t.date)
  {
    DayNumber(t.date) < day
  }

  /** `column <= day`: the parameter is midnight, so on that day only midnight itself qualifies. */
  predicate AtOrBefore(t: DateTime, day: int)
    requires ValidDate(t.date)
  {
    DayNumber(t.date) < day || (DayNumber(t.date) == day && IsMidnight(t))
  }

  /** `today.replace(day=1)`. */
  function MonthStart(today: Date): (r: Date)
    requires ValidDate(today)
    ensures ValidDate(r) && r.year == today.year && r.month == today.month && r.day == 1
  {
    today.(day := 1)
  }

  /** The first day of the next month; in December, 1 January of the next year. None where
      Python's `date(year + 1, 1, 1)` raises because the year would pass 9999. */
  function MonthEnd(today: Date): (r: Option<Date>)
    requires ValidDate(today)
    ensures r.None? <==> today.month == 12 && today.year == MaxYear
    ensures r.Some? ==> ValidDate(r.value) && r.value.day == 1
    ensures r.Some? && today.month < 12 ==> r.value.year == today.year && r.value.month == today.month + 1
    ensures r.Some? && today.month == 12 ==> r.value.year == today.year + 1 && r.value.month == 1
  {
    var start := MonthStart(today);
    if start.month < 12 then Some(start.(month := start.month % 12 + 1, day := 1))
    else if start.year + 1 <= MaxYear then Some(Date(start.year + 1, 1, 1))
    else None
  }

  /** The window [start of this month, start of next month) holds exactly the dates of the
      current calendar month. */
  lemma MonthWindowExact(today: Date, x: Date)
    requires ValidDate(today) && ValidDate(x) && MonthEnd(today).Some?
    ensures DayNumber(MonthStart(today)) <= DayNumber(x) < DayNumber(MonthEnd(today).value)
            <==> x.year == today.year && x.month == today.month
  {
    var s, e := MonthStart(today), MonthEnd(today).value;
    DayNumberOrder(s, x);
    DayNumberOrder(x, e);
  }

  /** `n` written with exactly `w` decimal digits, zero-padded on the left. */
  function Pad(n: nat, w: nat): (r: string)
    ensures |r| == w
    ensures forall i :: 0 <= i < |r| ==> IsDigit(r[i])
  {
    if w == 0 then [] else Pad(n / 10, w - 1) + [DigitChar(n % 10)]
  }

  function Pow10(w: nat): nat {
    if w == 0 then 1 else 10 * Pow10(w - 1)
  }

  function DigitValue(c: char): int {
    c as int - '0' as int
  }

  /** The number a run of decimal digits spells. */
  function DigitsValue(s: string): int {
    if s == [] then 0 else 10 * DigitsValue(s[..|s| - 1]) + DigitValue(s[|s| - 1])
  }

  lemma {:induction false} PadRoundTrip(n: nat, w: nat)
    requires n < Pow10(w)
    ensures DigitsValue(Pad(n, w)) == n
  {
    if w > 0 {
      var p := Pad(n, w);
      assert p[..|p| - 1] == Pad(n / 10, w - 1);
      PadRoundTrip(n / 10, w - 1);
    }
  }

  /** `strftime("%Y-%m-%d")`. */
  function FormatYmd(d: Date): string
    requires ValidDate(d)
  {
    Pad(d.year, 4) + "-" + Pad(d.month, 2) + "-" + Pad(d.day, 2)
  }

  /** Reads back a `YYYY-MM-DD` string. */
  function ParseYmd(s: string): Option<Date> {
    if |s| == 10 && s[4] == '-' && s[7] == '-'
       && (forall i :: 0 <= i < 10 && i != 4 && i != 7 ==> IsDigit(s[i]))
    then Some(Date(DigitsValue(s[..4]), DigitsValue(s[5..7]), DigitsValue(s[8..])))
    else None
  }

  /** The formatted date has the fixed shape and reads back as the same date. */
  lemma FormatYmdRoundTrip(d: Date)
    requires ValidDate(d)
    ensures |FormatYmd(d)| == 10 && FormatYmd(d)[4] == '-' && FormatYmd(d)[7] == '-'
    ensures ParseYmd(FormatYmd(d)) == Some(d)
  {
    var s := FormatYmd(d);
    var y, m, dd := Pad(d.year, 4), Pad(d.month, 2), Pad(d.day, 2);
    assert s == y + "-" + m + "-" + dd;
    assert s[..4] == y && s[5..7] == m && s[8..] == dd;
    forall i | 0 <= i < 10 && i != 4 && i != 7 ensures IsDigit(s[i]) {
      if i < 4 {
        assert s[i] == y[i];
      } else if i < 7 {
        assert s[i] == m[i - 5];
      } else {
        assert s[i] == dd[i - 8];
      }
    }
    assert Pow10(4) == 10000 && Pow10(2) == 100;
    PadRoundTrip(d.year, 4);
    PadRoundTrip(d.month, 2);
    PadRoundTrip(d.day, 2);
  }

  /** `datetime.isoformat()`: microseconds appear only when they are not zero. */
  function IsoFormat(t: DateTime): (r: string)
    requires ValidDateTime(t)
    ensures |r| == (if t.micro == 0 then 19 else 26)
    ensures r[..10] == FormatYmd(t.date) && r[10] == 'T'
  {
    FormatYmd(t.date) + "T" + Pad(t.hour, 2) + ":" + Pad(t.minute, 2) + ":" + Pad(t.second, 2)
    + (if t.micro == 0 then "" else "." + Pad(t.micro, 6))
  }
}
