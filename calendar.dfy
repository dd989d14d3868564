/**
 * Python's proleptic Gregorian `date`, represented by its ordinal
 * (`date.toordinal()`: 0001-01-01 is day 1), and `time` of day as minutes
 * after midnight.
 */
module Calendar {
  import opened Text

  /** A calendar date as its Python ordinal. */
  type Day = n: int | n >= 1 witness 1

  /** A clock time with minute resolution, 00:00 .. 23:59. */
  type Minute = m: int | 0 <= m < 1440

  /** A `datetime`: a date and a clock time. */
  datatype DateTime = DateTime(day: Day, minute: Minute)

  /** Python's `date.weekday()`: Monday is 0, Sunday is 6 (day 1 was a Monday). */
  function Weekday(d: Day): (w: int)
    ensures 0 <= w < 7
    ensures w == (d - 1) % 7
  {
    (d + 6) % 7
  }

  /** The Monday that starts the week of `d`: `d - timedelta(days=d.weekday())`. */
  function WeekStart(d: Day): (ws: Day)
    ensures Weekday(ws) == 0
    ensures ws <= d && d - ws < 7
  {
    d - Weekday(d)
  }

  /** The Monday of a week is the only day of that week that is a Monday. */
  lemma WeekStartUnique(d: Day, m: Day)
    requires Weekday(m) == 0 && m <= d && d - m < 7
    ensures m == WeekStart(d)
  {
  }

  predicate IsLeap(y: int)
  {
    y % 4 == 0 && (y % 100 != 0 || y % 400 == 0)
  }

  function DaysInYear(y: int): (n: nat)
    ensures n == 365 || n == 366
  {
    if IsLeap(y) then 366 else 365
  }

  function DaysInMonth(y: int, m: int): (n: nat)
    requires 1 <= m <= 12
    ensures 28 <= n <= 31
    ensures m == 2 ==> (n == 29 <==> IsLeap(y))
  {
    if m == 2 then (if IsLeap(y) then 29 else 28)
    else if m == 4 || m == 6 || m == 9 || m == 11 then 30
    else 31
  }

  /** Days of the year `y` that lie before the first of month `m`. */
  function DaysBeforeMonth(y: int, m: int): (n: nat)
    requires 1 <= m <= 12
  {
    [0, 31, 59, 90, 120, 151, 181, 212, 243, 273, 304, 334][m - 1]
      + (if m > 2 && IsLeap(y) then 1 else 0)
  }

  lemma DaysBeforeNextMonth(y: int, m: int)
    requires 1 <= m < 12
    ensures DaysBeforeMonth(y, m + 1) == DaysBeforeMonth(y, m) + DaysInMonth(y, m)
  {
  }

  lemma DaysBeforeDecember(y: int)
    ensures DaysBeforeMonth(y, 12) + DaysInMonth(y, 12) == DaysInYear(y)
  {
  }

  /** Days before the first of January of year `y`. */
  function DaysBeforeYear(y: int): nat
    requires y >= 1
  {
    if y == 1 then 0 else DaysBeforeYear(y - 1) + DaysInYear(y - 1)
  }

  /** A year, month and day as `date.year`, `date.month` and `date.day` report them. */
  datatype Civil = Civil(year: int, month: int, day: int)

  predicate ValidCivil(c: Civil)
  {
    c.year >= 1 && 1 <= c.month <= 12 && 1 <= c.day <= DaysInMonth(c.year, c.month)
  }

  /** Python's `date(y, m, d).toordinal()`. */
  function ToOrdinal(c: Civil): Day
    requires ValidCivil(c)
  {
    DaysBeforeYear(c.year) + DaysBeforeMonth(c.year, c.month) + c.day
  }

  /** The month and day of the `n`-th day of year `y`, counting from month `m`. */
  function MonthFrom(y: int, m: int, n: int): Civil
    requires y >= 1 && 1 <= m <= 12
    requires 1 <= n <= DaysInYear(y) - DaysBeforeMonth(y, m)
    decreases 12 - m
  {
    if n <= DaysInMonth(y, m) || m == 12 then Civil(y, m, n)
    else
      DaysBeforeNextMonth(y, m);
      MonthFrom(y, m + 1, n - DaysInMonth(y, m))
  }

  /** The date `n - 1` days after the first of January of year `y`. */
  function YearFrom(y: int, n: int): Civil
    requires y >= 1 && n >= 1
    decreases n
  {
    if n <= DaysInYear(y) then MonthFrom(y, 1, n)
    else YearFrom(y + 1, n - DaysInYear(y))
  }

  /** Python's `date.fromordinal(n)`. */
  function FromOrdinal(n: Day): (c: Civil)
    ensures ValidCivil(c)
  {
    YearFromValid(1, n);
    YearFrom(1, n)
  }

  /** `date.fromordinal(n).toordinal() == n`: every ordinal names exactly the date it came from. */
  lemma OrdinalRoundTrip(n: Day)
    ensures ToOrdinal(FromOrdinal(n)) == n
  {
    YearFromValid(1, n);
  }

  lemma {:induction false} MonthFromValid(y: int, m: int, n: int)
    requires y >= 1 && 1 <= m <= 12
    requires 1 <= n <= DaysInYear(y) - DaysBeforeMonth(y, m)
    ensures var c := MonthFrom(y, m, n);
      ValidCivil(c) && c.year == y && DaysBeforeMonth(y, c.month) + c.day == DaysBeforeMonth(y, m) + n
    decreases 12 - m
  {
    if m == 12 {
      DaysBeforeDecember(y);
    } else if n > DaysInMonth(y, m) {
      DaysBeforeNextMonth(y, m);
      MonthFromValid(y, m + 1, n - DaysInMonth(y, m));
    }
  }

  lemma {:induction false} YearFromValid(y: int, n: int)
    requires y >= 1 && n >= 1
    ensures ValidCivil(YearFrom(y, n)) && ToOrdinal(YearFrom(y, n)) == DaysBeforeYear(y) + n
    decreases n
  {
    if n <= DaysInYear(y) {
      YearFromFirst(y, n);
      MonthFromValid(y, 1, n);
    } else {
      YearFromNext(y, n);
      DaysBeforeNextYear(y);
      YearFromValid(y + 1, n - DaysInYear(y));
    }
  }

  lemma YearFromFirst(y: int, n: int)
    requires y >= 1 && 1 <= n <= DaysInYear(y)
    ensures YearFrom(y, n) == MonthFrom(y, 1, n) && DaysBeforeMonth(y, 1) == 0
  {
  }

  lemma YearFromNext(y: int, n: int)
    requires y >= 1 && n > DaysInYear(y)
    ensures YearFrom(y, n) == YearFrom(y + 1, n - DaysInYear(y))
  {
  }

  lemma DaysBeforeNextYear(y: int)
    requires y >= 1
    ensures DaysBeforeYear(y + 1) == DaysBeforeYear(y) + DaysInYear(y)
  {
  }

  lemma {:induction false} MonthFromInverse(y: int, m0: int, c: Civil)
    requires ValidCivil(c) && c.year == y && 1 <= m0 <= c.month
    ensures 1 <= DaysBeforeMonth(y, c.month) - DaysBeforeMonth(y, m0) + c.day <= DaysInYear(y) - DaysBeforeMonth(y, m0)
    ensures MonthFrom(y, m0, DaysBeforeMonth(y, c.month) - DaysBeforeMonth(y, m0) + c.day) == c
    decreases c.month - m0
  {
    DaysBeforeDecember(y);
    if m0 < c.month {
      DaysBeforeNextMonth(y, m0);
      MonthFromInverse(y, m0 + 1, c);
    }
  }

  lemma {:induction false} YearFromInverse(y0: int, c: Civil)
    requires ValidCivil(c) && 1 <= y0 <= c.year
    ensures DaysBeforeYear(c.year) - DaysBeforeYear(y0) >= 0
    ensures YearFrom(y0, DaysBeforeYear(c.year) - DaysBeforeYear(y0) + DaysBeforeMonth(c.year, c.month) + c.day) == c
    decreases c.year - y0
  {
    MonthFromInverse(c.year, 1, c);
    DaysBeforeDecember(c.year);
    if y0 < c.year {
      DaysBeforeYearMonotone(y0 + 1, c.year);
      YearFromInverse(y0 + 1, c);
    }
  }

  lemma {:induction false} DaysBeforeYearMonotone(a: int, b: int)
    requires 1 <= a <= b
    ensures DaysBeforeYear(a) <= DaysBeforeYear(b)
    decreases b - a
  {
    if a < b {
      DaysBeforeYearMonotone(a, b - 1);
    }
  }

  /** Converting a valid date to its ordinal and back gives the same date. */
  lemma CivilRoundTrip(c: Civil)
    requires ValidCivil(c)
    ensures FromOrdinal(ToOrdinal(c)) == c
  {
    YearFromInverse(1, c);
  }

  /** Python's `date + timedelta(days=k)` keeps the weekday arithmetic modulo 7. */
  lemma WeekdayAfter(d: Day, k: nat)
    ensures Weekday(d + k) == (Weekday(d) + k) % 7
  {
  }

  /** The `k`-th day after a Monday, for `k < 7`, has weekday `k`. */
  lemma WeekdayOfOffset(monday: Day, k: int)
    requires Weekday(monday) == 0 && 0 <= k < 7
    ensures Weekday(monday + k) == k
  {
    WeekdayAfter(monday, k);
  }

  /** `d.strftime("%y%m%d")`: two-digit year, zero-padded month and day. */
  function YyMmDd(d: Day): (s: string)
    ensures |s| == 6 && IsDigits(s)
  {
    var c := FromOrdinal(d);
    Pad2(c.year % 100) + Pad2(c.month) + Pad2(c.day)
  }

  /** Reads back the year modulo 100, the month and the day from six digits. */
  function ParseYyMmDd(s: string): (int, int, int)
    requires |s| == 6 && IsDigits(s)
  {
    (DigitsValue(s[0..2]), DigitsValue(s[2..4]), DigitsValue(s[4..6]))
  }

  /** The six digits carry the year modulo 100, the month and the day of the date. */
  lemma YyMmDdRoundTrip(d: Day)
    ensures var c := FromOrdinal(d);
      ParseYyMmDd(YyMmDd(d)) == (c.year % 100, c.month, c.day)
  {
    var c := FromOrdinal(d);
    var s := YyMmDd(d);
    assert s[0..2] == Pad2(c.year % 100);
    assert s[2..4] == Pad2(c.month);
    assert s[4..6] == Pad2(c.day);
  }

  /** `str(d)`, i.e. `d.isoformat()`: `YYYY-MM-DD`. */
  function IsoDate(d: Day): (s: string)
    ensures |s| >= 10
  {
    var c := FromOrdinal(d);
    ZeroPad(c.year, 4) + "-" + Pad2(c.month) + "-" + Pad2(c.day)
  }

  /**
   * `YYYY-MM-DD` reads back: the year's digits (four for every year Python's
   * `date` allows), `-`, two digits of the month, `-`, two digits of the day.
   */
  lemma IsoDateReadsBack(d: Day)
    ensures var s := IsoDate(d);
      var c := FromOrdinal(d);
      var n := |s| - 6;
      && 4 <= n && (c.year < 10000 ==> n == 4)
      && s[n] == '-' && s[n + 3] == '-'
      && IsDigits(s[..n]) && DigitsValue(s[..n]) == c.year
      && IsDigits(s[n + 1..n + 3]) && DigitsValue(s[n + 1..n + 3]) == c.month
      && IsDigits(s[n + 4..]) && DigitsValue(s[n + 4..]) == c.day
  {
    var c := FromOrdinal(d);
    var y, m, dd := ZeroPad(c.year, 4), Pad2(c.month), Pad2(c.day);
    DashedParts(y, m, dd);
    if c.year < 10000 {
      NatToStringBelow10000(c.year);
    }
  }

  /** The three parts of `a-bb-cc` are where the dashes put them. */
  lemma DashedParts(a: string, b: string, c: string)
    requires |b| == 2
    ensures var s := a + "-" + b + "-" + c;
      var n := |a|;
      && |s| == n + 4 + |c| && s[n] == '-' && s[n + 3] == '-'
      && s[..n] == a && s[n + 1..n + 3] == b && s[n + 4..] == c
  {
    var s := a + "-" + b + "-" + c;
    var n := |a|;
    assert s[..n] == a;
    assert s[n + 1..n + 3] == b;
    assert s[n + 4..] == c;
  }

  /** `t.strftime("%H:%M")`: zero-padded hour and minute. */
  function ClockText(m: Minute): (s: string)
    ensures |s| == 5 && s[2] == ':'
    ensures IsDigits(s[0..2]) && IsDigits(s[3..5])
  {
    Pad2(m / 60) + ":" + Pad2(m % 60)
  }

  /** Reads an `HH:MM` text back as minutes after midnight. */
  function ParseClock(s: string): int
    requires |s| == 5 && IsDigits(s[0..2]) && IsDigits(s[3..5])
  {
    DigitsValue(s[0..2]) * 60 + DigitsValue(s[3..5])
  }

  /** `HH:MM` rendering loses nothing: reading it back gives the clock time. */
  lemma ClockTextRoundTrip(m: Minute)
    ensures ParseClock(ClockText(m)) == m
  {
    var s := ClockText(m);
    assert s[0..2] == Pad2(m / 60);
    assert s[3..5] == Pad2(m % 60);
  }
}
