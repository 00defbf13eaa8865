/** The proleptic Gregorian calendar in UTC, as the cron search uses it.

Times are whole seconds since 1970-01-01T00:00:00Z.  Months are counted on one
line: month `m` of year `y` has index `12 * y + m - 1`, which is also how
`time.Date` normalises a month outside 1..12.
 */
module Calendar {

  const DAY: int := 86400

  predicate Leap(y: int) {
    y % 4 == 0 && (y % 100 != 0 || y % 400 == 0)
  }

  function MonthLen(k: int): (n: int)
    ensures 28 <= n <= 31
  {
    var m := k % 12 + 1;
    if m == 2 then (if Leap(k / 12) then 29 else 28)
    else if m == 4 || m == 6 || m == 9 || m == 11 then 30
    else 31
  }

  const EPOCH_MONTH: int := 1970 * 12

  /** Day number of the first day of month `k`. */
  function MonthStart(k: int): int
    decreases if k < EPOCH_MONTH then EPOCH_MONTH - k else k - EPOCH_MONTH
  {
    if k == EPOCH_MONTH then 0
    else if k > EPOCH_MONTH then MonthStart(k - 1) + MonthLen(k - 1)
    else MonthStart(k + 1) - MonthLen(k)
  }

  lemma MonthStep(k: int)
    ensures MonthStart(k + 1) == MonthStart(k) + MonthLen(k)
  {
  }

  /** The month whose days include `day`, searched from month `k`. */
  function FindMonth(day: int, k: int): (r: int)
    ensures MonthStart(r) <= day < MonthStart(r + 1)
    decreases if day < MonthStart(k) then 1 else 0,
              if day < MonthStart(k) then MonthStart(k) - day else day - MonthStart(k)
  {
    MonthStep(k);
    MonthStep(k - 1);
    if day < MonthStart(k) then FindMonth(day, k - 1)
    else if day < MonthStart(k + 1) then k
    else FindMonth(day, k + 1)
  }

  function MonthOfDay(day: int): (k: int)
    ensures MonthStart(k) <= day < MonthStart(k + 1)
  {
    FindMonth(day, EPOCH_MONTH)
  }

  lemma MonthStartMonotone(j: int, k: int)
    requires j <= k
    ensures MonthStart(j) + 28 * (k - j) <= MonthStart(k)
    decreases k - j
  {
    if j < k {
      MonthStartMonotone(j, k - 1);
      MonthStep(k - 1);
    }
  }

  /** A day lies in exactly one month. */
  lemma MonthUnique(day: int, k: int)
    requires MonthStart(k) <= day < MonthStart(k + 1)
    ensures MonthOfDay(day) == k
  {
    var r := MonthOfDay(day);
    if r < k {
      MonthStartMonotone(r + 1, k);
    } else if k < r {
      MonthStartMonotone(k + 1, r);
    }
  }

  /** Consecutive days share their month unless the later one is the first of its month. */
  lemma NextDayMonth(day: int)
    ensures MonthOfDay(day) == MonthOfDay(day - 1) || day == MonthStart(MonthOfDay(day))
  {
    var k := MonthOfDay(day - 1);
    MonthStep(k + 1);
    if day < MonthStart(k + 1) {
      MonthUnique(day, k);
    } else {
      MonthUnique(day, k + 1);
    }
  }

  // The fields of a time.

  function MonthIndex(t: int): int { MonthOfDay(t / DAY) }

  function Year(t: int): int { MonthIndex(t) / 12 }

  function Month(t: int): (m: int)
    ensures 1 <= m <= 12
  {
    MonthIndex(t) % 12 + 1
  }

  function DayOfMonth(t: int): (d: int)
    ensures 1 <= d <= 31
  {
    MonthStep(MonthIndex(t));
    t / DAY - MonthStart(MonthIndex(t)) + 1
  }

  function Weekday(t: int): (d: int)
    ensures 0 <= d <= 6
  {
    (t / DAY + 4) % 7
  }

  function Hour(t: int): (h: int)
    ensures 0 <= h <= 23
  {
    t / 3600 % 24
  }

  function Minute(t: int): (m: int)
    ensures 0 <= m <= 59
  {
    t / 60 % 60
  }

  function Second(t: int): (s: int)
    ensures 0 <= s <= 59
  {
    t % 60
  }

  /** `time.Date` for a day that may lie outside the month. */
  function Date(month: int, day: int, h: int, m: int, s: int): int {
    (MonthStart(month) + day - 1) * DAY + h * 3600 + m * 60 + s
  }

  /** `AddDate(0, months, days)`: the named fields move, the rest stays, the result is normalised. */
  function AddDate(t: int, months: int, days: int): int {
    Date(MonthIndex(t) + months, DayOfMonth(t) + days, Hour(t), Minute(t), Second(t))
  }

  /** Splitting a time into fields and putting them back together is the identity. */
  lemma DateOfFields(t: int)
    ensures Date(MonthIndex(t), DayOfMonth(t), Hour(t), Minute(t), Second(t)) == t
  {
    var h, m := t / 3600, t / 60;
    assert h / 24 == t / DAY;
    assert m / 60 == h;
  }

  lemma Of60(q: int, r: int)
    requires 0 <= r < 60
    ensures (q * 60 + r) / 60 == q && (q * 60 + r) % 60 == r
  {
  }

  lemma Of3600(q: int, r: int)
    requires 0 <= r < 3600
    ensures (q * 3600 + r) / 3600 == q
  {
  }

  lemma OfDay(q: int, r: int)
    requires 0 <= r < DAY
    ensures (q * DAY + r) / DAY == q
  {
  }

  lemma Of24(q: int, r: int)
    requires 0 <= r < 24
    ensures (q * 24 + r) % 24 == r
  {
  }

  lemma SplitClock(day: int, h: int, m: int, s: int)
    requires 0 <= h < 24 && 0 <= m < 60 && 0 <= s < 60
    ensures var t := day * DAY + h * 3600 + m * 60 + s;
            t / DAY == day && Hour(t) == h && Minute(t) == m && Second(t) == s
  {
    var t := day * DAY + h * 3600 + m * 60 + s;
    var hours := day * 24 + h;
    var minutes := hours * 60 + m;
    assert t / DAY == day by { OfDay(day, h * 3600 + m * 60 + s); }
    assert t / 3600 % 24 == h by {
      Of3600(hours, m * 60 + s);
      Of24(day, h);
    }
    assert t / 60 % 60 == m && t % 60 == s by {
      Of60(minutes, s);
      Of60(hours, m);
    }
  }

  lemma HourOfMinute(t: int)
    ensures t / 60 / 60 == t / 3600
  {
  }

  lemma DayOfHour(t: int)
    ensures t / 3600 / 24 == t / DAY
  {
  }

  lemma SameMinute(t: int, u: int)
    requires t / 60 == u / 60
    ensures t / 3600 == u / 3600 && t / DAY == u / DAY
  {
    HourOfMinute(t);
    HourOfMinute(u);
    DayOfHour(t);
    DayOfHour(u);
  }

  /** Every valid civil date is the date of the time `Date` builds from it. */
  lemma FieldsOfDate(k: int, d: int, h: int, m: int, s: int)
    requires 1 <= d <= MonthLen(k) && 0 <= h < 24 && 0 <= m < 60 && 0 <= s < 60
    ensures var t := Date(k, d, h, m, s);
            MonthIndex(t) == k && DayOfMonth(t) == d && Hour(t) == h && Minute(t) == m && Second(t) == s
  {
    MonthStep(k);
    var day := MonthStart(k) + d - 1;
    MonthUnique(day, k);
    SplitClock(day, h, m, s);
  }

  /** The first day of the next month, reached from the first day of a month. */
  lemma NextMonth(k: int)
    ensures MonthIndex(MonthStart(k) * DAY) == k
    ensures AddDate(MonthStart(k) * DAY, 1, 0) == MonthStart(k + 1) * DAY
  {
    FieldsOfDate(k, 1, 0, 0, 0);
  }

  /** Number of leap days strictly before year `y`, counted from year 1. */
  function LeapDaysBefore(y: int): int {
    (y - 1) / 4 - (y - 1) / 100 + (y - 1) / 400
  }

  lemma QuarterStep(y: int, q: int)
    requires q == 0 || q == 3 || q == 6 || q == 9
    ensures MonthStart(12 * y + q + 3) - MonthStart(12 * y + q) ==
            if q == 0 then (if Leap(y) then 91 else 90) else if q == 3 then 91 else 92
  {
    var k := 12 * y + q;
    assert k / 12 == y && (k + 1) / 12 == y && (k + 2) / 12 == y;
    assert k % 12 == q && (k + 1) % 12 == q + 1 && (k + 2) % 12 == q + 2;
    MonthStep(k);
    MonthStep(k + 1);
    MonthStep(k + 2);
  }

  lemma YearStep(y: int)
    ensures MonthStart(12 * (y + 1)) == MonthStart(12 * y) + (if Leap(y) then 366 else 365)
  {
    QuarterStep(y, 0);
    QuarterStep(y, 3);
    QuarterStep(y, 6);
    QuarterStep(y, 9);
  }

  /** The month-by-month calendar agrees with the usual leap-day count for every year. */
  lemma {:induction false} YearStartClosedForm(y: int)
    ensures MonthStart(12 * y) == 365 * (y - 1970) + LeapDaysBefore(y) - LeapDaysBefore(1970)
    decreases if y < 1970 then 1970 - y else y - 1970
  {
    if y > 1970 {
      YearStartClosedForm(y - 1);
      YearStep(y - 1);
      LeapStep(y - 1);
    } else if y < 1970 {
      YearStartClosedForm(y + 1);
      YearStep(y);
      LeapStep(y);
    }
  }

  lemma Fours(y: int)
    ensures y / 4 == (y - 1) / 4 + (if y % 4 == 0 then 1 else 0)
  {
  }

  lemma Centuries(y: int)
    ensures y / 100 == (y - 1) / 100 + (if y % 100 == 0 then 1 else 0)
    ensures y % 100 == 0 ==> y % 4 == 0
  {
  }

  lemma FourCenturies(y: int)
    ensures y / 400 == (y - 1) / 400 + (if y % 400 == 0 then 1 else 0)
    ensures y % 400 == 0 ==> y % 100 == 0
  {
  }

  lemma LeapStep(y: int)
    ensures LeapDaysBefore(y + 1) == LeapDaysBefore(y) + (if Leap(y) then 1 else 0)
  {
    Fours(y);
    Centuries(y);
    FourCenturies(y);
  }

  // Weekdays.

  /** How far the months of a year, counted from March, shift the weekday. */
  function MonthShift(m: int): int
    requires 1 <= m <= 12
  {
    [0, 3, 2, 5, 0, 3, 5, 1, 4, 6, 2, 4][m - 1]
  }

  /** The weekday of a civil date by a congruence on year, month and day, with Sunday as 0. */
  function CivilWeekday(y: int, m: int, d: int): int
    requires 1 <= m <= 12
  {
    var v := if m < 3 then y - 1 else y;
    (v + v / 4 - v / 100 + v / 400 + MonthShift(m) + d) % 7
  }

  /** The days of a year before its month `q`, counted from 0, and the leap day if it is among them. */
  function DaysBefore(q: int): int
    requires 0 <= q < 12
  {
    [0, 31, 59, 90, 120, 151, 181, 212, 243, 273, 304, 334][q]
  }

  lemma {:induction false} MonthInYear(y: int, q: int)
    requires 0 <= q < 12
    ensures MonthStart(12 * y + q) == MonthStart(12 * y) + DaysBefore(q) + if q >= 2 && Leap(y) then 1 else 0
    decreases q
  {
    if q > 0 {
      var k := 12 * y + q - 1;
      MonthInYear(y, q - 1);
      MonthStep(k);
      assert k / 12 == y && k % 12 == q - 1;
    }
  }

  /** The day number of a civil date. */
  lemma DayNumber(y: int, m: int, d: int)
    requires 1 <= m <= 12
    ensures MonthStart(12 * y + m - 1) + d - 1 ==
            365 * (y - 1970) + LeapDaysBefore(y) - 477 + DaysBefore(m - 1) + (if m >= 3 && Leap(y) then 1 else 0) + d - 1
  {
    MonthInYear(y, m - 1);
    YearStartClosedForm(y);
  }

  lemma SevenApart(a: int, b: int, n: int)
    requires a == b + 7 * n
    ensures a % 7 == b % 7
  {
  }

  /** By how much the days before a month and its shift differ: seven times this, and one. */
  function Weeks(m: int): (n: int)
    requires 1 <= m <= 12
    ensures DaysBefore(m - 1) + (if m < 3 then 1 else 0) - MonthShift(m) == 7 * n + 1
  {
    (DaysBefore(m - 1) - MonthShift(m)) / 7
  }

  /** Leap days up to the year that the congruence counts with. */
  function LeapsUpTo(y: int, m: int): int {
    LeapDaysBefore(y) + if m >= 3 && Leap(y) then 1 else 0
  }

  lemma CivilByLeaps(y: int, m: int, d: int)
    requires 1 <= m <= 12
    ensures CivilWeekday(y, m, d) == ((if m < 3 then y - 1 else y) + LeapsUpTo(y, m) + MonthShift(m) + d) % 7
  {
    LeapStep(y);
  }

  lemma WeekdayOfDay(y: int, m: int, d: int)
    requires 1 <= m <= 12
    ensures (MonthStart(12 * y + m - 1) + d - 1 + 4) % 7 == CivilWeekday(y, m, d)
  {
    var day, civil := MonthStart(12 * y + m - 1) + d - 1, (if m < 3 then y - 1 else y) + LeapsUpTo(y, m) + MonthShift(m) + d;
    DayNumber(y, m, d);
    CivilByLeaps(y, m, d);
    SevenApart(day + 4, civil, 52 * y - 102789 + Weeks(m));
  }

  /** The weekday that the search computes from the seconds is that of the civil date. */
  lemma WeekdayOfDate(y: int, m: int, d: int, h: int, mi: int, s: int)
    requires 1 <= m <= 12 && 0 <= h < 24 && 0 <= mi < 60 && 0 <= s < 60
    ensures Weekday(Date(12 * y + m - 1, d, h, mi, s)) == CivilWeekday(y, m, d)
  {
    SplitClock(MonthStart(12 * y + m - 1) + d - 1, h, mi, s);
    WeekdayOfDay(y, m, d);
  }

  /** The weekday of a time, from its year, month and day. */
  lemma WeekdayOfTime(t: int)
    ensures Weekday(t) == CivilWeekday(Year(t), Month(t), DayOfMonth(t))
  {
    var k := MonthIndex(t);
    assert 12 * (k / 12) + k % 12 == k;
    DateOfFields(t);
    WeekdayOfDate(Year(t), Month(t), DayOfMonth(t), Hour(t), Minute(t), Second(t));
  }

  /** The start of its day has the date of a time. */
  lemma StartOfDay(t: int)
    ensures var m := t / DAY * DAY; DayOfMonth(m) == DayOfMonth(t) && Weekday(m) == Weekday(t)
  {
    OfDay(t / DAY, 0);
  }

  lemma CivilParts(y: int, m: int, d: int, h: int, mi: int, s: int, t: int)
    requires t == Date(12 * y + m - 1, d, h, mi, s)
    requires 1 <= m <= 12 && 1 <= d <= MonthLen(12 * y + m - 1) && 0 <= h < 24 && 0 <= mi < 60 && 0 <= s < 60
    ensures Year(t) == y && Month(t) == m && DayOfMonth(t) == d && Hour(t) == h && Minute(t) == mi && Second(t) == s
  {
    FieldsOfDate(12 * y + m - 1, d, h, mi, s);
  }
}
