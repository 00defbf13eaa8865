/** The "next fire" search of a six-field cron pattern, in UTC (server/cron.go).

A pattern is six 64-bit masks.  The search moves a cursor forward by month, day,
hour, minute and second, restarting at the month whenever a field wraps, and
truncates the finer fields only the first time it moves.
 */
module CronSearch {
  import opened Calendar
  import opened Word64

  datatype Pattern = Pattern(second: Word, minute: Word, hour: Word, dom: Word, month: Word, dow: Word)

  /** The top bit marks a field written with a star. */
  predicate Starred(mask: Word) { HasBit(mask, 63) }

  const NANOS: int := 1_000_000_000

  // Each field is decided by the index of the unit that holds the time.

  predicate MonthOk(p: Pattern, month: int) { HasBit(p.month, month % 12 + 1) }

  predicate DayOk(p: Pattern, day: int) {
    var t := day * DAY;
    var domMatch := HasBit(p.dom, DayOfMonth(t));
    var dowMatch := HasBit(p.dow, Weekday(t));
    if Starred(p.dom) || Starred(p.dow) then domMatch && dowMatch
    else domMatch || dowMatch
  }

  predicate HourOk(p: Pattern, hour: int) { HasBit(p.hour, hour % 24) }

  predicate MinuteOk(p: Pattern, minute: int) { HasBit(p.minute, minute % 60) }

  predicate SecondOk(p: Pattern, t: int) { HasBit(p.second, Second(t)) }

  /** The pattern fires at second `t`. */
  predicate Fires(p: Pattern, t: int) {
    && MonthOk(p, MonthIndex(t))
    && DayOk(p, t / DAY)
    && HourOk(p, t / 3600)
    && MinuteOk(p, t / 60)
    && SecondOk(p, t)
  }

  /** The source's test on the broken-down time. */
  predicate DayMatches(dom: Word, dow: Word, t: int) {
    var domMatch := HasBit(dom, DayOfMonth(t));
    var dowMatch := HasBit(dow, Weekday(t));
    if Starred(dom) || Starred(dow) then domMatch && dowMatch
    else domMatch || dowMatch
  }

  ghost predicate Quiet(p: Pattern, from: int, to: int) {
    forall s :: from <= s < to ==> !Fires(p, s)
  }

  /** Once the cursor has been truncated, a field that mismatches has all finer fields at their minimum. */
  ghost predicate Aligned(p: Pattern, t: int) {
    && (MonthOk(p, MonthIndex(t)) || t == MonthStart(MonthIndex(t)) * DAY)
    && (DayOk(p, t / DAY) || t % DAY == 0)
    && (HourOk(p, t / 3600) || t % 3600 == 0)
    && (MinuteOk(p, t / 60) || t % 60 == 0)
  }

  ghost predicate Cursor(p: Pattern, start: int, next: int, truncated: bool) {
    && start <= next
    && Quiet(p, start, next)
    && (truncated ==> Aligned(p, next))
  }

  // Moving over one unit.

  lemma SkipMonth(p: Pattern, t: int)
    requires !MonthOk(p, MonthIndex(t))
    ensures var a, b := MonthStart(MonthIndex(t)) * DAY, MonthStart(MonthIndex(t) + 1) * DAY;
            && a <= t < b
            && Quiet(p, a, b)
            && MonthIndex(b) == MonthIndex(t) + 1
            && AddDate(a, 1, 0) == b
            && Aligned(p, b)
  {
    var k := MonthIndex(t);
    QuietMonth(p, k);
    NextMonth(k);
    NextMonth(k + 1);
  }

  lemma QuietMonth(p: Pattern, k: int)
    requires !MonthOk(p, k)
    ensures Quiet(p, MonthStart(k) * DAY, MonthStart(k + 1) * DAY)
  {
    forall s | MonthStart(k) * DAY <= s < MonthStart(k + 1) * DAY
      ensures !Fires(p, s)
    {
      DaysBetween(s, MonthStart(k), MonthStart(k + 1));
      MonthUnique(s / DAY, k);
    }
  }

  lemma DaysBetween(s: int, a: int, b: int)
    requires a * DAY <= s < b * DAY
    ensures a <= s / DAY < b
  {
  }

  lemma SkipDay(p: Pattern, t: int)
    requires !DayOk(p, t / DAY)
    ensures var a := t / DAY * DAY;
            && a <= t < a + DAY
            && Quiet(p, a, a + DAY)
            && (a + DAY) / DAY == t / DAY + 1
            && AddDate(a, 0, 1) == a + DAY
  {
    var a := t / DAY * DAY;
    assert forall s :: a <= s < a + DAY ==> s / DAY == t / DAY;
    DateOfFields(a);
  }

  /** After a day step inside a matching month the cursor is aligned, and a new month starts exactly on day 1. */
  lemma StepDay(p: Pattern, t: int)
    requires t % DAY == 0 && MonthOk(p, MonthIndex(t - DAY))
    ensures Aligned(p, t)
    ensures DayOfMonth(t) != 1 ==> MonthIndex(t) == MonthIndex(t - DAY)
  {
    var day := t / DAY;
    assert t == day * DAY;
    assert (t - DAY) / DAY == day - 1;
    assert t % 3600 == 0 && t % 60 == 0;
    NextDayMonth(day);
  }

  lemma StepHour(p: Pattern, t: int)
    requires t % 3600 == 0 && MonthOk(p, MonthIndex(t - 3600)) && DayOk(p, (t - 3600) / DAY)
    ensures Aligned(p, t)
    ensures Hour(t) != 0 ==> t / DAY == (t - 3600) / DAY
  {
    if t % DAY == 0 {
      assert (t - 3600) / DAY == (t - DAY) / DAY;
      StepDay(p, t);
    } else {
      assert t / DAY == (t - 3600) / DAY;
    }
  }

  lemma StepMinute(p: Pattern, t: int)
    requires t % 60 == 0 && MonthOk(p, MonthIndex(t - 60)) && DayOk(p, (t - 60) / DAY) && HourOk(p, (t - 60) / 3600)
    ensures Aligned(p, t)
    ensures Minute(t) != 0 ==> t / 3600 == (t - 60) / 3600 && t / DAY == (t - 60) / DAY
  {
    var m := t / 60;
    assert t == m * 60 && t / 3600 == m / 60 && (t - 60) / 3600 == (m - 1) / 60;
    assert t / DAY == m / 1440 && (t - 60) / DAY == (m - 1) / 1440;
    if t % 3600 == 0 {
      assert (t - 60) / DAY == (t - 3600) / DAY;
      StepHour(p, t);
    } else {
      assert t / 3600 == (t - 60) / 3600;
      assert t / DAY == (t - 60) / DAY;
    }
  }

  lemma SecondUnit(t: int)
    ensures if t % 60 == 0 then (t - 1) / 3600 == (t - 60) / 3600 && (t - 1) / DAY == (t - 60) / DAY
            else t / 60 == (t - 1) / 60 && t / 3600 == (t - 1) / 3600 && t / DAY == (t - 1) / DAY
    ensures Second(t) != 0 ==> Second(t) == Second(t - 1) + 1
  {
    if t % 60 == 0 {
      SameMinute(t - 1, t - 60);
    } else {
      SameMinute(t, t - 1);
    }
  }

  lemma StepSecond(p: Pattern, t: int)
    requires MonthOk(p, MonthIndex(t - 1)) && DayOk(p, (t - 1) / DAY) && HourOk(p, (t - 1) / 3600) && MinuteOk(p, (t - 1) / 60)
    ensures Aligned(p, t)
    ensures Second(t) != 0 ==> t / 60 == (t - 1) / 60 && t / 3600 == (t - 1) / 3600 && t / DAY == (t - 1) / DAY
    ensures Second(t) != 0 ==> Second(t) == Second(t - 1) + 1
  {
    SecondUnit(t);
    if t % 60 == 0 {
      StepMinute(p, t);
    }
  }

  /** The source's tests on the fields of a time are the tests on its unit indices. */
  lemma FieldTests(p: Pattern, t: int)
    ensures MonthOk(p, MonthIndex(t)) == HasBit(p.month, Month(t))
    ensures DayOk(p, t / DAY) == DayMatches(p.dom, p.dow, t)
    ensures HourOk(p, t / 3600) == HasBit(p.hour, Hour(t))
    ensures MinuteOk(p, t / 60) == HasBit(p.minute, Minute(t))
  {
    assert t / DAY * DAY / DAY == t / DAY;
  }

  /** A month step leaves a good cursor at the first second of the next month. */
  lemma MoveMonth(p: Pattern, start: int, t: int, truncated: bool)
    requires Cursor(p, start, t, truncated) && !MonthOk(p, MonthIndex(t))
    ensures var b := AddDate(if truncated then t else Date(MonthIndex(t), 1, 0, 0, 0), 1, 0);
            && Cursor(p, start, b, true) && t < b
            && (Month(b) != 1 ==> Year(b) == Year(t) && Month(b) == Month(t) + 1)
  {
    SkipMonth(p, t);
    assert Date(MonthIndex(t), 1, 0, 0, 0) == MonthStart(MonthIndex(t)) * DAY;
  }

  lemma MoveDay(p: Pattern, start: int, t: int, truncated: bool)
    requires Cursor(p, start, t, truncated) && !DayOk(p, t / DAY)
    requires MonthOk(p, MonthIndex(t))
    ensures var b := AddDate(if truncated then t else Date(MonthIndex(t), DayOfMonth(t), 0, 0, 0), 0, 1);
            && Cursor(p, start, b, true) && t < b
            && (DayOfMonth(b) != 1 ==> MonthIndex(b) == MonthIndex(t) && DayOfMonth(b) == DayOfMonth(t) + 1)
  {
    SkipDay(p, t);
    var a := t / DAY * DAY;
    assert a / DAY == t / DAY;
    assert Date(MonthIndex(t), DayOfMonth(t), 0, 0, 0) == a;
    StepDay(p, a + DAY);
  }

  lemma SkipHour(p: Pattern, t: int)
    requires !HourOk(p, t / 3600)
    ensures var a := t / 3600 * 3600;
            && a <= t < a + 3600
            && Quiet(p, a, a + 3600)
            && Date(MonthIndex(t), DayOfMonth(t), Hour(t), 0, 0) == a
  {
    var a := t / 3600 * 3600;
    assert forall s :: a <= s < a + 3600 ==> s / 3600 == t / 3600;
    DateOfFields(t);
  }

  lemma HourUnit(t: int)
    ensures var b := t / 3600 * 3600 + 3600;
            && (b - 3600) / DAY == t / DAY && b % 3600 == 0 && b / 3600 == t / 3600 + 1
            && (t % 3600 == 0 ==> t == b - 3600)
            && (Hour(b) != 0 ==> Hour(b) == Hour(t) + 1)
  {
    var h := t / 3600;
    assert h * 3600 / 3600 == h;
    DayOfHour(t);
    DayOfHour(h * 3600);
  }

  lemma MoveHour(p: Pattern, start: int, t: int, truncated: bool)
    requires Cursor(p, start, t, truncated) && !HourOk(p, t / 3600)
    requires MonthOk(p, MonthIndex(t)) && DayOk(p, t / DAY)
    ensures var b := (if truncated then t else Date(MonthIndex(t), DayOfMonth(t), Hour(t), 0, 0)) + 3600;
            && Cursor(p, start, b, true) && t < b
            && (Hour(b) != 0 ==> b / DAY == t / DAY && Hour(b) == Hour(t) + 1)
  {
    SkipHour(p, t);
    HourUnit(t);
    var b := t / 3600 * 3600 + 3600;
    assert b == (if truncated then t else Date(MonthIndex(t), DayOfMonth(t), Hour(t), 0, 0)) + 3600;
    StepHour(p, b);
  }

  lemma MinuteUnit(t: int)
    ensures var b := t - t % 60 + 60;
            && (b - 60) / 3600 == t / 3600 && (b - 60) / DAY == t / DAY
            && b % 60 == 0 && b / 60 == t / 60 + 1
            && (Minute(b) != 0 ==> Minute(b) == Minute(t) + 1)
            && forall s :: b - 60 <= s < b ==> s / 60 == t / 60
  {
    SameMinute(t - t % 60, t);
  }

  lemma MoveMinute(p: Pattern, start: int, t: int, truncated: bool)
    requires Cursor(p, start, t, truncated) && !MinuteOk(p, t / 60)
    requires MonthOk(p, MonthIndex(t)) && DayOk(p, t / DAY) && HourOk(p, t / 3600)
    ensures var b := (if truncated then t else t - t % 60) + 60;
            && Cursor(p, start, b, true) && t < b
            && (Minute(b) != 0 ==> b / 3600 == t / 3600 && b / DAY == t / DAY && Minute(b) == Minute(t) + 1)
  {
    MinuteUnit(t);
    var b := t - t % 60 + 60;
    assert b == (if truncated then t else t - t % 60) + 60;
    StepMinute(p, b);
  }

  // One method per field loop.  `wrap` reports the jump back to the first field.

  method SeekMonth(p: Pattern, ghost start: int, from: int, wasTruncated: bool)
    returns (next: int, truncated: bool, wrap: bool)
    requires Cursor(p, start, from, wasTruncated)
    ensures Cursor(p, start, next, truncated)
    ensures if wrap then from < next else
              from <= next && MonthOk(p, MonthIndex(next)) && Year(next) == Year(from)
  {
    next, truncated, wrap := from, wasTruncated, false;
    while !HasBit(p.month, Month(next))
      invariant Cursor(p, start, next, truncated)
      invariant from <= next && Year(next) == Year(from)
      decreases 12 - Month(next)
    {
      MoveMonth(p, start, next, truncated);
      if !truncated {
        truncated := true;
        next := Date(MonthIndex(next), 1, 0, 0, 0);
      }
      next := AddDate(next, 1, 0);
      if Month(next) == 1 {
        wrap := true;
        return;
      }
    }
  }

  method SeekDay(p: Pattern, ghost start: int, from: int, wasTruncated: bool)
    returns (next: int, truncated: bool, wrap: bool)
    requires Cursor(p, start, from, wasTruncated)
    requires MonthOk(p, MonthIndex(from))
    ensures Cursor(p, start, next, truncated)
    ensures if wrap then from < next else
              from <= next && DayOk(p, next / DAY) && MonthIndex(next) == MonthIndex(from)
  {
    next, truncated, wrap := from, wasTruncated, false;
    FieldTests(p, next);
    while !DayMatches(p.dom, p.dow, next)
      invariant Cursor(p, start, next, truncated)
      invariant from <= next && MonthIndex(next) == MonthIndex(from)
      invariant DayOk(p, next / DAY) == DayMatches(p.dom, p.dow, next)
      decreases 31 - DayOfMonth(next)
    {
      MoveDay(p, start, next, truncated);
      if !truncated {
        truncated := true;
        next := Date(MonthIndex(next), DayOfMonth(next), 0, 0, 0);
      }
      next := AddDate(next, 0, 1);
      FieldTests(p, next);
      if DayOfMonth(next) == 1 {
        wrap := true;
        return;
      }
    }
  }

  method SeekHour(p: Pattern, ghost start: int, from: int, wasTruncated: bool)
    returns (next: int, truncated: bool, wrap: bool)
    requires Cursor(p, start, from, wasTruncated)
    requires MonthOk(p, MonthIndex(from)) && DayOk(p, from / DAY)
    ensures Cursor(p, start, next, truncated)
    ensures if wrap then from < next else
              from <= next && HourOk(p, next / 3600) && next / DAY == from / DAY
  {
    next, truncated, wrap := from, wasTruncated, false;
    while !HasBit(p.hour, Hour(next))
      invariant Cursor(p, start, next, truncated)
      invariant from <= next && next / DAY == from / DAY
      decreases 24 - Hour(next)
    {
      MoveHour(p, start, next, truncated);
      if !truncated {
        truncated := true;
        next := Date(MonthIndex(next), DayOfMonth(next), Hour(next), 0, 0);
      }
      next := next + 3600;
      if Hour(next) == 0 {
        wrap := true;
        return;
      }
    }
  }

  method SeekMinute(p: Pattern, ghost start: int, from: int, wasTruncated: bool)
    returns (next: int, truncated: bool, wrap: bool)
    requires Cursor(p, start, from, wasTruncated)
    requires MonthOk(p, MonthIndex(from)) && DayOk(p, from / DAY) && HourOk(p, from / 3600)
    ensures Cursor(p, start, next, truncated)
    ensures if wrap then from < next else
              from <= next && MinuteOk(p, next / 60) && next / 3600 == from / 3600 && next / DAY == from / DAY
  {
    next, truncated, wrap := from, wasTruncated, false;
    while !HasBit(p.minute, Minute(next))
      invariant Cursor(p, start, next, truncated)
      invariant from <= next && next / 3600 == from / 3600 && next / DAY == from / DAY
      decreases 60 - Minute(next)
    {
      MoveMinute(p, start, next, truncated);
      if !truncated {
        truncated := true;
        next := next - next % 60;
      }
      next := next + 60;
      if Minute(next) == 0 {
        wrap := true;
        return;
      }
    }
  }

  method SeekSecond(p: Pattern, ghost start: int, from: int, wasTruncated: bool)
    returns (next: int, truncated: bool, wrap: bool)
    requires Cursor(p, start, from, wasTruncated)
    requires MonthOk(p, MonthIndex(from)) && DayOk(p, from / DAY) && HourOk(p, from / 3600) && MinuteOk(p, from / 60)
    ensures Cursor(p, start, next, truncated)
    ensures if wrap then from < next else
              && from <= next && SecondOk(p, next)
              && next / 60 == from / 60 && next / 3600 == from / 3600 && next / DAY == from / DAY
  {
    next, truncated, wrap := from, wasTruncated, false;
    while !HasBit(p.second, Second(next))
      invariant Cursor(p, start, next, truncated)
      invariant from <= next && next / 60 == from / 60 && next / 3600 == from / 3600 && next / DAY == from / DAY
      decreases 60 - Second(next)
    {
      truncated := true;
      next := next + 1;
      StepSecond(p, next);
      if Second(next) == 0 {
        wrap := true;
        return;
      }
    }
  }

  datatype SearchResult = At(time: int) | OutOfRange

  /** Times of year `y` and earlier end before the first second of year `y + 1`. */
  lemma YearEnd(t: int, y: int)
    requires Year(t) <= y
    ensures t < MonthStart(12 * (y + 1)) * DAY
  {
    MonthStartMonotone(MonthIndex(t) + 1, 12 * (y + 1));
  }

  lemma YearMonotone(s: int, t: int)
    requires s <= t
    ensures Year(s) <= Year(t)
  {
    if MonthIndex(t) < MonthIndex(s) {
      MonthStartMonotone(MonthIndex(t) + 1, MonthIndex(s));
    }
  }

  /** The search from a time in nanoseconds.  It always ends; it returns the first second
      later than `ts` at which the pattern fires, and reports `OutOfRange` exactly when there
      is none up to the end of the fifth year after the year of the first candidate.
   */
  method NextFire(p: Pattern, ts: int) returns (r: SearchResult)
    ensures r.At? ==> ts < r.time * NANOS && Fires(p, r.time)
    ensures r.At? ==> forall s :: ts < s * NANOS && s < r.time ==> !Fires(p, s)
    ensures r.At? ==> Year(r.time) <= Year(ts / NANOS + 1) + 5
    ensures r.OutOfRange? ==>
              forall s :: ts < s * NANOS && Year(s) <= Year(ts / NANOS + 1) + 5 ==> !Fires(p, s)
  {
    ghost var start := ts / NANOS + 1;
    var next := ts / NANOS + 1;
    var truncated := false;
    var wrap := false;
    var yearLimit := Year(next) + 5;
    while true
      invariant Cursor(p, start, next, truncated)
      decreases MonthStart(12 * (yearLimit + 1)) * DAY - next
    {
      if Year(next) > yearLimit {
        forall s | start <= s && Year(s) <= yearLimit
          ensures !Fires(p, s)
        {
          if next <= s {
            YearMonotone(next, s);
          }
        }
        return OutOfRange;
      }
      YearEnd(next, yearLimit);
      next, truncated, wrap := SeekMonth(p, start, next, truncated);
      if wrap { continue; }
      next, truncated, wrap := SeekDay(p, start, next, truncated);
      if wrap { continue; }
      next, truncated, wrap := SeekHour(p, start, next, truncated);
      if wrap { continue; }
      next, truncated, wrap := SeekMinute(p, start, next, truncated);
      if wrap { continue; }
      next, truncated, wrap := SeekSecond(p, start, next, truncated);
      if wrap { continue; }
      return At(next);
    }
  }
}
