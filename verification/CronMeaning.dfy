/** What a written cron pattern means: on which civil dates and times it fires. */
module CronMeaning {
  import opened Basics
  import opened Calendar
  import opened CronField
  import opened Strings
  import opened Word64
  import Cron
  import Search = CronSearch
  import Text = CronText

  /** A written field: ranges between commas. */
  datatype Row = Row(first: Text.Range, others: seq<Text.Range>)

  function RowText(w: Row): string { Text.RangeText(w.first) + Tail(',', Text.Texts(w.others)) }

  function Ranges(w: Row): seq<Text.Range> { [w.first] + w.others }

  predicate Written(w: Row) { Text.Written(w.first) && Text.AllWritten(w.others) }

  /** Second, minute, hour, day of the month, month and day of the week. */
  datatype Table = Table(second: Row, minute: Row, hour: Row, dom: Row, month: Row, dow: Row)

  function Fields(t: Table): seq<string> {
    [RowText(t.second), RowText(t.minute), RowText(t.hour), RowText(t.dom), RowText(t.month), RowText(t.dow)]
  }

  predicate AllWritten(t: Table) {
    Written(t.second) && Written(t.minute) && Written(t.hour) && Written(t.dom) && Written(t.month) && Written(t.dow)
  }

  predicate Valid(w: Row, b: Bounds) { Text.AllValid(Ranges(w), b) }

  predicate AllValid(t: Table) {
    && Valid(t.second, SECONDS) && Valid(t.minute, MINUTES) && Valid(t.hour, HOURS)
    && Valid(t.dom, DOM) && Valid(t.month, MONTHS) && Valid(t.dow, DOW)
  }

  /** One of the ranges has the value. */
  predicate Has(w: Row, b: Bounds, i: int)
    requires Valid(w, b)
  {
    Text.Denoted(Ranges(w), b, i)
  }

  /** One of them is a star or a question mark without a real step. */
  predicate Starry(w: Row) { exists r :: r in Ranges(w) && r.span.Every? && Text.Step(r) == 1 }

  /** Fires on this day: where one of the two lists of days has a star the day is in both, and otherwise in one of them. */
  predicate OnDay(t: Table, y: int, m: int, d: int)
    requires Valid(t.dom, DOM) && Valid(t.dow, DOW) && 1 <= m <= 12
  {
    if Starry(t.dom) || Starry(t.dow) then Has(t.dom, DOM, d) && Has(t.dow, DOW, CivilWeekday(y, m, d))
    else Has(t.dom, DOM, d) || Has(t.dow, DOW, CivilWeekday(y, m, d))
  }

  /** Fires at this time of this day. */
  predicate OnTime(t: Table, h: int, mi: int, s: int)
    requires Valid(t.second, SECONDS) && Valid(t.minute, MINUTES) && Valid(t.hour, HOURS)
  {
    Has(t.hour, HOURS, h) && Has(t.minute, MINUTES, mi) && Has(t.second, SECONDS, s)
  }

  // Names.

  const MONTH_NAMES := ["jan", "feb", "mar", "apr", "may", "jun", "jul", "aug", "sep", "oct", "nov", "dec"]

  const DAY_NAMES := ["sun", "mon", "tue", "wed", "thu", "fri", "sat"]

  lemma PlainWord(x: string)
    requires |x| == 3 && 'a' <= x[0] <= 'z' && 'a' <= x[1] <= 'z' && 'a' <= x[2] <= 'z'
    ensures Text.Lettered(x) && Lower(x) == x
  {
  }

  lemma MonthsUsable()
    ensures Text.Usable(MONTHS)
  {
    forall x | x in MONTHS.names
      ensures Text.Lettered(x) && Lower(x) == x
    {
      PlainWord(x);
    }
  }

  lemma DaysUsable()
    ensures Text.Usable(DOW)
  {
    forall x | x in DOW.names
      ensures Text.Lettered(x) && Lower(x) == x
    {
      PlainWord(x);
    }
  }

  /** A month name, in any case, is the number of the month from one, a day name that of the day from Sunday as zero, and
      there are no other names.
   */
  lemma NamesDenote(s: string)
    requires Text.Lettered(s)
    ensures forall i :: 0 <= i < 12 && Lower(s) == MONTH_NAMES[i] ==> ParseIntOrName(s, MONTHS.names) == Some(i + 1)
    ensures forall i :: 0 <= i < 7 && Lower(s) == DAY_NAMES[i] ==> ParseIntOrName(s, DOW.names) == Some(i)
    ensures Lower(s) !in MONTH_NAMES ==> ParseIntOrName(s, MONTHS.names) == None
    ensures Lower(s) !in DAY_NAMES ==> ParseIntOrName(s, DOW.names) == None
  {
    Text.WordBack(s, MONTHS.names);
    Text.WordBack(s, DOW.names);
  }

  // Patterns.

  /** The mask has the values of the field, and its top bit the star. */
  predicate Masks(mask: Word, w: Row, b: Bounds) { Valid(w, b) && Text.IsFieldMask(mask, Ranges(w), b) }

  predicate AllMasks(p: Search.Pattern, t: Table) {
    && Masks(p.second, t.second, SECONDS) && Masks(p.minute, t.minute, MINUTES) && Masks(p.hour, t.hour, HOURS)
    && Masks(p.dom, t.dom, DOM) && Masks(p.month, t.month, MONTHS) && Masks(p.dow, t.dow, DOW)
  }

  lemma RowBack(w: Row, b: Bounds)
    requires Text.Usable(b) && Written(w)
    ensures match Field(RowText(w), b) case None => !Valid(w, b) case Some(mask) => Masks(mask, w, b)
  {
    Text.FieldBack(w.first, w.others, b);
  }

  lemma MonthRowBack(w: Row)
    requires Written(w)
    ensures match Field(RowText(w), MONTHS) case None => !Valid(w, MONTHS) case Some(mask) => Masks(mask, w, MONTHS)
  {
    MonthsUsable();
    RowBack(w, MONTHS);
  }

  lemma DayRowBack(w: Row)
    requires Written(w)
    ensures match Field(RowText(w), DOW) case None => !Valid(w, DOW) case Some(mask) => Masks(mask, w, DOW)
  {
    DaysUsable();
    RowBack(w, DOW);
  }

  /** A written pattern is accepted if and only if all its ranges are valid. */
  lemma Accepted(t: Table)
    requires AllWritten(t)
    ensures Cron.WellFormed(Fields(t)) <==> AllValid(t)
  {
    RowBack(t.second, SECONDS);
    RowBack(t.minute, MINUTES);
    RowBack(t.hour, HOURS);
    RowBack(t.dom, DOM);
    MonthRowBack(t.month);
    DayRowBack(t.dow);
  }

  /** The masks of a written pattern have the values of its fields. */
  lemma Parsed(t: Table)
    requires AllWritten(t) && Cron.WellFormed(Fields(t))
    ensures AllMasks(Cron.PatternOf(Fields(t)), t)
  {
    RowBack(t.second, SECONDS);
    RowBack(t.minute, MINUTES);
    RowBack(t.hour, HOURS);
    RowBack(t.dom, DOM);
    MonthRowBack(t.month);
    DayRowBack(t.dow);
  }

  // Times.

  lemma DayFires(t: Table, p: Search.Pattern, at: int)
    requires Masks(p.dom, t.dom, DOM) && Masks(p.dow, t.dow, DOW)
    ensures Search.DayOk(p, at / DAY) <==> OnDay(t, Year(at), Month(at), DayOfMonth(at))
  {
    StartOfDay(at);
    WeekdayOfTime(at);
  }

  lemma TimeFires(t: Table, p: Search.Pattern, at: int)
    requires Masks(p.second, t.second, SECONDS) && Masks(p.minute, t.minute, MINUTES) && Masks(p.hour, t.hour, HOURS)
    ensures Search.HourOk(p, at / 3600) && Search.MinuteOk(p, at / 60) && Search.SecondOk(p, at) <==>
            OnTime(t, Hour(at), Minute(at), Second(at))
  {
  }

  /** The civil date and time of second `at` are in all lists. */
  predicate InTable(t: Table, at: int)
    requires AllValid(t)
  {
    && Has(t.month, MONTHS, Month(at))
    && OnDay(t, Year(at), Month(at), DayOfMonth(at))
    && OnTime(t, Hour(at), Minute(at), Second(at))
  }

  lemma InTableFires(t: Table, p: Search.Pattern, at: int)
    requires AllMasks(p, t)
    ensures InTable(t, at) <==> Search.Fires(p, at)
  {
    DayFires(t, p, at);
    TimeFires(t, p, at);
  }

  lemma InTableOn(t: Table, y: int, m: int, d: int, h: int, mi: int, s: int, at: int)
    requires AllValid(t) && Year(at) == y && Month(at) == m && DayOfMonth(at) == d
    requires Hour(at) == h && Minute(at) == mi && Second(at) == s
    ensures InTable(t, at) == (Has(t.month, MONTHS, m) && OnDay(t, y, m, d) && OnTime(t, h, mi, s))
  {
  }

  /** A pattern with the masks of a table fires on a civil date and time if and only if the month list has the month, the
      day lists allow the day, and the hour, minute and second lists have the time.
   */
  lemma FiresExactly(t: Table, p: Search.Pattern, y: int, m: int, d: int, h: int, mi: int, s: int, at: int)
    requires AllMasks(p, t) && at == Date(12 * y + m - 1, d, h, mi, s)
    requires 1 <= m <= 12 && 1 <= d <= MonthLen(12 * y + m - 1) && 0 <= h < 24 && 0 <= mi < 60 && 0 <= s < 60
    ensures Search.Fires(p, at) <==> Has(t.month, MONTHS, m) && OnDay(t, y, m, d) && OnTime(t, h, mi, s)
  {
    CivilParts(y, m, d, h, mi, s, at);
    InTableFires(t, p, at);
    InTableOn(t, y, m, d, h, mi, s, at);
  }

  /** The next time a written pattern fires: an error exactly when a range is not valid; else the first second after `ts`
      whose civil date and time are in all lists, or none in the years searched.
   */
  method NextTime(t: Table, ts: int) returns (r: Cron.Outcome)
    requires AllWritten(t)
    ensures r.BadPattern? <==> !AllValid(t)
    ensures r.FiresAt? ==> AllValid(t) && ts < r.time * Search.NANOS && InTable(t, r.time)
    ensures r.FiresAt? ==> forall s :: ts < s * Search.NANOS && s < r.time ==> !InTable(t, s)
    ensures r.OutOfYears? ==> AllValid(t)
    ensures r.OutOfYears? ==>
              forall s :: ts < s * Search.NANOS && Year(s) <= Year(ts / Search.NANOS + 1) + 5 ==> !InTable(t, s)
  {
    Accepted(t);
    if AllValid(t) {
      Parsed(t);
      ghost var p := Cron.PatternOf(Fields(t));
      forall s
        ensures InTable(t, s) <==> Search.Fires(p, s)
      {
        InTableFires(t, p, s);
      }
    }
    r := Cron.ParseCron(Fields(t), ts);
  }
}
