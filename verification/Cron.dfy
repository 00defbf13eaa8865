/** The next time a cron pattern fires (server/cron.go), from the six fields of its text. */
module Cron {
  import opened Basics
  import opened Calendar
  import opened CronField
  import opened CronSearch
  import opened Strings

  datatype Outcome = FiresAt(time: int) | BadPattern | OutOfYears

  predicate WellFormed(fields: seq<string>) {
    && |fields| == 6
    && Field(fields[0], SECONDS).Some? && Field(fields[1], MINUTES).Some? && Field(fields[2], HOURS).Some?
    && Field(fields[3], DOM).Some? && Field(fields[4], MONTHS).Some? && Field(fields[5], DOW).Some?
  }

  function PatternOf(fields: seq<string>): Pattern
    requires WellFormed(fields)
  {
    Pattern(Field(fields[0], SECONDS).value, Field(fields[1], MINUTES).value, Field(fields[2], HOURS).value,
            Field(fields[3], DOM).value, Field(fields[4], MONTHS).value, Field(fields[5], DOW).value)
  }

  /** The first whole second after `ts` nanoseconds at which the pattern fires, within the following years. */
  method ParseCron(fields: seq<string>, ts: int) returns (r: Outcome)
    ensures r.BadPattern? <==> !WellFormed(fields)
    ensures r.FiresAt? ==> WellFormed(fields) && ts < r.time * NANOS && Fires(PatternOf(fields), r.time)
    ensures r.FiresAt? ==> forall s :: ts < s * NANOS && s < r.time ==> !Fires(PatternOf(fields), s)
    ensures r.OutOfYears? ==> WellFormed(fields)
    ensures r.OutOfYears? ==>
              forall s :: ts < s * NANOS && Year(s) <= Year(ts / NANOS + 1) + 5 ==> !Fires(PatternOf(fields), s)
  {
    if |fields| != 6 {
      return BadPattern;
    }
    var second := GetField(fields[0], SECONDS);
    if second.None? { return BadPattern; }
    var minute := GetField(fields[1], MINUTES);
    if minute.None? { return BadPattern; }
    var hour := GetField(fields[2], HOURS);
    if hour.None? { return BadPattern; }
    var dom := GetField(fields[3], DOM);
    if dom.None? { return BadPattern; }
    var month := GetField(fields[4], MONTHS);
    if month.None? { return BadPattern; }
    var dow := GetField(fields[5], DOW);
    if dow.None? { return BadPattern; }
    var p := Pattern(second.value, minute.value, hour.value, dom.value, month.value, dow.value);
    var found := NextFire(p, ts);
    r := if found.At? then FiresAt(found.time) else OutOfYears;
  }
}
