/** The fields of a cron pattern (server/cron.go): a comma-separated list of ranges with steps becomes a 64-bit mask. */
module CronField {
  import opened Basics
  import opened Strings
  import opened Word64

  datatype Bounds = Bounds(min: nat, max: nat, names: map<string, nat>)

  const SECONDS: Bounds := Bounds(0, 59, map[])
  const MINUTES: Bounds := Bounds(0, 59, map[])
  const HOURS: Bounds := Bounds(0, 23, map[])
  const DOM: Bounds := Bounds(1, 31, map[])
  const MONTHS: Bounds := Bounds(1, 12, map[
    "jan" := 1, "feb" := 2, "mar" := 3, "apr" := 4, "may" := 5, "jun" := 6,
    "jul" := 7, "aug" := 8, "sep" := 9, "oct" := 10, "nov" := 11, "dec" := 12])
  const DOW: Bounds := Bounds(0, 6, map[
    "sun" := 0, "mon" := 1, "tue" := 2, "wed" := 3, "thu" := 4, "fri" := 5, "sat" := 6])

  // Masks.

  function Star(): Word { Shl(One(), 63) }

  /** Reached from `min` in whole steps. */
  predicate Reached(min: nat, step: nat, k: int)
    requires step > 0
    decreases k
  {
    k >= min && (k == min || Reached(min, step, k - step))
  }

  /** Every `step`-th bit from `min` to `max`. */
  function Bits(min: nat, max: nat, step: nat): Word
    requires step > 0
  {
    seq(64, i requires 0 <= i < 64 => i <= max && Reached(min, step, i))
  }

  /** Shifts for steps of one, a loop otherwise. */
  method GetBits(min: nat, max: nat, step: nat) returns (bits: Word)
    requires step > 0 && min <= max < 63
    ensures bits == Bits(min, max, step)
  {
    if step == 1 {
      AllReached(min);
      return And(Not(Shl(Ones(), max + 1)), Shl(Ones(), min));
    }
    bits := Zero();
    var i := min;
    NoneBelow(min, step);
    while i <= max
      invariant Reached(min, step, i)
      invariant forall k :: 0 <= k < 64 ==> bits[k] == (k < i && k <= max && Reached(min, step, k))
      decreases max - i
    {
      NoneBetween(min, step, i);
      bits := Or(bits, Shl(One(), i));
      i := i + step;
    }
  }

  lemma AllReached(min: nat)
    ensures forall k :: k >= min ==> Reached(min, 1, k)
  {
    forall k | k >= min
      ensures Reached(min, 1, k)
    {
      ReachedByOnes(min, k);
    }
  }

  lemma {:induction false} ReachedByOnes(min: nat, k: nat)
    requires k >= min
    ensures Reached(min, 1, k)
    decreases k
  {
    if k > min {
      ReachedByOnes(min, k - 1);
    }
  }

  lemma NoneBelow(min: nat, step: nat)
    requires step > 0
    ensures forall k :: k < min ==> !Reached(min, step, k)
  {
  }

  lemma NoneBetween(min: nat, step: nat, i: nat)
    requires step > 0 && Reached(min, step, i)
    ensures Reached(min, step, i + step)
    ensures forall k :: i < k < i + step ==> !Reached(min, step, k)
  {
    forall k | i < k < i + step
      ensures !Reached(min, step, k)
    {
      Gap(min, step, i, k);
    }
  }

  lemma {:induction false} Gap(min: nat, step: nat, i: int, k: int)
    requires step > 0 && Reached(min, step, i) && i < k < i + step
    ensures !Reached(min, step, k)
    decreases i
  {
    if i > min {
      Gap(min, step, i - step, k - step);
    }
  }

  // Ranges.

  function Signless(s: string): string { if s != [] && (s[0] == '+' || s[0] == '-') then s[1..] else s }

  function Natural(s: string): Option<int> { if s == [] || !AllDigits(s) then None else Some(Read(s)) }

  /** An integer of 64 bits with an optional sign. */
  function Atoi(s: string): Option<int> {
    match Natural(Signless(s))
    case None => None
    case Some(n) =>
      if s[0] == '-' then (if n <= MAX_INT + 1 then Some(-n) else None)
      else if n <= MAX_INT then Some(n) else None
  }

  function MustParseInt(s: string): Option<nat> {
    match Atoi(s)
    case None => None
    case Some(n) => if n < 0 then None else Some(n)
  }

  function ParseIntOrName(s: string, names: map<string, nat>): Option<nat> {
    if Lower(s) in names then Some(names[Lower(s)]) else MustParseInt(s)
  }

  /** First and last value and whether there was a star. */
  datatype Ends = Ends(start: nat, end: nat, star: bool)

  function GetEnds(lowAndHigh: seq<string>, b: Bounds): Option<Ends>
    requires lowAndHigh != []
  {
    if lowAndHigh[0] == "*" || lowAndHigh[0] == "?" then Some(Ends(b.min, b.max, true))
    else
      match ParseIntOrName(lowAndHigh[0], b.names)
      case None => None
      case Some(start) =>
        if |lowAndHigh| == 1 then Some(Ends(start, start, false))
        else if |lowAndHigh| > 2 then None
        else
          match ParseIntOrName(lowAndHigh[1], b.names)
          case None => None
          case Some(end) => Some(Ends(start, end, false))
  }

  /** The mask of one range: a number or a star, a hyphen and a number, a slash and a step. */
  function GetRange(expr: string, b: Bounds): Option<Word>
    requires b.max < 63
  {
    StepRange(Split(Split(expr, '/')[0], '-'), Split(expr, '/')[1..], b)
  }

  function StepRange(lowAndHigh: seq<string>, steps: seq<string>, b: Bounds): Option<Word>
    requires b.max < 63 && lowAndHigh != []
  {
    match GetEnds(lowAndHigh, b)
    case None => None
    case Some(e) =>
      if steps == [] then Mask(e, 1, b)
      else if |steps| > 1 then None
      else
        match MustParseInt(steps[0])
        case None => None
        case Some(step) =>
          Mask(Ends(e.start, if |lowAndHigh| == 1 then b.max else e.end, e.star && step <= 1), step, b)
  }

  function Mask(e: Ends, step: nat, b: Bounds): Option<Word>
    requires b.max < 63
  {
    if e.start < b.min || e.end > b.max || e.start > e.end || step == 0 then None
    else Some(MarkStar(Bits(e.start, e.end, step), e.star))
  }

  /** Sets the top bit for a star. */
  function MarkStar(mask: Word, star: bool): Word { if star then Or(mask, Star()) else mask }

  // Fields.

  function NonEmpty(ss: seq<string>): seq<string> {
    if ss == [] then [] else (if ss[0] == "" then [] else [ss[0]]) + NonEmpty(ss[1..])
  }

  /** The masks of all ranges together, or nothing if one is malformed. */
  function Together(ranges: seq<string>, b: Bounds): Option<Word>
    requires b.max < 63
  {
    if ranges == [] then Some(Zero()) else Both(Together(ranges[..|ranges| - 1], b), GetRange(ranges[|ranges| - 1], b))
  }

  function Both(x: Option<Word>, y: Option<Word>): Option<Word> {
    if x.Some? && y.Some? then Some(Or(x.value, y.value)) else None
  }

  /** The mask of a field: a list of ranges between commas. */
  function Field(field: string, b: Bounds): Option<Word>
    requires b.max < 63
  {
    Together(NonEmpty(Split(field, ',')), b)
  }

  method GetField(field: string, b: Bounds) returns (mask: Option<Word>)
    requires b.max < 63
    ensures mask == Field(field, b)
  {
    var ranges := NonEmpty(Split(field, ','));
    var bits := Zero();
    for i := 0 to |ranges|
      invariant Together(ranges[..i], b) == Some(bits)
    {
      TogetherMore(ranges, i, b);
      var bit := GetRange(ranges[i], b);
      if bit.None? {
        Malformed(ranges, i, b);
        return None;
      }
      bits := Or(bits, bit.value);
    }
    assert ranges[..|ranges|] == ranges;
    mask := Some(bits);
  }

  lemma TogetherMore(ranges: seq<string>, i: nat, b: Bounds)
    requires b.max < 63 && i < |ranges|
    ensures Together(ranges[..i + 1], b) == Both(Together(ranges[..i], b), GetRange(ranges[i], b))
  {
    assert ranges[..i + 1][..i] == ranges[..i];
  }

  lemma {:induction false} Malformed(ranges: seq<string>, i: nat, b: Bounds)
    requires b.max < 63 && i < |ranges| && GetRange(ranges[i], b).None?
    ensures Together(ranges, b).None?
  {
    if i < |ranges| - 1 {
      Malformed(ranges[..|ranges| - 1], i, b);
    }
  }

  /** No field, however written, sets a bit outside its bounds other than the top one. */
  lemma {:induction false} FieldBounded(ranges: seq<string>, b: Bounds, i: nat)
    requires b.max < 63 && i < 63 && Together(ranges, b).Some? && Together(ranges, b).value[i]
    ensures b.min <= i <= b.max
    decreases |ranges|
  {
    if ranges != [] {
      var init := ranges[..|ranges| - 1];
      if Together(init, b).value[i] {
        FieldBounded(init, b, i);
      } else {
        RangeBounded(ranges[|ranges| - 1], b, i);
      }
    }
  }

  lemma RangeBounded(expr: string, b: Bounds, i: nat)
    requires b.max < 63 && i < 63 && GetRange(expr, b).Some? && GetRange(expr, b).value[i]
    ensures b.min <= i <= b.max
  {
  }

  // Fields that match nothing.

  /** No value is in the mask; the top bit stands for a star. */
  ghost predicate Matchless(mask: Word) { forall i :: 0 <= i < 63 ==> !mask[i] }

  lemma MaskSets(e: Ends, step: nat, b: Bounds)
    requires b.max < 63
    ensures Mask(e, step, b).Some? ==> !Matchless(Mask(e, step, b).value)
  {
    if Mask(e, step, b).Some? {
      assert Bits(e.start, e.end, step)[e.start];
      assert Mask(e, step, b).value[e.start];
    }
  }

  /** A range that is accepted always has a value. */
  lemma RangeSets(expr: string, b: Bounds)
    requires b.max < 63
    ensures GetRange(expr, b).Some? ==> !Matchless(GetRange(expr, b).value)
  {
    var lowAndHigh, steps := Split(Split(expr, '/')[0], '-'), Split(expr, '/')[1..];
    var ends := GetEnds(lowAndHigh, b);
    if ends.Some? {
      var e := ends.value;
      MaskSets(e, 1, b);
      if |steps| == 1 && MustParseInt(steps[0]).Some? {
        var step := MustParseInt(steps[0]).value;
        MaskSets(Ends(e.start, if |lowAndHigh| == 1 then b.max else e.end, e.star && step <= 1), step, b);
      }
    }
  }

  lemma TogetherSets(ranges: seq<string>, b: Bounds)
    requires b.max < 63 && Together(ranges, b).Some?
    ensures Matchless(Together(ranges, b).value) <==> ranges == []
  {
    if ranges != [] {
      var last := ranges[|ranges| - 1];
      RangeSets(last, b);
      var i :| 0 <= i < 63 && GetRange(last, b).value[i];
      assert Together(ranges, b).value[i];
    }
  }

  predicate OnlyCommas(s: string) { forall i :: 0 <= i < |s| ==> s[i] == ',' }

  lemma {:induction false} TailCommas(ts: seq<string>)
    requires Without(',', ts)
    ensures OnlyCommas(Tail(',', ts)) <==> NonEmpty(ts) == []
  {
    if ts != [] {
      TailCommas(ts[1..]);
      CommasBoth(ts[0], Tail(',', ts[1..]));
      CommasBoth([','], ts[0] + Tail(',', ts[1..]));
    }
  }

  lemma CommasBoth(a: string, b: string)
    ensures OnlyCommas(a + b) <==> OnlyCommas(a) && OnlyCommas(b)
    ensures ',' !in a ==> (OnlyCommas(a) <==> a == "")
  {
    if OnlyCommas(a + b) {
      assert forall i :: 0 <= i < |a| ==> a[i] == (a + b)[i];
      assert forall i :: 0 <= i < |b| ==> b[i] == (a + b)[|a| + i];
    }
    HeadIn(a);
  }

  /** A field, however it is written, is accepted and matches nothing if and only if it is made of commas only. */
  lemma EmptyExactly(field: string, b: Bounds)
    requires b.max < 63
    ensures Field(field, b).Some? && Matchless(Field(field, b).value) <==> OnlyCommas(field)
  {
    var ts := Split(field, ',');
    JoinSplit(field, ',');
    TailCommas(ts[1..]);
    CommasBoth(ts[0], Tail(',', ts[1..]));
    assert NonEmpty(ts) == [] <==> OnlyCommas(field);
    if Together(NonEmpty(ts), b).Some? {
      TogetherSets(NonEmpty(ts), b);
    }
  }
}
