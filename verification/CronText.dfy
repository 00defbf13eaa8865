/** What the fields of a cron pattern mean, and that writing one and reading it gives its meaning. */
module CronText {
  import opened Basics
  import opened Strings
  import opened Word64
  import opened CronField

  /** All bounds leave the top bit free, and names are lower-case words for values within them. */
  predicate Usable(b: Bounds) {
    b.min <= b.max < 63 && forall x :: x in b.names ==> Lettered(x) && Lower(x) == x && b.names[x] <= b.max
  }

  predicate IsLetter(c: char) { 'a' <= c <= 'z' || 'A' <= c <= 'Z' }

  /** Letters only, in any case. */
  predicate Lettered(s: string) { s != "" && forall i :: 0 <= i < |s| ==> IsLetter(s[i]) }

  /** An end of a range: a number, or a name in letters of any case. */
  datatype Point = Num(n: nat) | Named(text: string)

  /** All values, written with a star or a question mark; one value; or all from one to another. */
  datatype Span = Every(asked: bool) | Only(low: Point) | From(low: Point, high: Point)

  datatype Range = Range(span: Span, step: Option<nat>)

  function PointText(p: Point): string { if p.Num? then Decimal(p.n) else p.text }

  function SpanText(s: Span): string {
    match s
    case Every(asked) => if asked then "?" else "*"
    case Only(low) => PointText(low)
    case From(low, high) => PointText(low) + Tail('-', [PointText(high)])
  }

  function StepText(step: Option<nat>): seq<string> {
    match step
    case None => []
    case Some(n) => [Decimal(n)]
  }

  function RangeText(r: Range): string { SpanText(r.span) + Tail('/', StepText(r.step)) }

  /** Names are words. */
  predicate Written(r: Range) {
    match r.span
    case Every(_) => true
    case Only(low) => low.Named? ==> Lettered(low.text)
    case From(low, high) => (low.Named? ==> Lettered(low.text)) && (high.Named? ==> Lettered(high.text))
  }

  // Meaning.

  predicate Known(p: Point, b: Bounds) {
    match p
    case Num(n) => n <= MAX_INT
    case Named(text) => Lower(text) in b.names
  }

  function Value(p: Point, b: Bounds): nat {
    match p
    case Num(n) => n
    case Named(text) => if Lower(text) in b.names then b.names[Lower(text)] else 0
  }

  function First(r: Range, b: Bounds): nat { if r.span.Every? then b.min else Value(r.span.low, b) }

  /** A single value with a step goes on to the maximum. */
  function Last(r: Range, b: Bounds): nat {
    match r.span
    case Every(_) => b.max
    case Only(low) => if r.step.None? then Value(low, b) else b.max
    case From(_, high) => Value(high, b)
  }

  function Step(r: Range): nat { if r.step.None? then 1 else r.step.value }

  predicate Valid(r: Range, b: Bounds) {
    && (!r.span.Every? ==> Known(r.span.low, b)) && (r.span.From? ==> Known(r.span.high, b))
    && b.min <= First(r, b) <= Last(r, b) <= b.max && 0 < Step(r) <= MAX_INT
  }

  /** Every `Step`-th value from the first to the last. */
  predicate Denotes(r: Range, b: Bounds, i: int)
    requires Valid(r, b)
  {
    First(r, b) <= i <= Last(r, b) && (i - First(r, b)) % Step(r) == 0
  }

  /** The mask of a range: the values it denotes, and the top bit for a star without a real step. */
  predicate IsMask(mask: Word, r: Range, b: Bounds)
    requires Valid(r, b)
  {
    && (forall i :: 0 <= i < 63 ==> mask[i] == Denotes(r, b, i))
    && mask[63] == (r.span.Every? && Step(r) == 1)
  }

  /** Steps lead exactly to the values that are a multiple of the step away. */
  lemma {:induction false} ReachedExactly(min: nat, step: nat, k: int)
    requires step > 0
    ensures Reached(min, step, k) <==> k >= min && (k - min) % step == 0
    decreases k
  {
    if k > min {
      ReachedExactly(min, step, k - step);
      if k - step >= min {
        StepBack(k - min, step);
      } else {
        SmallRest(k - min, step);
      }
    }
  }

  lemma AtLeast(n: int, step: nat)
    requires step > 0 && n >= 1
    ensures n * step >= step
    decreases n
  {
    if n > 1 {
      AtLeast(n - 1, step);
      assert n * step == (n - 1) * step + step;
    }
  }

  lemma RestUnique(step: nat, q: int, r: int, q': int, r': int)
    requires q * step + r == q' * step + r' && 0 <= r < step && 0 <= r' < step
    ensures r == r'
  {
    assert (q - q') * step == r' - r && (q' - q) * step == r - r';
    if q > q' {
      AtLeast(q - q', step);
    } else if q < q' {
      AtLeast(q' - q, step);
    }
  }

  lemma StepBack(d: nat, step: nat)
    requires 0 < step <= d
    ensures d % step == 0 <==> (d - step) % step == 0
  {
    var q, e := d / step, (d - step) / step;
    assert d == q * step + d % step && d - step == e * step + (d - step) % step;
    assert (e + 1) * step == e * step + step;
    RestUnique(step, q, d % step, e + 1, (d - step) % step);
  }

  lemma SmallRest(d: nat, step: nat)
    requires 0 < d < step
    ensures d % step != 0
  {
  }

  // Reading.

  lemma NumeralBack(n: nat, names: map<string, nat>)
    requires forall x :: x in names ==> Lettered(x)
    ensures MustParseInt(Decimal(n)) == ParseIntOrName(Decimal(n), names) == if n <= MAX_INT then Some(n) else None
  {
    var s := Decimal(n);
    ReadDecimal(n);
    assert IsDigit(s[0]);
    assert Signless(s) == s;
    assert Lower(s) == s;
  }

  /** A word is a name or nothing. */
  lemma WordBack(s: string, names: map<string, nat>)
    requires Lettered(s)
    ensures ParseIntOrName(s, names) == if Lower(s) in names then Some(names[Lower(s)]) else None
  {
    assert IsLetter(s[0]);
    assert Signless(s) == s && !IsDigit(s[0]);
  }

  lemma PointBack(p: Point, b: Bounds)
    requires Usable(b) && (p.Named? ==> Lettered(p.text))
    ensures ParseIntOrName(PointText(p), b.names) == if Known(p, b) then Some(Value(p, b)) else None
    ensures PointText(p) != "*" && PointText(p) != "?" && PointText(p) != ""
  {
    if p.Num? {
      NumeralBack(p.n, b.names);
      assert IsDigit(Decimal(p.n)[0]);
    } else {
      WordBack(p.text, b.names);
      assert IsLetter(p.text[0]);
    }
  }

  predicate Separator(c: char) { c == '-' || c == '/' || c == ',' }

  lemma PointPlain(p: Point, c: char)
    requires Separator(c) && (p.Named? ==> Lettered(p.text))
    ensures c !in PointText(p)
  {
    if p.Num? {
      assert AllDigits(Decimal(p.n));
    } else {
      assert forall i :: 0 <= i < |p.text| ==> IsLetter(p.text[i]);
    }
  }

  lemma NumberPlain(n: nat, c: char)
    requires Separator(c)
    ensures c !in Decimal(n)
  {
    PointPlain(Num(n), c);
  }

  function Pieces(s: Span): seq<string> {
    match s
    case Every(_) => [SpanText(s)]
    case Only(low) => [PointText(low)]
    case From(low, high) => [PointText(low), PointText(high)]
  }

  lemma SpanSplit(r: Range)
    requires Written(r)
    ensures Split(SpanText(r.span), '-') == Pieces(r.span) && '/' !in SpanText(r.span)
  {
    match r.span
    case Every(_) => SplitPlain(SpanText(r.span), '-');
    case Only(low) =>
      PointPlain(low, '-');
      PointPlain(low, '/');
      SplitPlain(PointText(low), '-');
    case From(low, high) =>
      PointPlain(low, '-');
      PointPlain(high, '-');
      PointPlain(low, '/');
      PointPlain(high, '/');
      SplitJoined('-', PointText(low), [PointText(high)]);
      assert [PointText(high)][1..] == [];
  }

  lemma SplitPlain(t: string, sep: char)
    requires sep !in t
    ensures Split(t, sep) == [t]
  {
    SplitJoined(sep, t, []);
    assert t + Tail(sep, []) == t;
  }

  lemma RangeSplit(r: Range)
    requires Written(r)
    ensures Split(RangeText(r), '/') == [SpanText(r.span)] + StepText(r.step)
  {
    SpanSplit(r);
    if r.step.Some? {
      NumberPlain(r.step.value, '/');
    }
    SplitJoined('/', SpanText(r.span), StepText(r.step));
  }

  /** The ends of a span. */
  function EndsOf(s: Span, b: Bounds): Option<Ends> {
    match s
    case Every(_) => Some(Ends(b.min, b.max, true))
    case Only(low) => if Known(low, b) then Some(Ends(Value(low, b), Value(low, b), false)) else None
    case From(low, high) =>
      if Known(low, b) && Known(high, b) then Some(Ends(Value(low, b), Value(high, b), false)) else None
  }

  lemma EndsBack(r: Range, b: Bounds)
    requires Usable(b) && Written(r)
    ensures GetEnds(Pieces(r.span), b) == EndsOf(r.span, b)
  {
    if !r.span.Every? {
      PointBack(r.span.low, b);
    }
    if r.span.From? {
      PointBack(r.span.high, b);
    }
  }

  lemma MaskBack(e: Ends, step: nat, b: Bounds, r: Range)
    requires Usable(b) && 0 < step && b.min <= e.start <= e.end <= b.max
    requires Valid(r, b) && First(r, b) == e.start && Last(r, b) == e.end && Step(r) == step && e.star == (r.span.Every? && step == 1)
    ensures Mask(e, step, b).Some? && IsMask(Mask(e, step, b).value, r, b)
  {
    var mask := Mask(e, step, b).value;
    forall i | 0 <= i < 63
      ensures mask[i] == Denotes(r, b, i)
    {
      ReachedExactly(e.start, step, i);
    }
  }

  /** Reading a written range gives its meaning, or an error exactly when the range is not valid. */
  lemma RangeBack(r: Range, b: Bounds)
    requires Usable(b) && Written(r)
    ensures var m := GetRange(RangeText(r), b); if Valid(r, b) then m.Some? && IsMask(m.value, r, b) else m.None?
  {
    RangeSplit(r);
    SpanSplit(r);
    EndsBack(r, b);
    assert Split(RangeText(r), '/')[0] == SpanText(r.span) && Split(RangeText(r), '/')[1..] == StepText(r.step);
    if r.step.Some? {
      NumeralBack(r.step.value, b.names);
    }
    StepRangeBack(r, b);
  }

  lemma StepRangeBack(r: Range, b: Bounds)
    requires Usable(b) && GetEnds(Pieces(r.span), b) == EndsOf(r.span, b)
    requires r.step.Some? ==> MustParseInt(Decimal(r.step.value)) == if r.step.value <= MAX_INT then Some(r.step.value) else None
    ensures var m := StepRange(Pieces(r.span), StepText(r.step), b);
            if Valid(r, b) then m.Some? && IsMask(m.value, r, b) else m.None?
  {
    var e := EndsOf(r.span, b);
    if Valid(r, b) {
      MaskBack(Ends(First(r, b), Last(r, b), r.span.Every? && Step(r) == 1), Step(r), b, r);
    }
  }

  // Whole fields.

  function Texts(rs: seq<Range>): seq<string> {
    seq(|rs|, i requires 0 <= i < |rs| => RangeText(rs[i]))
  }

  predicate AllWritten(rs: seq<Range>) { forall i :: 0 <= i < |rs| ==> Written(rs[i]) }

  predicate AllValid(rs: seq<Range>, b: Bounds) { forall r :: r in rs ==> Valid(r, b) }

  /** The mask of a list of ranges: what any of them denotes, and the top bit if any has it. */
  predicate IsFieldMask(mask: Word, rs: seq<Range>, b: Bounds)
    requires AllValid(rs, b)
  {
    && (forall i :: 0 <= i < 63 ==> mask[i] == Denoted(rs, b, i))
    && mask[63] == exists r :: r in rs && r.span.Every? && Step(r) == 1
  }

  predicate Denoted(rs: seq<Range>, b: Bounds, i: int)
    requires AllValid(rs, b)
  {
    exists r :: r in rs && Denotes(r, b, i)
  }

  /** What reading a field should give. */
  predicate FieldMeans(m: Option<Word>, rs: seq<Range>, b: Bounds) {
    match m
    case None => !AllValid(rs, b)
    case Some(mask) => AllValid(rs, b) && IsFieldMask(mask, rs, b)
  }

  lemma OneMore(x: Option<Word>, y: Option<Word>, init: seq<Range>, last: Range, b: Bounds)
    requires FieldMeans(x, init, b)
    requires if Valid(last, b) then y.Some? && IsMask(y.value, last, b) else y.None?
    ensures FieldMeans(Both(x, y), init + [last], b)
  {
    var rs := init + [last];
    assert AllValid(rs, b) <==> AllValid(init, b) && Valid(last, b) by {
      assert last in rs;
      assert forall r :: r in init ==> r in rs;
    }
    if AllValid(rs, b) {
      forall i | 0 <= i < 63
        ensures Denoted(rs, b, i) <==> Denoted(init, b, i) || Denotes(last, b, i)
      {
        assert last in rs;
        assert forall r :: r in init ==> r in rs;
      }
    }
  }

  lemma {:induction false} TogetherBack(rs: seq<Range>, b: Bounds)
    requires Usable(b) && AllWritten(rs)
    ensures FieldMeans(Together(Texts(rs), b), rs, b)
    decreases |rs|
  {
    if rs != [] {
      var n := |rs| - 1;
      TogetherBack(rs[..n], b);
      RangeBack(rs[n], b);
      assert Texts(rs)[..n] == Texts(rs[..n]);
      OneMore(Together(Texts(rs[..n]), b), GetRange(RangeText(rs[n]), b), rs[..n], rs[n], b);
      assert rs == rs[..n] + [rs[n]];
    }
  }

  lemma {:induction false} NoneEmpty(ss: seq<string>)
    requires forall i :: 0 <= i < |ss| ==> ss[i] != ""
    ensures NonEmpty(ss) == ss
  {
    if ss != [] {
      NoneEmpty(ss[1..]);
    }
  }

  lemma TextThere(r: Range)
    requires Written(r)
    ensures RangeText(r) != ""
  {
    assert SpanText(r.span) != "";
  }

  lemma CommaFree(r: Range)
    requires Written(r)
    ensures ',' !in RangeText(r)
  {
    if !r.span.Every? {
      PointPlain(r.span.low, ',');
    }
    if r.span.From? {
      PointPlain(r.span.high, ',');
      TailFree('-', [PointText(r.span.high)], ',');
    }
    if r.step.Some? {
      NumberPlain(r.step.value, ',');
    }
    TailFree('/', StepText(r.step), ',');
  }

  lemma FieldSplit(first: Range, others: seq<Range>)
    requires Written(first) && AllWritten(others)
    ensures Split(RangeText(first) + Tail(',', Texts(others)), ',') == Texts([first] + others)
  {
    CommaFree(first);
    assert Without(',', Texts(others)) by {
      forall i | 0 <= i < |others|
        ensures ',' !in Texts(others)[i]
      {
        CommaFree(others[i]);
      }
    }
    SplitJoined(',', RangeText(first), Texts(others));
    TextsFirst(first, others);
  }

  lemma TextsFirst(first: Range, others: seq<Range>)
    ensures Texts([first] + others) == [RangeText(first)] + Texts(others)
  {
  }

  /** Reading a written field gives the union of its ranges, or an error exactly when one of them is not valid. */
  lemma FieldBack(first: Range, others: seq<Range>, b: Bounds)
    requires Usable(b) && Written(first) && AllWritten(others)
    ensures FieldMeans(Field(RangeText(first) + Tail(',', Texts(others)), b), [first] + others, b)
  {
    FieldSplit(first, others);
    var rs := [first] + others;
    forall i | 0 <= i < |rs|
      ensures Texts(rs)[i] != ""
    {
      TextThere(rs[i]);
    }
    NoneEmpty(Texts(rs));
    TogetherBack([first] + others, b);
  }
}
