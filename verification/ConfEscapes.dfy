/** Strings between double quotes: what was written with escapes is read as what the escapes stand for. */
module ConfEscapes {
  import opened ConfItems
  import opened ConfLex
  import opened ConfReads
  import Strings

  /** A character as it is, one of the five that a letter stands for, or a byte in two hexadecimal digits. */
  datatype Glyph = Bare(c: char) | Tab | NewLine | Return | Quote | Backslash | Byte(n: nat, upper: bool)

  const LOW_DIGITS := "0123456789abcdef"
  const HIGH_DIGITS := "0123456789ABCDEF"

  function Digit(n: nat, upper: bool): char
    requires n < 16
  {
    if upper then HIGH_DIGITS[n] else LOW_DIGITS[n]
  }

  predicate Writable(g: Glyph) {
    match g
    case Bare(c) => c != '\\' && c != '"' && c != EOF
    case Byte(n, _) => n < 256
    case _ => true
  }

  function Source(g: Glyph): string
    requires Writable(g)
  {
    match g
    case Bare(c) => [c]
    case Tab => "\\t"
    case NewLine => "\\n"
    case Return => "\\r"
    case Quote => "\\\""
    case Backslash => "\\\\"
    case Byte(n, upper) => "\\x" + [Digit(n / 16, upper), Digit(n % 16, upper)]
  }

  function Stands(g: Glyph): char
    requires Writable(g)
  {
    match g
    case Bare(c) => c
    case Tab => '\t'
    case NewLine => '\n'
    case Return => '\r'
    case Quote => '"'
    case Backslash => '\\'
    case Byte(n, _) => n as char
  }

  predicate AllWritable(gs: seq<Glyph>) { forall i :: 0 <= i < |gs| ==> Writable(gs[i]) }

  function Sources(gs: seq<Glyph>): seq<string>
    requires AllWritable(gs)
  {
    seq(|gs|, i requires 0 <= i < |gs| => Source(gs[i]))
  }

  function Meant(gs: seq<Glyph>): string
    requires AllWritable(gs)
  {
    seq(|gs|, i requires 0 <= i < |gs| => Stands(gs[i]))
  }

  // The lexer in a string.

  const DUB: State := AtValue(DubQuotedString)

  /** From `s` to `p` something was read since the pieces. */
  function Inside(s: int, p: int, st: ValueState, parts: seq<string>, stack: Stack<State>): Lex {
    Lex(s, p, 1, AtValue(st), false, stack, [], parts, DUB)
  }

  /** What has been read of the string. */
  function SoFar(input: string, s: int, p: int, parts: seq<string>): string
    requires 0 <= s <= p <= |input|
  {
    Join(parts) + input[s..p]
  }

  lemma {:induction false} JoinMore(parts: seq<string>, part: string)
    ensures Join(parts + [part]) == Join(parts) + part
  {
    if parts == [] {
      assert parts + [part] == [part];
      assert Join([part]) == part + Join([part][1..]);
    } else {
      JoinMore(parts[1..], part);
      assert (parts + [part])[1..] == parts[1..] + [part];
    }
  }

  lemma DigitBack(n: nat, upper: bool)
    requires n < 16
    ensures IsHex(Digit(n, upper)) && HexValue(Digit(n, upper)) == n && !IsNL(Digit(n, upper))
  {
    assert LOW_DIGITS == ['0', '1', '2', '3', '4', '5', '6', '7', '8', '9', 'a', 'b', 'c', 'd', 'e', 'f'];
    assert HIGH_DIGITS == ['0', '1', '2', '3', '4', '5', '6', '7', '8', '9', 'A', 'B', 'C', 'D', 'E', 'F'];
  }

  lemma BareReads(input: string, f: Lex -> Lex, s: int, p: int, parts: seq<string>, stack: Stack<State>)
    requires IsStepper(input, f) && 0 <= s <= p < |input| && input[p] != '\\' && input[p] != '"' && input[p] != EOF
    ensures Goes(f, Inside(s, p, DubQuotedString, parts, stack), 1, [], Inside(s, p + 1, DubQuotedString, parts, stack))
  {
    One(input, f, Inside(s, p, DubQuotedString, parts, stack), Inside(s, p + 1, DubQuotedString, parts, stack));
  }

  lemma BackslashReads(input: string, f: Lex -> Lex, s: int, p: int, parts: seq<string>, stack: Stack<State>)
    requires IsStepper(input, f) && 0 <= s <= p < |input| && input[p] == '\\'
    ensures Goes(f, Inside(s, p, DubQuotedString, parts, stack), 1, [],
                 Inside(p + 1, p + 1, StringEscape, parts + [input[s..p]], stack))
  {
    One(input, f, Inside(s, p, DubQuotedString, parts, stack), Inside(p + 1, p + 1, StringEscape, parts + [input[s..p]], stack));
  }

  lemma LetterReads(input: string, f: Lex -> Lex, p: int, parts: seq<string>, stack: Stack<State>, g: Glyph)
    requires IsStepper(input, f) && 0 <= p < |input| && Writable(g) && !g.Bare? && !g.Byte? && input[p] == Source(g)[1]
    ensures Goes(f, Inside(p, p, StringEscape, parts, stack), 1, [],
                 Inside(p + 1, p + 1, DubQuotedString, parts + [[Stands(g)]], stack))
  {
    var l, m := Inside(p, p, StringEscape, parts, stack), Inside(p + 1, p + 1, DubQuotedString, parts + [[Stands(g)]], stack);
    assert LexStringEscape(input, l) == m;
    One(input, f, l, m);
  }

  lemma ByteReads(input: string, f: Lex -> Lex, p: int, parts: seq<string>, stack: Stack<State>, n: nat, upper: bool)
    requires IsStepper(input, f) && 0 <= p < |input| - 2 && n < 256 && input[p] == 'x'
    requires input[p + 1] == Digit(n / 16, upper) && input[p + 2] == Digit(n % 16, upper)
    ensures Goes(f, Inside(p, p, StringEscape, parts, stack), 2, [],
                 Inside(p + 3, p + 3, DubQuotedString, parts + [[n as char]], stack))
  {
    var l, m, k := Inside(p, p, StringEscape, parts, stack), Inside(p, p + 1, StringBinary, parts, stack),
      Inside(p + 3, p + 3, DubQuotedString, parts + [[n as char]], stack);
    One(input, f, l, m);
    DigitBack(n / 16, upper);
    DigitBack(n % 16, upper);
    assert LexStringBinary(input, m) == k;
    One(input, f, m, k);
    ThenOn(f, l, 1, m, 1, [], k);
  }

  /** A place within a string: the pieces before `s`, and what was read since. */
  datatype Place = Place(s: int, p: int, parts: seq<string>)

  function In(pl: Place, stack: Stack<State>): Lex { Inside(pl.s, pl.p, DubQuotedString, pl.parts, stack) }

  predicate Fits(input: string, pl: Place) { 0 <= pl.s <= pl.p <= |input| }

  /** From one place of a string to another, over which `more` was read. */
  predicate Reads(input: string, f: Lex -> Lex, stack: Stack<State>, a: Place, n: nat, b: Place, more: string) {
    && Fits(input, a) && Fits(input, b) && Goes(f, In(a, stack), n, [], In(b, stack))
    && SoFar(input, b.s, b.p, b.parts) == SoFar(input, a.s, a.p, a.parts) + more
  }

  lemma ReadsThen(input: string, f: Lex -> Lex, stack: Stack<State>, a: Place, n: nat, b: Place, x: string, m: nat, c: Place, y: string)
    requires Reads(input, f, stack, a, n, b, x) && Reads(input, f, stack, b, m, c, y)
    ensures Reads(input, f, stack, a, n + m, c, x + y)
  {
    ThenOn(f, In(a, stack), n, In(b, stack), m, [], In(c, stack));
    var before := SoFar(input, a.s, a.p, a.parts);
    assert before + x + y == before + (x + y);
  }

  lemma BareGlyph(input: string, f: Lex -> Lex, stack: Stack<State>, a: Place)
    requires IsStepper(input, f) && Fits(input, a) && a.p < |input|
    requires input[a.p] != '\\' && input[a.p] != '"' && input[a.p] != EOF
    ensures Reads(input, f, stack, a, 1, a.(p := a.p + 1), [input[a.p]])
  {
    BareReads(input, f, a.s, a.p, a.parts, stack);
    assert input[a.s..a.p + 1] == input[a.s..a.p] + [input[a.p]];
  }

  /** Where a backslash leads that ends in character `c` at `e`. */
  function Escaped(input: string, a: Place, e: int, c: char): Place
    requires Fits(input, a)
  {
    Place(e, e, a.parts + [input[a.s..a.p]] + [[c]])
  }

  lemma EscapedSoFar(input: string, a: Place, e: int, c: char)
    requires Fits(input, a) && 0 <= e <= |input|
    ensures SoFar(input, e, e, Escaped(input, a, e, c).parts) == SoFar(input, a.s, a.p, a.parts) + [c]
  {
    JoinMore(a.parts, input[a.s..a.p]);
    JoinMore(a.parts + [input[a.s..a.p]], [c]);
    assert input[e..e] == "";
  }

  lemma LetterGlyph(input: string, f: Lex -> Lex, stack: Stack<State>, a: Place, g: Glyph)
    requires IsStepper(input, f) && Fits(input, a) && a.p + 1 < |input| && input[a.p] == '\\'
    requires Writable(g) && !g.Bare? && !g.Byte? && input[a.p + 1] == Source(g)[1]
    ensures Reads(input, f, stack, a, 2, Escaped(input, a, a.p + 2, Stands(g)), [Stands(g)])
  {
    var held, b := a.parts + [input[a.s..a.p]], Escaped(input, a, a.p + 2, Stands(g));
    BackslashReads(input, f, a.s, a.p, a.parts, stack);
    LetterReads(input, f, a.p + 1, held, stack, g);
    ThenOn(f, In(a, stack), 1, Inside(a.p + 1, a.p + 1, StringEscape, held, stack), 1, [], In(b, stack));
    EscapedSoFar(input, a, a.p + 2, Stands(g));
  }

  lemma ByteGlyph(input: string, f: Lex -> Lex, stack: Stack<State>, a: Place, n: nat, upper: bool)
    requires IsStepper(input, f) && Fits(input, a) && a.p + 3 < |input| && input[a.p] == '\\' && input[a.p + 1] == 'x'
    requires n < 256 && input[a.p + 2] == Digit(n / 16, upper) && input[a.p + 3] == Digit(n % 16, upper)
    ensures Reads(input, f, stack, a, 3, Escaped(input, a, a.p + 4, n as char), [n as char])
  {
    var held, b := a.parts + [input[a.s..a.p]], Escaped(input, a, a.p + 4, n as char);
    BackslashReads(input, f, a.s, a.p, a.parts, stack);
    ByteReads(input, f, a.p + 1, held, stack, n, upper);
    ThenOn(f, In(a, stack), 1, Inside(a.p + 1, a.p + 1, StringEscape, held, stack), 2, [], In(b, stack));
    EscapedSoFar(input, a, a.p + 4, n as char);
  }

  /** One glyph is read, and what it stands for comes after what was read before. */
  lemma GlyphReads(input: string, f: Lex -> Lex, stack: Stack<State>, a: Place, g: Glyph) returns (n: nat, b: Place)
    requires IsStepper(input, f) && Fits(input, a) && Writable(g) && Holds(input, a.p, Source(g))
    ensures Reads(input, f, stack, a, n, b, [Stands(g)]) && b.p == a.p + |Source(g)|
  {
    HoldsAt(input, a.p, Source(g), 0);
    if g.Bare? {
      BareGlyph(input, f, stack, a);
      n, b := 1, a.(p := a.p + 1);
    } else {
      HoldsAt(input, a.p, Source(g), 1);
      b := Escaped(input, a, a.p + |Source(g)|, Stands(g));
      if g.Byte? {
        HoldsAt(input, a.p, Source(g), 2);
        HoldsAt(input, a.p, Source(g), 3);
        ByteGlyph(input, f, stack, a, g.n, g.upper);
        n := 3;
      } else {
        LetterGlyph(input, f, stack, a, g);
        n := 2;
      }
    }
  }

  /** The same in some number of steps. */
  ghost predicate Comes(input: string, f: Lex -> Lex, stack: Stack<State>, a: Place, b: Place, more: string) {
    exists n :: Reads(input, f, stack, a, n, b, more)
  }

  lemma ComesOn(input: string, f: Lex -> Lex, stack: Stack<State>, a: Place, b: Place, c: Place, cs: string)
    requires cs != "" && Comes(input, f, stack, a, b, [cs[0]]) && Comes(input, f, stack, b, c, cs[1..])
    ensures Comes(input, f, stack, a, c, cs)
  {
    var n :| Reads(input, f, stack, a, n, b, [cs[0]]);
    var m :| Reads(input, f, stack, b, m, c, cs[1..]);
    ReadsThen(input, f, stack, a, n, b, [cs[0]], m, c, cs[1..]);
    assert [cs[0]] + cs[1..] == cs;
  }

  lemma ComesNowhere(input: string, f: Lex -> Lex, stack: Stack<State>, a: Place)
    requires Fits(input, a)
    ensures Comes(input, f, stack, a, a, "")
  {
    assert Run(f, Trace(In(a, stack), []), 0) == Trace(In(a, stack), []);
    assert SoFar(input, a.s, a.p, a.parts) + "" == SoFar(input, a.s, a.p, a.parts);
    assert Reads(input, f, stack, a, 0, a, "");
  }

  /** Wherever the text stands, it is read as the character. */
  ghost predicate ReadAs(input: string, f: Lex -> Lex, stack: Stack<State>, text: string, c: char) {
    forall a: Place :: Fits(input, a) && Holds(input, a.p, text) ==> CanRead(input, f, stack, a, text, [c])
  }

  ghost predicate CanRead(input: string, f: Lex -> Lex, stack: Stack<State>, a: Place, text: string, more: string) {
    exists b :: Comes(input, f, stack, a, b, more) && Fits(input, b) && b.p == a.p + |text|
  }

  lemma GlyphReadAs(input: string, f: Lex -> Lex, stack: Stack<State>, g: Glyph)
    requires IsStepper(input, f) && Writable(g)
    ensures ReadAs(input, f, stack, Source(g), Stands(g))
  {
    forall a: Place | Fits(input, a) && Holds(input, a.p, Source(g))
      ensures CanRead(input, f, stack, a, Source(g), [Stands(g)])
    {
      var n, b := GlyphReads(input, f, stack, a, g);
      assert Comes(input, f, stack, a, b, [Stands(g)]);
    }
  }

  lemma FirstRead(input: string, f: Lex -> Lex, stack: Stack<State>, a: Place, ts: seq<string>, c: char) returns (b: Place)
    requires ts != [] && ReadAs(input, f, stack, ts[0], c) && Fits(input, a) && Holds(input, a.p, Join(ts))
    ensures Comes(input, f, stack, a, b, [c]) && Fits(input, b) && b.p == a.p + |ts[0]| && Holds(input, b.p, Join(ts[1..]))
  {
    HoldsSplit(input, a.p, ts[0], Join(ts[1..]));
    assert CanRead(input, f, stack, a, ts[0], [c]);
    b :| Comes(input, f, stack, a, b, [c]) && Fits(input, b) && b.p == a.p + |ts[0]|;
  }

  lemma {:induction false} TextsRead(input: string, f: Lex -> Lex, stack: Stack<State>, a: Place, ts: seq<string>, cs: string)
    returns (b: Place)
    requires |ts| == |cs| && forall i :: 0 <= i < |ts| ==> ReadAs(input, f, stack, ts[i], cs[i])
    requires Fits(input, a) && Holds(input, a.p, Join(ts))
    ensures Comes(input, f, stack, a, b, cs) && Fits(input, b) && b.p == a.p + |Join(ts)|
    decreases |ts|
  {
    if ts == [] {
      assert cs == "";
      b := a;
      ComesNowhere(input, f, stack, a);
    } else {
      var c := FirstRead(input, f, stack, a, ts, cs[0]);
      b := TextsRead(input, f, stack, c, ts[1..], cs[1..]);
      ComesOn(input, f, stack, a, c, b, cs);
    }
  }

  lemma DubOpens(input: string, f: Lex -> Lex, p: int, w: nat, ss: State, stack: Stack<State>)
    requires IsStepper(input, f) && 0 <= p < |input| && input[p] == '"'
    ensures Goes(f, At(p, AtValue(ValueStart), stack, w, ss), 1, [], Inside(p + 1, p + 1, DubQuotedString, [], stack))
  {
    var l := At(p, AtValue(ValueStart), stack, w, ss);
    assert Step(input, l) == LexValue(input, l);
    One(input, f, l, Inside(p + 1, p + 1, DubQuotedString, [], stack));
  }

  lemma DubCloses(input: string, f: Lex -> Lex, s: int, p: int, parts: seq<string>, frame: State, rest: Stack<State>)
    requires IsStepper(input, f) && 0 <= s <= p < |input| && input[p] == '"'
    ensures Goes(f, Inside(s, p, DubQuotedString, parts, Push(frame, rest)), 1, [Item(ItemString, SoFar(input, s, p, parts))],
                 At(p + 1, frame, rest, 1, DUB))
  {
    One(input, f, Inside(s, p, DubQuotedString, parts, Push(frame, rest)),
        At(p + 1, frame, rest, 1, DUB).(items := [Item(ItemString, SoFar(input, s, p, parts))]));
  }

  /** Text between double quotes. */
  lemma QuotesHeld(input: string, p: int, text: string)
    requires Holds(input, p, "\"" + (text + "\""))
    ensures 0 <= p < |input| && input[p] == '"' && Holds(input, p + 1, text)
    ensures p + 1 + |text| < |input| && input[p + 1 + |text|] == '"'
  {
    HoldsSplit(input, p, "\"", text + "\"");
    HoldsSplit(input, p + 1, text, "\"");
    HoldsAt(input, p, "\"", 0);
    HoldsAt(input, p + 1 + |text|, "\"", 0);
  }

  /** From quote to quote. */
  lemma Quoted(input: string, f: Lex -> Lex, l: Lex, stack: Stack<State>, a: Place, n: nat, b: Place, more: string, k: Lex)
    requires Goes(f, l, 1, [], In(a, stack)) && a.s == a.p && a.parts == [] && Reads(input, f, stack, a, n, b, more)
    requires Goes(f, In(b, stack), 1, [Item(ItemString, SoFar(input, b.s, b.p, b.parts))], k)
    ensures Goes(f, l, n + 2, [Item(ItemString, more)], k)
  {
    assert SoFar(input, a.s, a.p, []) + more == more;
    ThenOn(f, l, 1, In(a, stack), n, [], In(b, stack));
    ThenOn(f, l, n + 1, In(b, stack), 1, [Item(ItemString, more)], k);
  }

  lemma GlyphsRead(input: string, f: Lex -> Lex, stack: Stack<State>, a: Place, gs: seq<Glyph>) returns (n: nat, b: Place)
    requires IsStepper(input, f) && AllWritable(gs) && Fits(input, a) && Holds(input, a.p, Join(Sources(gs)))
    ensures Reads(input, f, stack, a, n, b, Meant(gs)) && b.p == a.p + |Join(Sources(gs))|
  {
    forall i | 0 <= i < |gs|
      ensures ReadAs(input, f, stack, Sources(gs)[i], Meant(gs)[i])
    {
      GlyphReadAs(input, f, stack, gs[i]);
    }
    b := TextsRead(input, f, stack, a, Sources(gs), Meant(gs));
    n :| Reads(input, f, stack, a, n, b, Meant(gs));
  }

  /** A string written between double quotes, with any of its characters escaped, is sent as the characters meant. */
  lemma EscapedLexes(input: string, f: Lex -> Lex, p: int, w: nat, ss: State, frame: State, rest: Stack<State>, gs: seq<Glyph>)
    returns (n: nat)
    requires IsStepper(input, f) && AllWritable(gs) && Holds(input, p, "\"" + (Join(Sources(gs)) + "\""))
    ensures Goes(f, At(p, AtValue(ValueStart), Push(frame, rest), w, ss), n, [Item(ItemString, Meant(gs))],
                 At(p + |Join(Sources(gs))| + 2, frame, rest, 1, DUB))
  {
    var stack, a := Push(frame, rest), Place(p + 1, p + 1, []);
    QuotesHeld(input, p, Join(Sources(gs)));
    DubOpens(input, f, p, w, ss, stack);
    var m, b := GlyphsRead(input, f, stack, a, gs);
    DubCloses(input, f, b.s, b.p, b.parts, frame, rest);
    Quoted(input, f, At(p, AtValue(ValueStart), stack, w, ss), stack, a, m, b, Meant(gs), At(b.p + 1, frame, rest, 1, DUB));
    n := m + 2;
  }
}
