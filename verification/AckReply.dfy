/** Acknowledgement subjects of a consumer (server/consumer.go): five numbers are written into a reply subject by
rounds of formatting, and read back from the subject's tokens.
 */
module AckReply {
  import opened Basics
  import opened Strings

  // Numbers.

  /** The value of digits in 64 bits. */
  function Value(s: string): int {
    if s == [] then 0 else Wrap(Value(s[..|s| - 1]) * 10 + (s[|s| - 1] as int - '0' as int))
  }

  function Number(s: string): int { if s == [] || !AllDigits(s) then -1 else Value(s) }

  function Unsigned(x: int): int { if x < 0 then x + 2 * (MAX_INT + 1) else x }

  method ParseAckReplyNum(d: string) returns (n: int)
    ensures n == Number(d)
  {
    if |d| == 0 {
      return -1;
    }
    n := 0;
    for i := 0 to |d|
      invariant AllDigits(d[..i]) && n == Value(d[..i])
    {
      if d[i] < '0' || d[i] > '9' {
        return -1;
      }
      assert d[..i + 1][..i] == d[..i];
      n := Wrap(n * 10 + (d[i] as int - '0' as int));
    }
    assert d[..|d|] == d;
  }

  lemma {:induction false} DecimalValue(n: nat)
    requires n <= MAX_INT
    ensures Value(Decimal(n)) == n
    decreases n
  {
    if n < 10 {
      assert [Digit(n)][..0] == [];
      assert Value([]) == 0;
    } else {
      DecimalValue(n / 10);
      var s := Decimal(n);
      assert s[..|s| - 1] == Decimal(n / 10);
    }
  }

  // Formatting.

  datatype Arg = S(text: string) | D(num: nat)

  function After(p: string, rest: Option<string>): Option<string> {
    match rest
    case None => None
    case Some(s) => Some(p + s)
  }

  /** Text and `%%` stand for themselves, `%s` and `%d` for the next argument, whose text is not looked at again.
      Nothing is said of other verbs, or of arguments that are missing or left over.
   */
  function Format(t: string, args: seq<Arg>): Option<string>
    decreases |t|
  {
    if t == [] then (if args == [] then Some("") else None)
    else if t[0] != '%' then After([t[0]], Format(t[1..], args))
    else if |t| < 2 then None
    else if t[1] == '%' then After("%", Format(t[2..], args))
    else if args == [] then None
    else if t[1] == 's' && args[0].S? then After(args[0].text, Format(t[2..], args[1..]))
    else if t[1] == 'd' && args[0].D? then After(Decimal(args[0].num), Format(t[2..], args[1..]))
    else None
  }

  function Escape(s: string): string {
    if s == [] then [] else EscapeChar(s[0]) + Escape(s[1..])
  }

  function EscapeChar(c: char): string { if c == '%' then "%%" else [c] }

  lemma EscapedChar(c: char, t: string, args: seq<Arg>)
    ensures Format(EscapeChar(c) + t, args) == After([c], Format(t, args))
  {
    if c == '%' {
      FormatPercent(t, args);
    } else {
      FormatPlain([c], t, args);
    }
  }

  lemma {:induction false} FormatPlain(p: string, t: string, args: seq<Arg>)
    requires '%' !in p
    ensures Format(p + t, args) == After(p, Format(t, args))
    decreases |p|
  {
    if p == [] {
      assert p + t == t;
      match Format(t, args) {
        case None =>
        case Some(s) => assert [] + s == s;
      }
    } else {
      assert (p + t)[0] == p[0] && (p + t)[1..] == p[1..] + t;
      FormatPlain(p[1..], t, args);
      match Format(t, args) {
        case None =>
        case Some(s) => assert [p[0]] + (p[1..] + s) == p + s;
      }
    }
  }

  lemma FormatS(x: string, t: string, args: seq<Arg>)
    ensures Format("%s" + t, [S(x)] + args) == After(x, Format(t, args))
  {
    assert ("%s" + t)[2..] == t && ([S(x)] + args)[1..] == args;
  }

  lemma FormatD(n: nat, t: string, args: seq<Arg>)
    ensures Format("%d" + t, [D(n)] + args) == After(Decimal(n), Format(t, args))
  {
    assert ("%d" + t)[2..] == t && ([D(n)] + args)[1..] == args;
  }

  lemma FormatPercent(t: string, args: seq<Arg>)
    ensures Format("%%" + t, args) == After("%", Format(t, args))
  {
    assert ("%%" + t)[2..] == t;
  }

  /** Escaped text formats to the text. */
  lemma {:induction false} FormatEscaped(x: string, t: string, args: seq<Arg>)
    ensures Format(Escape(x) + t, args) == After(x, Format(t, args))
    decreases |x|
  {
    if x == [] {
      FormatPlain("", t, args);
    } else {
      var rest := Escape(x[1..]);
      FormatEscaped(x[1..], t, args);
      EscapedChar(x[0], rest + t, args);
      Assoc(EscapeChar(x[0]), rest, t);
      Joined([x[0]], x[1..], Format(t, args));
      assert [x[0]] + x[1..] == x;
    }
  }

  lemma Joined(a: string, b: string, o: Option<string>)
    ensures After(a, After(b, o)) == After(a + b, o)
  {
    match o
    case None =>
    case Some(s) => assert a + (b + s) == (a + b) + s;
  }

  // Subjects.

  /** Tokens, each after a dot. */
  function Dotted(ts: seq<string>): string {
    if ts == [] then "" else "." + (ts[0] + Dotted(ts[1..]))
  }

  lemma {:induction false} DottedTail(ts: seq<string>)
    ensures Dotted(ts) == Tail('.', ts)
  {
    if ts != [] {
      DottedTail(ts[1..]);
    }
  }

  lemma {:induction false} DottedAppend(a: seq<string>, b: seq<string>)
    ensures Dotted(a + b) == Dotted(a) + Dotted(b)
  {
    if a == [] {
      assert a + b == b;
    } else {
      assert (a + b)[1..] == a[1..] + b;
      DottedAppend(a[1..], b);
      assert "." + (a[0] + (Dotted(a[1..]) + Dotted(b))) == "." + (a[0] + Dotted(a[1..])) + Dotted(b);
    }
  }

  function Repeat(x: string, k: nat): (r: seq<string>)
    ensures |r| == k
  {
    if k == 0 then [] else [x] + Repeat(x, k - 1)
  }

  function Texts(xs: seq<string>): (r: seq<Arg>)
    ensures |r| == |xs|
  {
    seq(|xs|, i requires 0 <= i < |xs| => S(xs[i]))
  }

  function Numbers(ns: seq<nat>): (r: seq<Arg>)
    ensures |r| == |ns|
  {
    seq(|ns|, i requires 0 <= i < |ns| => D(ns[i]))
  }

  function Decimals(ns: seq<nat>): seq<string> {
    seq(|ns|, i requires 0 <= i < |ns| => Decimal(ns[i]))
  }

  function Escaped(xs: seq<string>): seq<string> {
    seq(|xs|, i requires 0 <= i < |xs| => Escape(xs[i]))
  }

  /** `.%s` for each text puts the texts in, whatever is in them. */
  lemma {:induction false} FormatTexts(xs: seq<string>)
    ensures Format(Dotted(Repeat("%s", |xs|)), Texts(xs)) == Some(Dotted(xs))
  {
    if xs != [] {
      var rest, args := Dotted(Repeat("%s", |xs| - 1)), Texts(xs[1..]);
      FormatTexts(xs[1..]);
      assert Repeat("%s", |xs|)[1..] == Repeat("%s", |xs| - 1);
      assert Texts(xs) == [S(xs[0])] + args;
      FormatPlain(".", "%s" + rest, Texts(xs));
      FormatS(xs[0], rest, args);
    }
  }

  lemma {:induction false} FormatNumbers(ns: seq<nat>)
    ensures Format(Dotted(Repeat("%d", |ns|)), Numbers(ns)) == Some(Dotted(Decimals(ns)))
  {
    if ns != [] {
      var rest, args := Dotted(Repeat("%d", |ns| - 1)), Numbers(ns[1..]);
      FormatNumbers(ns[1..]);
      assert Repeat("%d", |ns|)[1..] == Repeat("%d", |ns| - 1);
      assert Numbers(ns) == [D(ns[0])] + args;
      assert Decimals(ns)[1..] == Decimals(ns[1..]);
      FormatPlain(".", "%d" + rest, Numbers(ns));
      FormatD(ns[0], rest, args);
    }
  }

  lemma {:induction false} FormatDoubled(k: nat)
    ensures Format(Dotted(Repeat("%%d", k)), []) == Some(Dotted(Repeat("%d", k)))
  {
    if k > 0 {
      FormatDoubled(k - 1);
      assert Repeat("%%d", k)[1..] == Repeat("%%d", k - 1) && Repeat("%d", k)[1..] == Repeat("%d", k - 1);
      DoubledOne(Dotted(Repeat("%%d", k - 1)), Dotted(Repeat("%d", k - 1)));
    }
  }

  lemma DoubledOne(rest: string, out: string)
    requires Format(rest, []) == Some(out)
    ensures Format("." + ("%%d" + rest), []) == Some("." + ("%d" + out))
  {
    assert "%%d" + rest == "%%" + ("d" + rest);
    FormatPlain(".", "%%" + ("d" + rest), []);
    FormatPercent("d" + rest, []);
    FormatPlain("d", rest, []);
    assert "%" + ("d" + out) == "%d" + out;
  }

  lemma {:induction false} FormatNames(xs: seq<string>, t: string, args: seq<Arg>)
    ensures Format(Dotted(Escaped(xs)) + t, args) == After(Dotted(xs), Format(t, args))
    decreases |xs|
  {
    if xs == [] {
      FormatPlain("", t, args);
    } else {
      var rest := Dotted(Escaped(xs[1..]));
      var o := Format(t, args);
      assert Escaped(xs)[1..] == Escaped(xs[1..]);
      assert "." + (Escape(xs[0]) + rest) + t == "." + (Escape(xs[0]) + (rest + t));
      FormatPlain(".", Escape(xs[0]) + (rest + t), args);
      FormatEscaped(xs[0], rest + t, args);
      FormatNames(xs[1..], t, args);
      Joined(xs[0], Dotted(xs[1..]), o);
      Joined(".", xs[0] + Dotted(xs[1..]), o);
    }
  }

  // Templates and replies.

  /** The template of a consumer, from the formats of its prefix and its numbers and the texts for the prefix. */
  function Template(format: string, numbers: string, texts: seq<string>): Option<string> {
    match Format(format, Texts(texts))
    case None => None
    case Some(pre) => Format(numbers, [S(pre)])
  }

  const NUMBERS: string := "%s.%%d.%%d.%%d.%%d.%%d"

  function TemplateV1(stream: string, consumer: string): Option<string> {
    Template("$JS.ACK.%s.%s", NUMBERS, [Escape(stream), Escape(consumer)])
  }

  function TemplateV2(domain: string, hash: string, stream: string, consumer: string): Option<string> {
    var d := Escape(domain);
    Template("$JS.ACK.%s.%s.%s.%s", NUMBERS, [if d == "" then "_" else d, hash, Escape(stream), Escape(consumer)])
  }

  datatype Info = Info(sseq: int, dseq: int, dc: int, ts: int, pending: int)

  predicate Sane(i: Info) {
    && 0 <= i.sseq <= MAX_INT && 0 <= i.dseq <= MAX_INT && 0 <= i.dc <= MAX_INT
    && 0 <= i.ts <= MAX_INT && 0 <= i.pending <= MAX_INT
  }

  function InfoNumbers(i: Info): (ns: seq<nat>)
    requires Sane(i)
    ensures |ns| == 5
  {
    [i.dc, i.sseq, i.dseq, i.ts, i.pending]
  }

  /** The reply subject for a delivery. */
  function Reply(template: Option<string>, i: Info): Option<string>
    requires Sane(i)
  {
    match template
    case None => None
    case Some(t) => Format(t, Numbers(InfoNumbers(i)))
  }

  lemma DoubledFive()
    ensures NUMBERS == "%s" + Dotted(Repeat("%%d", 5))
  {
    DoubledStep(4);
    DoubledStep(3);
    DoubledStep(2);
    DoubledStep(1);
    DoubledStep(0);
    Spelled(".%%d");
  }

  lemma DoubledStep(k: nat)
    ensures Dotted(Repeat("%%d", k + 1)) == ".%%d" + Dotted(Repeat("%%d", k))
  {
    RepeatStep("%%d", k);
    assert "." + ("%%d" + Dotted(Repeat("%%d", k))) == ".%%d" + Dotted(Repeat("%%d", k));
  }

  lemma Spelled(x: string)
    requires x == ".%%d"
    ensures NUMBERS == "%s" + (x + (x + (x + (x + (x + "")))))
  {
  }

  lemma RepeatStep(x: string, k: nat)
    ensures Dotted(Repeat(x, k + 1)) == "." + (x + Dotted(Repeat(x, k)))
  {
    assert Repeat(x, k + 1)[1..] == Repeat(x, k);
  }

  lemma VerbsV1()
    ensures "$JS.ACK.%s.%s" == "$JS.ACK" + Dotted(Repeat("%s", 2))
  {
    RepeatStep("%s", 1);
    RepeatStep("%s", 0);
  }

  lemma VerbsV2()
    ensures "$JS.ACK.%s.%s.%s.%s" == "$JS.ACK" + Dotted(Repeat("%s", 4))
  {
    RepeatStep("%s", 3);
    RepeatStep("%s", 2);
    RepeatStep("%s", 1);
    RepeatStep("%s", 0);
  }

  /** A template keeps its texts escaped and has a verb for each number. */
  lemma TemplateIs(head: string, format: string, numbers: string, xs: seq<string>, k: nat)
    requires '%' !in head && format == head + Dotted(Repeat("%s", |xs|)) && numbers == "%s" + Dotted(Repeat("%%d", k))
    ensures Template(format, numbers, Escaped(xs)) == Some((head + Dotted(Escaped(xs))) + Dotted(Repeat("%d", k)))
  {
    var texts := Escaped(xs);
    FormatTexts(texts);
    FormatPlain(head, Dotted(Repeat("%s", |xs|)), Texts(texts));
    var pre := head + Dotted(texts);
    FormatS(pre, Dotted(Repeat("%%d", k)), []);
    assert [S(pre)] + [] == [S(pre)];
    FormatDoubled(k);
  }

  /** A template formats to its names and numbers. */
  lemma TemplateFormats(head: string, xs: seq<string>, ns: seq<nat>)
    requires '%' !in head
    ensures Format((head + Dotted(Escaped(xs))) + Dotted(Repeat("%d", |ns|)), Numbers(ns)) ==
            Some(head + (Dotted(xs) + Dotted(Decimals(ns))))
  {
    var verbs := Dotted(Repeat("%d", |ns|));
    Assoc(head, Dotted(Escaped(xs)), verbs);
    FormatPlain(head, Dotted(Escaped(xs)) + verbs, Numbers(ns));
    FormatNames(xs, verbs, Numbers(ns));
    FormatNumbers(ns);
  }

  /** A reply holds the names and the numbers, each a token. */
  lemma ReplyIs(head: string, format: string, numbers: string, xs: seq<string>, i: Info)
    requires '%' !in head && format == head + Dotted(Repeat("%s", |xs|)) && Sane(i)
    requires numbers == "%s" + Dotted(Repeat("%%d", |InfoNumbers(i)|))
    ensures Reply(Template(format, numbers, Escaped(xs)), i) == Some(head + Dotted(xs + Decimals(InfoNumbers(i))))
  {
    var ns := InfoNumbers(i);
    TemplateIs(head, format, numbers, xs, |ns|);
    TemplateFormats(head, xs, ns);
    DottedAppend(xs, Decimals(ns));
  }

  // Reading.

  method Tokens(subject: string) returns (tokens: seq<string>)
    ensures tokens == Split(subject, '.')
  {
    var start := 0;
    tokens := [];
    for i := 0 to |subject|
      invariant start <= i && Split(subject, '.') == tokens + SplitFrom(subject, '.', start, i)
    {
      if subject[i] == '.' {
        tokens := tokens + [subject[start..i]];
        start := i + 1;
      }
    }
    tokens := tokens + [subject[start..]];
  }

  /** The five numbers in the tokens of a reply; a reply of another form gives zeros. */
  function InfoOf(ts: seq<string>): Info {
    if (|ts| != 9 && |ts| < 11) || ts[0] != "$JS" || ts[1] != "ACK" then Info(0, 0, 0, 0, 0)
    else
      var o := if |ts| >= 11 then 6 else 4;
      Info(Unsigned(Number(ts[o + 1])), Unsigned(Number(ts[o + 2])), Unsigned(Number(ts[o])), Number(ts[o + 3]),
           Unsigned(Number(ts[o + 4])))
  }

  method AckReplyInfo(subject: string) returns (i: Info)
    ensures i == InfoOf(Split(subject, '.'))
  {
    var tokens := Tokens(subject);
    if (|tokens| != 9 && |tokens| < 11) || tokens[0] != "$JS" || tokens[1] != "ACK" {
      return Info(0, 0, 0, 0, 0);
    }
    var offset := if |tokens| >= 11 then 4 else 2;
    var dc := ParseAckReplyNum(tokens[offset + 2]);
    var sseq := ParseAckReplyNum(tokens[offset + 3]);
    var dseq := ParseAckReplyNum(tokens[offset + 4]);
    var ts := ParseAckReplyNum(tokens[offset + 5]);
    var pending := ParseAckReplyNum(tokens[offset + 6]);
    i := Info(Unsigned(sseq), Unsigned(dseq), Unsigned(dc), ts, Unsigned(pending));
  }

  // The round trip.

  lemma DecimalsDotFree(ns: seq<nat>)
    ensures Without('.', Decimals(ns))
  {
    forall i | 0 <= i < |ns|
      ensures '.' !in Decimal(ns[i])
    {
      assert AllDigits(Decimal(ns[i]));
    }
  }

  /** The tokens of a reply. */
  lemma ReplyTokens(names: seq<string>, i: Info)
    requires Without('.', names) && Sane(i)
    ensures Split("$JS.ACK" + Dotted(names + Decimals(InfoNumbers(i))), '.') ==
            ["$JS", "ACK"] + names + Decimals(InfoNumbers(i))
  {
    var rest := names + Decimals(InfoNumbers(i));
    DecimalsDotFree(InfoNumbers(i));
    var ts := ["ACK"] + rest;
    assert ts[1..] == rest;
    DottedTail(ts);
    assert "$JS.ACK" + Dotted(rest) == "$JS" + Dotted(ts);
    SplitJoined('.', "$JS", ts);
    assert ["$JS"] + ts == ["$JS", "ACK"] + names + Decimals(InfoNumbers(i));
  }

  /** The numbers are read back from the tokens, of which there are two kinds: two names or four. */
  lemma InfoBack(names: seq<string>, i: Info)
    requires Sane(i) && (|names| == 2 || |names| == 4)
    ensures InfoOf(["$JS", "ACK"] + names + Decimals(InfoNumbers(i))) == i
  {
    var ns := InfoNumbers(i);
    forall k | 0 <= k < 5
      ensures (["$JS", "ACK"] + names + Decimals(ns))[2 + |names| + k] == Decimal(ns[k]) && Number(Decimal(ns[k])) == ns[k]
    {
      NumberBack(ns[k]);
    }
  }

  lemma NumberBack(n: nat)
    requires n <= MAX_INT
    ensures Number(Decimal(n)) == n
  {
    DecimalValue(n);
  }

  /** What a consumer writes in a reply, in the older form, is read back. */
  lemma RoundTripV1(stream: string, consumer: string, i: Info)
    requires '.' !in stream && '.' !in consumer && Sane(i)
    ensures var r := Reply(TemplateV1(stream, consumer), i); r.Some? && InfoOf(Split(r.value, '.')) == i
  {
    var names := [stream, consumer];
    VerbsV1();
    DoubledFive();
    assert Escaped(names) == [Escape(stream), Escape(consumer)];
    ReplyIs("$JS.ACK", "$JS.ACK.%s.%s", NUMBERS, names, i);
    NamesBack(names, i);
  }

  lemma {:induction false} EscapeNothing(s: string)
    requires '%' !in s
    ensures Escape(s) == s
  {
    if s != [] {
      EscapeNothing(s[1..]);
    }
  }

  /** The names as the template writes them. */
  lemma NamesV2(domain: string, hash: string, stream: string, consumer: string)
    requires '%' !in hash
    ensures Escaped([if domain == "" then "_" else domain, hash, stream, consumer]) ==
            [if Escape(domain) == "" then "_" else Escape(domain), hash, Escape(stream), Escape(consumer)]
  {
    DomainEscaped(domain);
    EscapeNothing(hash);
    EscapedFour(if domain == "" then "_" else domain, hash, stream, consumer);
  }

  lemma DomainEscaped(domain: string)
    ensures Escape(if domain == "" then "_" else domain) == if Escape(domain) == "" then "_" else Escape(domain)
  {
    EscapeNothing("_");
  }

  lemma EscapedFour(a: string, b: string, c: string, d: string)
    ensures Escaped([a, b, c, d]) == [Escape(a), Escape(b), Escape(c), Escape(d)]
  {
  }

  /** The numbers of a reply with these names are read back. */
  lemma NamesBack(names: seq<string>, i: Info)
    requires Without('.', names) && Sane(i) && (|names| == 2 || |names| == 4)
    ensures InfoOf(Split("$JS.ACK" + Dotted(names + Decimals(InfoNumbers(i))), '.')) == i
  {
    ReplyTokens(names, i);
    InfoBack(names, i);
  }

  /** And in the newer form, for any domain without dots, the empty one too. */
  lemma RoundTripV2(domain: string, hash: string, stream: string, consumer: string, i: Info)
    requires '.' !in domain && '.' !in hash && '%' !in hash && '.' !in stream && '.' !in consumer && Sane(i)
    ensures var r := Reply(TemplateV2(domain, hash, stream, consumer), i); r.Some? && InfoOf(Split(r.value, '.')) == i
  {
    var names := [if domain == "" then "_" else domain, hash, stream, consumer];
    VerbsV2();
    DoubledFive();
    NamesV2(domain, hash, stream, consumer);
    assert TemplateV2(domain, hash, stream, consumer) == Template("$JS.ACK.%s.%s.%s.%s", NUMBERS, Escaped(names));
    ReplyIs("$JS.ACK", "$JS.ACK.%s.%s.%s.%s", NUMBERS, names, i);
    NamesBack(names, i);
  }
}
