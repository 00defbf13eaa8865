/** Parsing what was written: the lexer and the parser together give back a written configuration. */
module ConfRoundTrip {
  import opened Basics
  import opened ConfItems
  import ConfLex
  import ConfNumbers
  import opened ConfParse
  import opened ConfParser
  import opened ConfPrint
  import opened ConfTree
  import Strings

  // Numbers.

  lemma {:induction false} AllDigitsCount(s: string)
    requires forall i :: 0 <= i < |s| ==> Strings.IsDigit(s[i]) || s[i] == '-'
    ensures ConfParse.Digits(s) == |s|
  {
    if s != [] {
      AllDigitsCount(s[1..]);
    }
  }

  /** How an integer is written. */
  function NumberText(n: int): string { if n < 0 then "-" + Strings.Decimal(-n) else Strings.Decimal(n) }

  /** A number as the parser reads it. */
  lemma ParseBack(n: int)
    ensures forall i :: 0 <= i < |NumberText(n)| ==> Strings.IsDigit(NumberText(n)[i]) || NumberText(n)[i] == '-'
    ensures ParseInt(NumberText(n)) == if -MAX_INT - 1 <= n <= MAX_INT then Some(n) else None
  {
    var d := Strings.Decimal(if n < 0 then -n else n);
    Strings.ReadDecimal(if n < 0 then -n else n);
    assert n < 0 ==> NumberText(n)[1..] == d;
    assert NumberText(n) != "-" && Strings.IsDigit(d[0]);
  }

  /** A written integer is read as itself exactly when it has 64 bits, and is an error otherwise. */
  lemma NumberBack(n: int)
    ensures Numeral(NumberText(n))
    ensures Integer(NumberText(n)) == if -MAX_INT - 1 <= n <= MAX_INT then Is(Int(n)) else Bad
  {
    var s := NumberText(n);
    assert n < 0 ==> s[1..] == Strings.Decimal(-n);
    ParseBack(n);
    AllDigitsCount(s);
    assert s[..|s|] == s && s[|s|..] == "";
    assert TrimSpace("") == "" && Strings.Lower("") == "";
  }

  // Printable trees.

  lemma {:induction false} PrintableTree(t: Tree)
    requires Printable(t)
    ensures Sound(t)
    decreases t
  {
    match t
    case Leaf(it) =>
    case ArrayOf(ts) => PrintableAll(ts);
    case MapOf(es) => PrintableEntries(es);
  }

  lemma {:induction false} PrintableAll(ts: Trees)
    requires AllPrintable(ts)
    ensures AllSound(ts)
    decreases ts
  {
    match ts
    case NoTrees =>
    case AddTree(t, more) =>
      PrintableTree(t);
      PrintableAll(more);
  }

  lemma {:induction false} PrintableEntries(es: Entries)
    requires EntriesPrintable(es)
    ensures EntriesSound(es)
    decreases es
  {
    match es
    case NoEntries =>
    case AddEntry(_, t, more) =>
      PrintableTree(t);
      PrintableEntries(more);
  }

  // The last item of a written configuration is not a key.

  lemma {:induction false} TreeEnds(t: Tree)
    requires Sound(t)
    ensures Flatten(t) != [] && !Flatten(t)[|Flatten(t)| - 1].typ.ItemKey?
  {
  }

  lemma {:induction false} EntriesEnd(es: Entries)
    requires EntriesPrintable(es)
    ensures var its := FlattenEntries(es); its != [] ==> !its[|its| - 1].typ.ItemKey?
    decreases es
  {
    match es
    case NoEntries =>
    case AddEntry(_, t, more) =>
      PrintableTree(t);
      TreeEnds(t);
      EntriesEnd(more);
  }

  // The whole.

  lemma PrefixOk(lib: Library, m: Machine, a: seq<Item>, b: seq<Item>)
    requires a <= b && Run(lib, m, b).Ok?
    ensures Run(lib, m, a).Ok?
  {
    RunAppend(lib, m, a, b[|a|..]);
    assert a + b[|a|..] == b;
  }

  /** The items of a written configuration and the end after them. */
  lemma WrittenRuns(lib: Library, es: Entries)
    requires EntriesSound(es)
    ensures Run(lib, EMPTY, FlattenEntries(es) + [Item(ItemEOF, "")]) == Run(lib, EMPTY, FlattenEntries(es))
    ensures var r := Run(lib, EMPTY, FlattenEntries(es)); !r.Panics? && (r.Ok? ==> r.machine.ctxs.Push? && r.machine.ctxs.top.MapCtx?)
  {
    RunAppend(lib, EMPTY, FlattenEntries(es), [Item(ItemEOF, "")]);
    match Run(lib, EMPTY, FlattenEntries(es)) {
      case Ok(m) => RunOne(lib, m, Item(ItemEOF, ""));
      case _ =>
    }
    EntriesFollow(lib, EMPTY, es, START);
  }

  /** Parsing the text of a configuration does what its items do.  It is accepted with no key left exactly when it has
      a meaning, and then gives that meaning; and it is not accepted if something in it is bad.
   */
  method ParseWritten(es: Entries, lib: Library, pedantic: bool) returns (ok: bool, fields: map<string, Value>, left: Stack<string>)
    requires EntriesPrintable(es)
    ensures EntriesSound(es)
    ensures var r := Run(lib, EMPTY, FlattenEntries(es));
            ok == r.Ok? && (ok ==> r.machine.ctxs.Push? && r.machine.ctxs.top == MapCtx(fields) && r.machine.keys == left)
    ensures ok && left == Empty <==> MapMeaning(lib, Empty, map[], es).Is?
    ensures ok && left == Empty ==> MapMeaning(lib, Empty, map[], es) == Is(Obj(fields))
    ensures MapMeaning(lib, Empty, map[], es).Bad? ==> !ok
  {
    var text := PrintEntries(es);
    var p := new Parser(text, lib, pedantic);
    var accepted := p.Parse();
    PrintableEntries(es);
    WrittenRuns(lib, es);
    Configuration(lib, es);
    ghost var n := ConfigurationLexes(text, p.lx.f, es);
    AllTaken(lib, es, p.taken, p.lx.f, p.lx.steps, n, p.lx.Config());
    ok, fields, left := accepted, map[], Empty;
    if accepted {
      fields, left := p.ctxs.top.fields, p.keys;
    }
  }

  /** What was taken from the lexer is all that was written, unless it ends in an error before. */
  lemma AllTaken(lib: Library, es: Entries, taken: seq<Item>, f: ConfLex.Lex -> ConfLex.Lex, steps: nat, n: nat, l: ConfLex.Lex)
    requires EntriesPrintable(es) && EntriesSound(es) && taken != []
    requires ConfLex.Lexed(f, steps) == ConfLex.Trace(l, taken) && (Run(lib, EMPTY, taken).Ok? ==> l.state.Stop?)
    requires ConfLex.Lexed(f, n).lex.state.Stop? && ConfLex.Lexed(f, n).sent == FlattenEntries(es) + [Item(ItemEOF, "")]
    ensures var all := FlattenEntries(es) + [Item(ItemEOF, "")];
            && (Run(lib, EMPTY, taken).Ok? <==> Run(lib, EMPTY, all).Ok?)
            && (Run(lib, EMPTY, taken).Ok? ==> taken == all && !EndsInKey(taken))
  {
    var all := FlattenEntries(es) + [Item(ItemEOF, "")];
    ConfLex.RunOnce(f, ConfLex.Trace(ConfLex.BEGIN, []), steps, n);
    assert taken <= all;
    EntriesEnd(es);
    if Run(lib, EMPTY, all).Ok? {
      PrefixOk(lib, EMPTY, taken, all);
    }
  }

  /** The text `a:{b:1kbb` and a closing brace is accepted, though its map ends under the wrong key and a key is left. */
  method ParseLeftover(lib: Library) returns (text: string, ok: bool, fields: map<string, Value>, left: Stack<string>)
    ensures text == "a:{b:1kbb\n}\n"
    ensures ok && fields == map["b" := Obj(map[])] && left == Push("a", Empty)
  {
    var odd := AddEntry("b", Leaf(Item(ItemInteger, "1kbb")), NoEntries);
    var es := AddEntry("a", MapOf(odd), NoEntries);
    OddPrints(odd, es);
    text := PrintEntries(es);
    ok, fields, left := ParseWritten(es, lib, false);
    LeftoverKey(lib);
  }

  lemma OddPrints(odd: Entries, es: Entries)
    requires odd == AddEntry("b", Leaf(Item(ItemInteger, "1kbb")), NoEntries) && es == AddEntry("a", MapOf(odd), NoEntries)
    ensures EntriesPrintable(es) && PrintEntries(es) == "a:{b:1kbb\n}\n"
  {
    OddSize();
    assert EntriesPrintable(odd);
    OddMap(odd);
    OddText("a", "{b:1kbb\n}");
    assert "a:" + "{b:1kbb\n}\n" == "a:{b:1kbb\n}\n";
  }

  lemma OddMap(odd: Entries)
    requires odd == AddEntry("b", Leaf(Item(ItemInteger, "1kbb")), NoEntries)
    ensures Print(MapOf(odd)) == "{b:1kbb\n}"
  {
    assert Print(Leaf(Item(ItemInteger, "1kbb"))) == "1kbb";
    OddText("b", "1kbb");
    assert "{" + (("b:" + "1kbb\n") + "}") == "{b:1kbb\n}";
  }

  lemma OddText(key: string, text: string)
    requires |key| == 1
    ensures (key + ":") + (text + ("\n" + "")) == [key[0], ':'] + (text + "\n")
  {
  }

  lemma OddSize()
    ensures SizeText("1kbb")
  {
    assert "1kbb"[1..] == "kbb";
    assert ConfNumbers.Leading("kbb") == 0;
    assert ConfNumbers.Leading("1kbb") == 1;
  }
}
