/** Written configurations are read back: the lexer sends exactly the items of the tree that was written, whatever
its strings, numbers and nesting.
 */
module ConfPrint {
  import opened ConfItems
  import opened ConfLex
  import opened ConfNumbers
  import opened ConfReads
  import opened ConfTree
  import Strings

  // Writing.

  predicate KeyChar(c: char) { Letter(c) || '0' <= c <= '9' || c == '_' }

  predicate IsKey(k: string) { k != "" && forall i :: 0 <= i < |k| ==> KeyChar(k[i]) }

  predicate PlainText(s: string) { forall i :: 0 <= i < |s| ==> s[i] != '\'' && s[i] != EOF }

  predicate Digits(s: string) { s != "" && Strings.AllDigits(s) }

  predicate Numeral(s: string) { Digits(s) || (s != "" && s[0] == '-' && Digits(s[1..])) }

  /** Digits, a letter that stands for a size, and letters `b` and `i`. */
  predicate Sized(s: string) {
    var n := Leading(s);
    0 < n < |s| && IsNumberSuffix(s[n]) && forall i :: n < i < |s| ==> SizeLetter(s[i])
  }

  /** A size, which may be below zero. */
  predicate SizeText(s: string) { Sized(s) || (s != "" && s[0] == '-' && Sized(s[1..])) }

  /** Strings go between single quotes, numbers and booleans as they are, each element and entry on a line. */
  function Print(t: Tree): string {
    match t
    case Leaf(it) => if it.typ.ItemString? then "'" + (it.val + "'") else it.val
    case ArrayOf(ts) => "[" + (PrintAll(ts) + "]")
    case MapOf(es) => "{" + (PrintEntries(es) + "}")
  }

  function PrintAll(ts: Trees): string {
    match ts
    case NoTrees => ""
    case AddTree(t, more) => Print(t) + ("\n" + PrintAll(more))
  }

  function PrintEntries(es: Entries): string {
    match es
    case NoEntries => ""
    case AddEntry(k, t, more) => (k + ":") + (Print(t) + ("\n" + PrintEntries(more)))
    case AddBare(_, more) => PrintEntries(more)
  }

  predicate Printable(t: Tree) {
    match t
    case Leaf(it) =>
      match it.typ {
        case ItemString => PlainText(it.val)
        case ItemInteger => Numeral(it.val) || SizeText(it.val)
        case ItemBool => IsBool(it.val)
        case _ => false
      }
    case ArrayOf(ts) => AllPrintable(ts)
    case MapOf(es) => EntriesPrintable(es)
  }

  predicate AllPrintable(ts: Trees) {
    match ts
    case NoTrees => true
    case AddTree(t, more) => Printable(t) && AllPrintable(more)
  }

  predicate EntriesPrintable(es: Entries) {
    match es
    case NoEntries => true
    case AddEntry(k, t, more) => IsKey(k) && Printable(t) && EntriesPrintable(more)
    case AddBare(_, _) => false
  }

  // Keys.

  lemma KeyFirst(input: string, f: Lex -> Lex, p: int, w: nat, ss: State)
    requires IsStepper(input, f) && 0 <= p < |input| && KeyChar(input[p])
    ensures Goes(f, At(p, AtTop(TopEntry), Empty, w, ss), 2, [], Reading(p, p + 1, AtKey(KeyText), Push(AtTop(TopValueEnd), Empty), ss))
  {
    var l := At(p, AtTop(TopEntry), Empty, w, ss);
    var m := At(p, AtKey(KeyStart), Push(AtTop(TopValueEnd), Empty), 1, ss);
    One(input, f, l, m);
    var k := Reading(p, p + 1, AtKey(KeyText), Push(AtTop(TopValueEnd), Empty), ss);
    One(input, f, m, k);
    Then(f, l, 1, [], m, 1, [], k);
  }

  /** The places where a key is read: at the top or in a map. */
  predicate KeyPlace(st: State) { st == AtKey(KeyText) || st == InMap(MapKeyText) }

  lemma {:induction false} KeyRest(input: string, f: Lex -> Lex, s: int, p: int, e: int, st: State, stack: Stack<State>, ss: State)
    requires IsStepper(input, f) && KeyPlace(st) && 0 <= s <= p <= e <= |input|
    requires forall i :: p <= i < e ==> KeyChar(input[i])
    ensures Goes(f, Reading(s, p, st, stack, ss), e - p, [], Reading(s, e, st, stack, ss))
    decreases e - p
  {
    if p < e {
      var l, m := Reading(s, p, st, stack, ss), Reading(s, p + 1, st, stack, ss);
      One(input, f, l, m);
      KeyRest(input, f, s, p + 1, e, st, stack, ss);
      Then(f, l, 1, [], m, e - p - 1, [], Reading(s, e, st, stack, ss));
    }
  }

  /** At the colon after a key. */
  lemma KeyColon(input: string, f: Lex -> Lex, s: int, e: int, stack: Stack<State>, ss: State)
    requires IsStepper(input, f) && 0 <= s <= e < |input| && input[e] == ':'
    ensures Goes(f, Reading(s, e, AtKey(KeyText), stack, ss), 3, [Item(ItemKey, input[s..e])], At(e + 1, AtValue(ValueStart), stack, 1, ss))
  {
    var l, m := Reading(s, e, AtKey(KeyText), stack, ss), At(e, KeyEnd, stack, 1, ss);
    var key := [Item(ItemKey, input[s..e])];
    assert "" + input[s..e] == input[s..e];
    One(input, f, l, m.(items := key));
    var d := Dropping(e, e + 1, AtValue(ValueStart), stack, ss);
    One(input, f, m, d);
    DropOne(input, f, e, e + 1, AtValue(ValueStart), stack, ss);
    ThenOff(f, l, 1, key, m, 1, d);
    ThenOff(f, l, 2, key, d, 1, At(e + 1, AtValue(ValueStart), stack, 1, ss));
  }

  lemma MapKeyColon(input: string, f: Lex -> Lex, s: int, e: int, stack: Stack<State>, ss: State)
    requires IsStepper(input, f) && 0 <= s <= e < |input| && input[e] == ':'
    ensures Goes(f, Reading(s, e, InMap(MapKeyText), stack, ss), 3, [Item(ItemKey, input[s..e])], At(e + 1, AfterKey(MapValue), stack, 1, ss))
  {
    var l, m := Reading(s, e, InMap(MapKeyText), stack, ss), At(e, AfterKey(MapKeyEnd), stack, 1, ss);
    var key := [Item(ItemKey, input[s..e])];
    assert "" + input[s..e] == input[s..e];
    One(input, f, l, m.(items := key));
    var d := Dropping(e, e + 1, AfterKey(MapValue), stack, ss);
    One(input, f, m, d);
    DropOne(input, f, e, e + 1, AfterKey(MapValue), stack, ss);
    ThenOff(f, l, 1, key, m, 1, d);
    ThenOff(f, l, 2, key, d, 1, At(e + 1, AfterKey(MapValue), stack, 1, ss));
  }

  lemma KeyHeld(input: string, p: int, k: string)
    requires Holds(input, p, k + ":") && IsKey(k)
    ensures 0 <= p && p + |k| < |input| && input[p..p + |k|] == k && input[p + |k|] == ':'
    ensures forall i :: p <= i < p + |k| ==> KeyChar(input[i])
  {
    HoldsSplit(input, p, k, ":");
    HoldsAt(input, p + |k|, ":", 0);
    forall i | p <= i < p + |k|
      ensures KeyChar(input[i])
    {
      HoldsAt(input, p, k, i - p);
    }
  }

  /** The key of a top-level entry. */
  lemma KeyLexes(input: string, f: Lex -> Lex, p: int, w: nat, ss: State, k: string)
    requires IsStepper(input, f) && IsKey(k) && Holds(input, p, k + ":")
    ensures Goes(f, At(p, AtTop(TopEntry), Empty, w, ss), |k| + 4, [Item(ItemKey, k)],
                 At(p + |k| + 1, AtValue(ValueStart), Push(AtTop(TopValueEnd), Empty), 1, ss))
  {
    var l, stack, e := At(p, AtTop(TopEntry), Empty, w, ss), Push(AtTop(TopValueEnd), Empty), p + |k|;
    KeyHeld(input, p, k);
    KeyFirst(input, f, p, w, ss);
    KeyRest(input, f, p, p + 1, e, AtKey(KeyText), stack, ss);
    KeyColon(input, f, p, e, stack, ss);
    ThenOn(f, l, 2, Reading(p, p + 1, AtKey(KeyText), stack, ss), e - p - 1, [], Reading(p, e, AtKey(KeyText), stack, ss));
    ThenOn(f, l, e - p + 1, Reading(p, e, AtKey(KeyText), stack, ss), 3, [Item(ItemKey, k)], At(e + 1, AtValue(ValueStart), stack, 1, ss));
  }

  /** The characters a written value begins with. */
  predicate ValueChar(c: char) {
    c == '\'' || c == '[' || c == '{' || c == '-' || Strings.IsDigit(c) || Letter(c)
  }

  lemma PrintFirst(t: Tree)
    requires Printable(t)
    ensures Print(t) != "" && ValueChar(Print(t)[0])
  {
    if t.Leaf? && t.item.typ.ItemBool? {
      BoolText(t.item.val);
    }
  }

  lemma MapKeyFirst(input: string, f: Lex -> Lex, p: int, w: nat, ss: State, stack: Stack<State>)
    requires IsStepper(input, f) && 0 <= p < |input| && KeyChar(input[p])
    ensures Goes(f, At(p, InMap(MapKeyStart), stack, w, ss), 1, [], Reading(p, p + 1, InMap(MapKeyText), stack, ss))
  {
    One(input, f, At(p, InMap(MapKeyStart), stack, w, ss), Reading(p, p + 1, InMap(MapKeyText), stack, ss));
  }

  lemma MapValueFirst(input: string, f: Lex -> Lex, p: int, ss: State, stack: Stack<State>)
    requires IsStepper(input, f) && 0 <= p < |input| && ValueChar(input[p])
    ensures Goes(f, At(p, AfterKey(MapValue), stack, 1, ss), 1, [], At(p, AtValue(ValueStart), Push(InMap(MapValueEnd), stack), 1, ss))
  {
    One(input, f, At(p, AfterKey(MapValue), stack, 1, ss), At(p, AtValue(ValueStart), Push(InMap(MapValueEnd), stack), 1, ss));
  }

  /** The text of a key in a map. */
  lemma MapKeyReads(input: string, f: Lex -> Lex, p: int, e: int, w: nat, ss: State, stack: Stack<State>)
    requires IsStepper(input, f) && 0 <= p < e < |input| && input[e] == ':'
    requires forall i :: p <= i < e ==> KeyChar(input[i])
    ensures Goes(f, At(p, InMap(MapKeyStart), stack, w, ss), e - p + 3, [Item(ItemKey, input[p..e])], At(e + 1, AfterKey(MapValue), stack, 1, ss))
  {
    var l, m, k := At(p, InMap(MapKeyStart), stack, w, ss), Reading(p, p + 1, InMap(MapKeyText), stack, ss), Reading(p, e, InMap(MapKeyText), stack, ss);
    MapKeyFirst(input, f, p, w, ss, stack);
    KeyRest(input, f, p, p + 1, e, InMap(MapKeyText), stack, ss);
    ThenOn(f, l, 1, m, e - p - 1, [], k);
    MapKeyColon(input, f, p, e, stack, ss);
    ThenOn(f, l, e - p, k, 3, [Item(ItemKey, input[p..e])], At(e + 1, AfterKey(MapValue), stack, 1, ss));
  }

  /** The key of an entry of a map, up to its value. */
  lemma MapKeyLexes(input: string, f: Lex -> Lex, p: int, w: nat, ss: State, stack: Stack<State>, k: string)
    requires IsStepper(input, f) && IsKey(k) && Holds(input, p, k + ":")
    requires p + |k| + 1 < |input| && ValueChar(input[p + |k| + 1])
    ensures Goes(f, At(p, InMap(MapKeyStart), stack, w, ss), |k| + 4, [Item(ItemKey, k)],
                 At(p + |k| + 1, AtValue(ValueStart), Push(InMap(MapValueEnd), stack), 1, ss))
  {
    var e := p + |k|;
    KeyHeld(input, p, k);
    MapKeyReads(input, f, p, e, w, ss, stack);
    MapValueFirst(input, f, e + 1, ss, stack);
    ThenOff(f, At(p, InMap(MapKeyStart), stack, w, ss), e - p + 3, [Item(ItemKey, k)], At(e + 1, AfterKey(MapValue), stack, 1, ss), 1,
            At(e + 1, AtValue(ValueStart), Push(InMap(MapValueEnd), stack), 1, ss));
  }

  // Scalars.

  lemma StringLexes(input: string, f: Lex -> Lex, p: int, w: nat, ss: State, frame: State, rest: Stack<State>, s: string)
    requires IsStepper(input, f) && PlainText(s) && Holds(input, p, "'" + (s + "'"))
    ensures Goes(f, At(p, AtValue(ValueStart), Push(frame, rest), w, ss), |s| + 2, [Item(ItemString, s)], At(p + |s| + 2, frame, rest, 1, ss))
  {
    var l, stack, e, v := At(p, AtValue(ValueStart), Push(frame, rest), w, ss), Push(frame, rest), p + 1 + |s|, QuotedString;
    StringHeld(input, p, s);
    StringOpens(input, f, p, w, ss, stack);
    ReadMore(input, f, p + 1, p + 1, e, v, stack, ss);
    StringCloses(input, f, p + 1, e, ss, frame, rest);
    ThenOn(f, l, 1, Reading(p + 1, p + 1, AtValue(v), stack, ss), e - p - 1, [], Reading(p + 1, e, AtValue(v), stack, ss));
    ThenOn(f, l, e - p, Reading(p + 1, e, AtValue(v), stack, ss), 1, [Item(ItemString, s)], At(e + 1, frame, rest, 1, ss));
  }

  lemma StringHeld(input: string, p: int, s: string)
    requires PlainText(s) && Holds(input, p, "'" + (s + "'"))
    ensures 0 <= p && p + 1 + |s| < |input| && input[p] == '\'' && input[p + 1 + |s|] == '\'' && input[p + 1..p + 1 + |s|] == s
    ensures forall i :: p + 1 <= i < p + 1 + |s| ==> Continues(QuotedString, input[i])
  {
    HoldsSplit(input, p, "'", s + "'");
    HoldsSplit(input, p + 1, s, "'");
    HoldsAt(input, p, "'", 0);
    HoldsAt(input, p + 1 + |s|, "'", 0);
    forall i | p + 1 <= i < p + 1 + |s|
      ensures Continues(QuotedString, input[i])
    {
      HoldsAt(input, p + 1, s, i - p - 1);
    }
  }

  lemma StringOpens(input: string, f: Lex -> Lex, p: int, w: nat, ss: State, stack: Stack<State>)
    requires IsStepper(input, f) && 0 <= p < |input| && input[p] == '\''
    ensures Goes(f, At(p, AtValue(ValueStart), stack, w, ss), 1, [], Reading(p + 1, p + 1, AtValue(QuotedString), stack, ss))
  {
    One(input, f, At(p, AtValue(ValueStart), stack, w, ss), Reading(p + 1, p + 1, AtValue(QuotedString), stack, ss));
  }

  lemma StringCloses(input: string, f: Lex -> Lex, s: int, e: int, ss: State, frame: State, rest: Stack<State>)
    requires IsStepper(input, f) && 0 <= s <= e < |input| && input[e] == '\''
    ensures Goes(f, Reading(s, e, AtValue(QuotedString), Push(frame, rest), ss), 1, [Item(ItemString, input[s..e])], At(e + 1, frame, rest, 1, ss))
  {
    assert "" + input[s..e] == input[s..e];
    One(input, f, Reading(s, e, AtValue(QuotedString), Push(frame, rest), ss),
        At(e + 1, frame, rest, 1, ss).(items := [Item(ItemString, input[s..e])]));
  }

  /** A number has been read, which starts with a minus if `below`. */
  lemma NumberReads(input: string, f: Lex -> Lex, p: int, w: nat, ss: State, stack: Stack<State>, s: string, below: bool)
    requires IsStepper(input, f) && Holds(input, p, s) && |s| > 0 && below == (s[0] == '-') && Digits(if below then s[1..] else s)
    ensures Goes(f, At(p, AtValue(ValueStart), stack, w, ss), if below then |s| else |s| + 1, [],
                 Reading(p, p + |s|, AtValue(if below then NegNumber else Number), stack, ss))
  {
    forall i | p <= i < p + |s|
      ensures input[i] == s[i - p]
    {
      HoldsAt(input, p, s, i - p);
    }
    if below {
      assert forall i :: 0 <= i < |s| - 1 ==> s[1..][i] == s[i + 1];
      NegativeRead(input, f, p, p + |s|, w, ss, stack);
    } else {
      DigitsRead(input, f, p, p + |s|, w, ss, stack);
    }
  }

  lemma NumberLexes(input: string, f: Lex -> Lex, p: int, w: nat, ss: State, frame: State, rest: Stack<State>, s: string)
    requires IsStepper(input, f) && Numeral(s) && Holds(input, p, s) && Char(input, p + |s|) == '\n'
    ensures Goes(f, At(p, AtValue(ValueStart), Push(frame, rest), w, ss), if s[0] == '-' then |s| + 1 else |s| + 2,
                 [Item(ItemInteger, s)], At(p + |s|, frame, rest, 1, ss))
  {
    var l, stack, e, below := At(p, AtValue(ValueStart), Push(frame, rest), w, ss), Push(frame, rest), p + |s|, s[0] == '-';
    var v := if below then NegNumber else Number;
    NumberReads(input, f, p, w, ss, stack, s, below);
    NumberCloses(input, f, p, e, v, ss, frame, rest);
    assert input[p..e] == s;
    ThenOn(f, l, if below then |s| else |s| + 1, Reading(p, e, AtValue(v), stack, ss), 1,
           [Item(ItemInteger, s)], At(e, frame, rest, 1, ss));
  }

  /** A size has been read, which starts with a minus if `below`. */
  lemma SizeReads(input: string, f: Lex -> Lex, p: int, w: nat, ss: State, stack: Stack<State>, s: string, below: bool)
    requires IsStepper(input, f) && Holds(input, p, s) && |s| > 0 && below == (s[0] == '-') && Sized(if below then s[1..] else s)
    ensures Goes(f, At(p, AtValue(ValueStart), stack, w, ss), if below then |s| else |s| + 1, [],
                 Reading(p, p + |s|, AtValue(ConvenientNumber), stack, ss))
  {
    var g := p + |s|;
    forall i | p <= i < g
      ensures input[i] == s[i - p]
    {
      HoldsAt(input, p, s, i - p);
    }
    if below {
      assert forall i :: 0 <= i < |s| - 1 ==> s[1..][i] == s[i + 1];
      NegativeSizeRead(input, f, p, p + 1 + Leading(s[1..]), g, w, ss, stack);
    } else {
      SizeRead(input, f, p, p + Leading(s), g, w, ss, stack);
    }
  }

  lemma SizeLexes(input: string, f: Lex -> Lex, p: int, w: nat, ss: State, frame: State, rest: Stack<State>, s: string)
    requires IsStepper(input, f) && SizeText(s) && Holds(input, p, s) && Char(input, p + |s|) == '\n'
    ensures Goes(f, At(p, AtValue(ValueStart), Push(frame, rest), w, ss), if s[0] == '-' then |s| + 1 else |s| + 2,
                 [Item(ItemInteger, s)], At(p + |s|, frame, rest, 1, ss))
  {
    var l, stack, g, below := At(p, AtValue(ValueStart), Push(frame, rest), w, ss), Push(frame, rest), p + |s|, s[0] == '-';
    SizeReads(input, f, p, w, ss, stack, s, below);
    NumberEnds(input, f, p, g, ConvenientNumber, ss, frame, rest);
    assert input[p..g] == s;
    ThenOn(f, l, if below then |s| else |s| + 1, Reading(p, g, AtValue(ConvenientNumber), stack, ss), 1,
           [Item(ItemInteger, s)], At(g, frame, rest, 1, ss));
  }

  lemma LetterOpens(input: string, l: Lex)
    requires l.state == AtValue(ValueStart) && 0 <= l.pos < |input| && !l.skip && Letter(input[l.pos])
    ensures LexValue(input, l) == StringIn(Backup(Next(input, l)), RawString)
  {
  }

  lemma BoolOpens(input: string, f: Lex -> Lex, p: int, w: nat, ss: State, stack: Stack<State>)
    requires IsStepper(input, f) && 0 <= p < |input| && Letter(input[p])
    ensures Goes(f, At(p, AtValue(ValueStart), stack, w, ss), 1, [], Reading(p, p, AtValue(RawString), stack, AtValue(RawString)))
  {
    var l := At(p, AtValue(ValueStart), stack, w, ss);
    LetterOpens(input, l);
    One(input, f, l, Reading(p, p, AtValue(RawString), stack, AtValue(RawString)));
  }

  lemma BoolCloses(input: string, f: Lex -> Lex, s: int, e: int, ss: State, frame: State, rest: Stack<State>)
    requires IsStepper(input, f) && 0 <= s <= e < |input| && input[e] == '\n' && IsBool(input[s..e])
    ensures Goes(f, Reading(s, e, AtValue(RawString), Push(frame, rest), ss), 1, [Item(ItemBool, input[s..e])], At(e, frame, rest, 1, ss))
  {
    assert "" + input[s..e] == input[s..e];
    One(input, f, Reading(s, e, AtValue(RawString), Push(frame, rest), ss), At(e, frame, rest, 1, ss).(items := [Item(ItemBool, input[s..e])]));
  }

  lemma BoolText(s: string)
    requires IsBool(s)
    ensures s != "" && forall i :: 0 <= i < |s| ==> Letter(s[i]) && Continues(RawString, s[i])
  {
    var l := Strings.Lower(s);
    forall i | 0 <= i < |s|
      ensures Letter(s[i])
    {
      assert 'a' <= l[i] <= 'z';
    }
  }

  lemma BoolLexes(input: string, f: Lex -> Lex, p: int, w: nat, ss: State, frame: State, rest: Stack<State>, s: string)
    requires IsStepper(input, f) && IsBool(s) && Holds(input, p, s) && Char(input, p + |s|) == '\n'
    ensures Goes(f, At(p, AtValue(ValueStart), Push(frame, rest), w, ss), |s| + 2, [Item(ItemBool, s)], At(p + |s|, frame, rest, 1, AtValue(RawString)))
  {
    var l, stack, e := At(p, AtValue(ValueStart), Push(frame, rest), w, ss), Push(frame, rest), p + |s|;
    var v, raw := RawString, AtValue(RawString);
    BoolText(s);
    forall i | p <= i < e
      ensures input[i] == s[i - p]
    {
      HoldsAt(input, p, s, i - p);
    }
    BoolOpens(input, f, p, w, ss, stack);
    ReadMore(input, f, p, p, e, v, stack, raw);
    BoolCloses(input, f, p, e, raw, frame, rest);
    ThenOn(f, l, 1, Reading(p, p, AtValue(v), stack, raw), e - p, [], Reading(p, e, AtValue(v), stack, raw));
    ThenOn(f, l, e - p + 1, Reading(p, e, AtValue(v), stack, raw), 1, [Item(ItemBool, s)], At(e, frame, rest, 1, raw));
  }

  // Arrays and maps.

  lemma ArrayOpens(input: string, f: Lex -> Lex, p: int, w: nat, ss: State, stack: Stack<State>)
    requires IsStepper(input, f) && 0 <= p < |input| && input[p] == '['
    ensures Goes(f, At(p, AtValue(ValueStart), stack, w, ss), 1, [Item(ItemArrayStart, "")], At(p + 1, InArray(ArrayValue), stack, 1, ss))
  {
    var l := At(p, AtValue(ValueStart), stack, w, ss);
    assert input[p + 1..p + 1] == "" && "" + "" == "";
    assert Step(input, l) == LexValue(input, l);
    One(input, f, l, At(p + 1, InArray(ArrayValue), stack, 1, ss).(items := [Item(ItemArrayStart, "")]));
  }

  lemma MapOpens(input: string, f: Lex -> Lex, p: int, w: nat, ss: State, stack: Stack<State>)
    requires IsStepper(input, f) && 0 <= p < |input| && input[p] == '{'
    ensures Goes(f, At(p, AtValue(ValueStart), stack, w, ss), 1, [Item(ItemMapStart, "")], At(p + 1, InMap(MapKeyStart), stack, 1, ss))
  {
    var l := At(p, AtValue(ValueStart), stack, w, ss);
    assert input[p + 1..p + 1] == "" && "" + "" == "";
    assert Step(input, l) == LexValue(input, l);
    One(input, f, l, At(p + 1, InMap(MapKeyStart), stack, 1, ss).(items := [Item(ItemMapStart, "")]));
  }

  lemma ArrayCloses(input: string, f: Lex -> Lex, p: int, w: nat, ss: State, frame: State, rest: Stack<State>)
    requires IsStepper(input, f) && 0 <= p < |input| && input[p] == ']'
    ensures Goes(f, At(p, InArray(ArrayValue), Push(frame, rest), w, ss), 2, [Item(ItemArrayEnd, "")], At(p + 1, frame, rest, 1, ss))
  {
    var stack := Push(frame, rest);
    var l, m := At(p, InArray(ArrayValue), stack, w, ss), Reading(p, p + 1, InArray(ArrayEnd), stack, ss);
    One(input, f, l, m);
    assert input[p + 1..p + 1] == "" && "" + "" == "";
    One(input, f, m, At(p + 1, frame, rest, 1, ss).(items := [Item(ItemArrayEnd, "")]));
    ThenOn(f, l, 1, m, 1, [Item(ItemArrayEnd, "")], At(p + 1, frame, rest, 1, ss));
  }

  lemma MapCloses(input: string, f: Lex -> Lex, p: int, w: nat, ss: State, frame: State, rest: Stack<State>)
    requires IsStepper(input, f) && 0 <= p < |input| && input[p] == '}'
    ensures Goes(f, At(p, InMap(MapKeyStart), Push(frame, rest), w, ss), 3, [Item(ItemMapEnd, "")], At(p + 1, frame, rest, 1, ss))
  {
    var stack := Push(frame, rest);
    var l, d, m := At(p, InMap(MapKeyStart), stack, w, ss), Dropping(p, p + 1, InMap(MapEnd), stack, ss), At(p + 1, InMap(MapEnd), stack, 1, ss);
    One(input, f, l, d);
    DropOne(input, f, p, p + 1, InMap(MapEnd), stack, ss);
    ThenOn(f, l, 1, d, 1, [], m);
    assert input[p + 1..p + 1] == "" && "" + "" == "";
    One(input, f, m, At(p + 1, frame, rest, 1, ss).(items := [Item(ItemMapEnd, "")]));
    ThenOn(f, l, 2, m, 1, [Item(ItemMapEnd, "")], At(p + 1, frame, rest, 1, ss));
  }

  lemma ElementOpens(input: string, f: Lex -> Lex, p: int, w: nat, ss: State, stack: Stack<State>)
    requires IsStepper(input, f) && 0 <= p < |input| && ValueChar(input[p])
    ensures Goes(f, At(p, InArray(ArrayValue), stack, w, ss), 1, [], At(p, AtValue(ValueStart), Push(InArray(ArrayValueEnd), stack), 1, ss))
  {
    One(input, f, At(p, InArray(ArrayValue), stack, w, ss), At(p, AtValue(ValueStart), Push(InArray(ArrayValueEnd), stack), 1, ss));
  }

  lemma ElementCloses(input: string, f: Lex -> Lex, p: int, ss: State, stack: Stack<State>)
    requires IsStepper(input, f) && 0 <= p < |input| && input[p] == '\n'
    ensures Goes(f, At(p, InArray(ArrayValueEnd), stack, 1, ss), 2, [], At(p + 1, InArray(ArrayValue), stack, 1, ss))
  {
    var l, d := At(p, InArray(ArrayValueEnd), stack, 1, ss), Dropping(p, p + 1, InArray(ArrayValue), stack, ss);
    One(input, f, l, d);
    DropOne(input, f, p, p + 1, InArray(ArrayValue), stack, ss);
    ThenOn(f, l, 1, d, 1, [], At(p + 1, InArray(ArrayValue), stack, 1, ss));
  }

  lemma EntryCloses(input: string, f: Lex -> Lex, p: int, ss: State, stack: Stack<State>)
    requires IsStepper(input, f) && 0 <= p < |input| && input[p] == '\n'
    ensures Goes(f, At(p, InMap(MapValueEnd), stack, 1, ss), 2, [], At(p + 1, InMap(MapKeyStart), stack, 1, ss))
  {
    var l, d := At(p, InMap(MapValueEnd), stack, 1, ss), Dropping(p, p + 1, InMap(MapKeyStart), stack, ss);
    One(input, f, l, d);
    DropOne(input, f, p, p + 1, InMap(MapKeyStart), stack, ss);
    ThenOn(f, l, 1, d, 1, [], At(p + 1, InMap(MapKeyStart), stack, 1, ss));
  }

  lemma TopEntryCloses(input: string, f: Lex -> Lex, p: int, ss: State)
    requires IsStepper(input, f) && 0 <= p < |input| && input[p] == '\n'
    ensures Goes(f, At(p, AtTop(TopValueEnd), Empty, 1, ss), 1, [], At(p + 1, AtTop(TopEntry), Empty, 1, ss))
  {
    One(input, f, At(p, AtTop(TopValueEnd), Empty, 1, ss), At(p + 1, AtTop(TopEntry), Empty, 1, ss));
  }

  lemma InputEnds(input: string, f: Lex -> Lex, w: nat, ss: State)
    requires IsStepper(input, f)
    ensures Goes(f, At(|input|, AtTop(TopEntry), Empty, w, ss), 1, [Item(ItemEOF, "")], At(|input|, Stop, Empty, 0, ss))
  {
    assert input[|input|..|input|] == "" && "" + "" == "";
    One(input, f, At(|input|, AtTop(TopEntry), Empty, w, ss), At(|input|, Stop, Empty, 0, ss).(items := [Item(ItemEOF, "")]));
  }

  // Whole values.

  /** The first character of a value, and the new line after it. */
  lemma ValueHeld(input: string, p: int, t: Tree, more: string)
    requires Printable(t) && Holds(input, p, Print(t) + ("\n" + more))
    ensures Holds(input, p, Print(t)) && 0 <= p < |input| && ValueChar(input[p])
    ensures var e := p + |Print(t)|; e < |input| && input[e] == '\n' && Holds(input, e + 1, more)
  {
    PrintFirst(t);
    HoldsSplit(input, p, Print(t), "\n" + more);
    HoldsAt(input, p, Print(t), 0);
    HoldsSplit(input, p + |Print(t)|, "\n", more);
    HoldsAt(input, p + |Print(t)|, "\n", 0);
  }

  lemma BracketsHeld(input: string, p: int, open: string, body: string, close: string)
    requires |open| == 1 && |close| == 1 && Holds(input, p, open + (body + close))
    ensures 0 <= p < |input| && input[p] == open[0] && Holds(input, p + 1, body)
    ensures p + 1 + |body| < |input| && input[p + 1 + |body|] == close[0]
  {
    HoldsSplit(input, p, open, body + close);
    HoldsAt(input, p, open, 0);
    HoldsSplit(input, p + 1, body, close);
    HoldsAt(input, p + 1 + |body|, close, 0);
  }

  /** The beginning, what is between, and the end. */
  lemma Around(f: Lex -> Lex, l: Lex, open: Item, m1: Lex, n: nat, its: seq<Item>, m2: Lex, k: nat, close: Item, m3: Lex)
    requires Goes(f, l, 1, [open], m1) && Goes(f, m1, n, its, m2) && Goes(f, m2, k, [close], m3)
    ensures Goes(f, l, n + k + 1, [open] + (its + [close]), m3)
  {
    Then(f, m1, n, its, m2, k, [close], m3);
    Then(f, l, 1, [open], m1, n + k, its + [close], m3);
  }

  /** A written value is read as the items of its tree. */
  lemma {:induction false} ValueLexes(input: string, f: Lex -> Lex, p: int, w: nat, ss: State, frame: State, rest: Stack<State>, t: Tree)
    returns (n: nat, ss2: State)
    requires IsStepper(input, f) && Printable(t) && Holds(input, p, Print(t)) && Char(input, p + |Print(t)|) == '\n'
    ensures Goes(f, At(p, AtValue(ValueStart), Push(frame, rest), w, ss), n, Flatten(t), At(p + |Print(t)|, frame, rest, 1, ss2))
    decreases t, 0
  {
    match t
    case Leaf(it) => n, ss2 := LeafLexes(input, f, p, w, ss, frame, rest, it);
    case ArrayOf(ts) => n, ss2 := ArrayLexes(input, f, p, w, ss, frame, rest, ts);
    case MapOf(es) => n, ss2 := MapLexes(input, f, p, w, ss, frame, rest, es);
  }

  lemma {:induction false} ArrayLexes(input: string, f: Lex -> Lex, p: int, w: nat, ss: State, frame: State, rest: Stack<State>, ts: Trees)
    returns (n: nat, ss2: State)
    requires IsStepper(input, f) && AllPrintable(ts) && Holds(input, p, Print(ArrayOf(ts)))
    ensures Goes(f, At(p, AtValue(ValueStart), Push(frame, rest), w, ss), n, Flatten(ArrayOf(ts)), At(p + |Print(ArrayOf(ts))|, frame, rest, 1, ss2))
    decreases ts, 1
  {
    var stack := Push(frame, rest);
    var l := At(p, AtValue(ValueStart), stack, w, ss);
    BracketsHeld(input, p, "[", PrintAll(ts), "]");
    ArrayOpens(input, f, p, w, ss, stack);
    var e := p + 1 + |PrintAll(ts)|;
    var k, w1, s1 := ElementsLex(input, f, p + 1, 1, ss, stack, ts);
    ArrayCloses(input, f, e, w1, s1, frame, rest);
    Around(f, l, Item(ItemArrayStart, ""), At(p + 1, InArray(ArrayValue), stack, 1, ss), k, FlattenAll(ts),
           At(e, InArray(ArrayValue), stack, w1, s1), 2, Item(ItemArrayEnd, ""), At(e + 1, frame, rest, 1, s1));
    n, ss2 := k + 3, s1;
  }

  lemma {:induction false} MapLexes(input: string, f: Lex -> Lex, p: int, w: nat, ss: State, frame: State, rest: Stack<State>, es: Entries)
    returns (n: nat, ss2: State)
    requires IsStepper(input, f) && EntriesPrintable(es) && Holds(input, p, Print(MapOf(es)))
    ensures Goes(f, At(p, AtValue(ValueStart), Push(frame, rest), w, ss), n, Flatten(MapOf(es)), At(p + |Print(MapOf(es))|, frame, rest, 1, ss2))
    decreases es, 1
  {
    var stack := Push(frame, rest);
    var l := At(p, AtValue(ValueStart), stack, w, ss);
    BracketsHeld(input, p, "{", PrintEntries(es), "}");
    MapOpens(input, f, p, w, ss, stack);
    var e := p + 1 + |PrintEntries(es)|;
    var k, w1, s1 := EntriesLex(input, f, p + 1, 1, ss, stack, es);
    MapCloses(input, f, e, w1, s1, frame, rest);
    Around(f, l, Item(ItemMapStart, ""), At(p + 1, InMap(MapKeyStart), stack, 1, ss), k, FlattenEntries(es),
           At(e, InMap(MapKeyStart), stack, w1, s1), 3, Item(ItemMapEnd, ""), At(e + 1, frame, rest, 1, s1));
    n, ss2 := k + 4, s1;
  }

  lemma LeafLexes(input: string, f: Lex -> Lex, p: int, w: nat, ss: State, frame: State, rest: Stack<State>, it: Item)
    returns (n: nat, ss2: State)
    requires IsStepper(input, f) && Printable(Leaf(it)) && Holds(input, p, Print(Leaf(it))) && Char(input, p + |Print(Leaf(it))|) == '\n'
    ensures Goes(f, At(p, AtValue(ValueStart), Push(frame, rest), w, ss), n, [it], At(p + |Print(Leaf(it))|, frame, rest, 1, ss2))
  {
    if it.typ.ItemString? {
      StringLexes(input, f, p, w, ss, frame, rest, it.val);
      n, ss2 := |it.val| + 2, ss;
    } else if it.typ.ItemInteger? && SizeText(it.val) {
      SizeLexes(input, f, p, w, ss, frame, rest, it.val);
      n, ss2 := if it.val[0] == '-' then |it.val| + 1 else |it.val| + 2, ss;
    } else if it.typ.ItemInteger? {
      NumberLexes(input, f, p, w, ss, frame, rest, it.val);
      n, ss2 := if it.val[0] == '-' then |it.val| + 1 else |it.val| + 2, ss;
    } else {
      BoolLexes(input, f, p, w, ss, frame, rest, it.val);
      n, ss2 := |it.val| + 2, AtValue(RawString);
    }
  }

  /** An element of an array. */
  lemma {:induction false} ElementLexes(input: string, f: Lex -> Lex, p: int, w: nat, ss: State, stack: Stack<State>, t: Tree, e: int)
    returns (n: nat, ss2: State)
    requires IsStepper(input, f) && Printable(t) && 0 <= p && e == p + |Print(t)| < |input| && input[e] == '\n'
    requires Holds(input, p, Print(t)) && ValueChar(input[p])
    ensures Goes(f, At(p, InArray(ArrayValue), stack, w, ss), n, Flatten(t), At(e + 1, InArray(ArrayValue), stack, 1, ss2))
    decreases t, 1
  {
    var l := At(p, InArray(ArrayValue), stack, w, ss);
    var m, k := At(p, AtValue(ValueStart), Push(InArray(ArrayValueEnd), stack), 1, ss), 0;
    ElementOpens(input, f, p, w, ss, stack);
    k, ss2 := ValueLexes(input, f, p, 1, ss, InArray(ArrayValueEnd), stack, t);
    ElementCloses(input, f, e, ss2, stack);
    ThenOn(f, l, 1, m, k, Flatten(t), At(e, InArray(ArrayValueEnd), stack, 1, ss2));
    ThenOff(f, l, k + 1, Flatten(t), At(e, InArray(ArrayValueEnd), stack, 1, ss2), 2, At(e + 1, InArray(ArrayValue), stack, 1, ss2));
    n := k + 3;
  }

  lemma {:induction false} ElementsLex(input: string, f: Lex -> Lex, p: int, w: nat, ss: State, stack: Stack<State>, ts: Trees)
    returns (n: nat, w2: nat, ss2: State)
    requires IsStepper(input, f) && AllPrintable(ts) && Holds(input, p, PrintAll(ts))
    ensures Goes(f, At(p, InArray(ArrayValue), stack, w, ss), n, FlattenAll(ts), At(p + |PrintAll(ts)|, InArray(ArrayValue), stack, w2, ss2))
    decreases ts, 0
  {
    match ts
    case NoTrees =>
      n, w2, ss2 := 0, w, ss;
    case AddTree(t, more) =>
      var e := p + |Print(t)|;
      ValueHeld(input, p, t, PrintAll(more));
      var k, s1 := ElementLexes(input, f, p, w, ss, stack, t, e);
      var j;
      j, w2, ss2 := ElementsLex(input, f, e + 1, 1, s1, stack, more);
      Then(f, At(p, InArray(ArrayValue), stack, w, ss), k, Flatten(t), At(e + 1, InArray(ArrayValue), stack, 1, s1), j, FlattenAll(more),
           At(e + 1 + |PrintAll(more)|, InArray(ArrayValue), stack, w2, ss2));
      n := k + j;
  }

  /** A key, its value, and the end of the entry. */
  lemma EntryItems(f: Lex -> Lex, l: Lex, a: nat, key: Item, m1: Lex, b: nat, its: seq<Item>, m2: Lex, c: nat, m3: Lex)
    requires Goes(f, l, a, [key], m1) && Goes(f, m1, b, its, m2) && Goes(f, m2, c, [], m3)
    ensures Goes(f, l, a + b + c, [key] + its, m3)
  {
    ThenOff(f, m1, b, its, m2, c, m3);
    Then(f, l, a, [key], m1, b + c, its, m3);
  }

  lemma Onwards(f: Lex -> Lex, l: Lex, a: nat, key: Item, its: seq<Item>, m: Lex, b: nat, more: seq<Item>, k: Lex)
    requires Goes(f, l, a, [key] + its, m) && Goes(f, m, b, more, k)
    ensures Goes(f, l, a + b, [key] + (its + more), k)
  {
    Then(f, l, a, [key] + its, m, b, more, k);
    assert ([key] + its) + more == [key] + (its + more);
  }

  lemma EntryHeld(input: string, p: int, key: string, t: Tree, more: string)
    requires Printable(t) && Holds(input, p, (key + ":") + (Print(t) + ("\n" + more)))
    ensures Holds(input, p, key + ":")
    ensures var q := p + |key| + 1; Holds(input, q, Print(t)) && 0 <= q < |input| && ValueChar(input[q])
    ensures var e := p + |key| + 1 + |Print(t)|; e < |input| && input[e] == '\n' && Holds(input, e + 1, more)
  {
    HoldsSplit(input, p, key + ":", Print(t) + ("\n" + more));
    ValueHeld(input, p + |key| + 1, t, more);
  }

  /** An entry of a map. */
  lemma {:induction false} EntryLexes(input: string, f: Lex -> Lex, p: int, w: nat, ss: State, stack: Stack<State>, key: string, t: Tree, more: string)
    returns (n: nat, ss2: State)
    requires IsStepper(input, f) && IsKey(key) && Printable(t) && Holds(input, p, (key + ":") + (Print(t) + ("\n" + more)))
    ensures Holds(input, p + |key| + 1 + |Print(t)| + 1, more)
    ensures Goes(f, At(p, InMap(MapKeyStart), stack, w, ss), n, [Item(ItemKey, key)] + Flatten(t),
                 At(p + |key| + 1 + |Print(t)| + 1, InMap(MapKeyStart), stack, 1, ss2))
    decreases t, 1
  {
    var q, e := p + |key| + 1, p + |key| + 1 + |Print(t)|;
    EntryHeld(input, p, key, t, more);
    MapKeyLexes(input, f, p, w, ss, stack, key);
    var k;
    k, ss2 := ValueLexes(input, f, q, 1, ss, InMap(MapValueEnd), stack, t);
    n := EntryDone(input, f, At(p, InMap(MapKeyStart), stack, w, ss), |key| + 4, Item(ItemKey, key),
                   At(q, AtValue(ValueStart), Push(InMap(MapValueEnd), stack), 1, ss), k, Flatten(t), e, stack, ss2);
  }

  /** The end of an entry, behind its key and its value. */
  lemma EntryDone(input: string, f: Lex -> Lex, l: Lex, a: nat, key: Item, m: Lex, b: nat, its: seq<Item>, e: int, stack: Stack<State>, ss: State)
    returns (n: nat)
    requires IsStepper(input, f) && 0 <= e < |input| && input[e] == '\n'
    requires Goes(f, l, a, [key], m) && Goes(f, m, b, its, At(e, InMap(MapValueEnd), stack, 1, ss))
    ensures Goes(f, l, n, [key] + its, At(e + 1, InMap(MapKeyStart), stack, 1, ss))
  {
    EntryCloses(input, f, e, ss, stack);
    EntryItems(f, l, a, key, m, b, its, At(e, InMap(MapValueEnd), stack, 1, ss), 2, At(e + 1, InMap(MapKeyStart), stack, 1, ss));
    n := a + b + 2;
  }

  lemma {:induction false} EntriesLex(input: string, f: Lex -> Lex, p: int, w: nat, ss: State, stack: Stack<State>, es: Entries)
    returns (n: nat, w2: nat, ss2: State)
    requires IsStepper(input, f) && EntriesPrintable(es) && Holds(input, p, PrintEntries(es))
    ensures Goes(f, At(p, InMap(MapKeyStart), stack, w, ss), n, FlattenEntries(es), At(p + |PrintEntries(es)|, InMap(MapKeyStart), stack, w2, ss2))
    decreases es, 0
  {
    match es
    case NoEntries =>
      n, w2, ss2 := 0, w, ss;
    case AddEntry(key, t, more) =>
      var e := p + |key| + 1 + |Print(t)|;
      var k, s1 := EntryLexes(input, f, p, w, ss, stack, key, t, PrintEntries(more));
      var j;
      j, w2, ss2 := EntriesLex(input, f, e + 1, 1, s1, stack, more);
      Onwards(f, At(p, InMap(MapKeyStart), stack, w, ss), k, Item(ItemKey, key), Flatten(t), At(e + 1, InMap(MapKeyStart), stack, 1, s1), j,
              FlattenEntries(more), At(e + 1 + |PrintEntries(more)|, InMap(MapKeyStart), stack, w2, ss2));
      n := k + j;
  }

  /** An entry at the top level. */
  lemma TopEntryLexes(input: string, f: Lex -> Lex, p: int, w: nat, ss: State, key: string, t: Tree, more: string)
    returns (n: nat, ss2: State)
    requires IsStepper(input, f) && IsKey(key) && Printable(t) && Holds(input, p, (key + ":") + (Print(t) + ("\n" + more)))
    ensures Holds(input, p + |key| + 1 + |Print(t)| + 1, more)
    ensures Goes(f, At(p, AtTop(TopEntry), Empty, w, ss), n, [Item(ItemKey, key)] + Flatten(t),
                 At(p + |key| + 1 + |Print(t)| + 1, AtTop(TopEntry), Empty, 1, ss2))
  {
    var q, e := p + |key| + 1, p + |key| + 1 + |Print(t)|;
    EntryHeld(input, p, key, t, more);
    KeyLexes(input, f, p, w, ss, key);
    var k;
    k, ss2 := ValueLexes(input, f, q, 1, ss, AtTop(TopValueEnd), Empty, t);
    n := TopEntryDone(input, f, At(p, AtTop(TopEntry), Empty, w, ss), |key| + 4, Item(ItemKey, key),
                      At(q, AtValue(ValueStart), Push(AtTop(TopValueEnd), Empty), 1, ss), k, Flatten(t), e, ss2);
  }

  lemma TopEntryDone(input: string, f: Lex -> Lex, l: Lex, a: nat, key: Item, m: Lex, b: nat, its: seq<Item>, e: int, ss: State)
    returns (n: nat)
    requires IsStepper(input, f) && 0 <= e < |input| && input[e] == '\n'
    requires Goes(f, l, a, [key], m) && Goes(f, m, b, its, At(e, AtTop(TopValueEnd), Empty, 1, ss))
    ensures Goes(f, l, n, [key] + its, At(e + 1, AtTop(TopEntry), Empty, 1, ss))
  {
    TopEntryCloses(input, f, e, ss);
    EntryItems(f, l, a, key, m, b, its, At(e, AtTop(TopValueEnd), Empty, 1, ss), 1, At(e + 1, AtTop(TopEntry), Empty, 1, ss));
    n := a + b + 1;
  }

  lemma {:induction false} TopEntriesLex(input: string, f: Lex -> Lex, p: int, w: nat, ss: State, es: Entries)
    returns (n: nat, w2: nat, ss2: State)
    requires IsStepper(input, f) && EntriesPrintable(es) && Holds(input, p, PrintEntries(es))
    ensures Goes(f, At(p, AtTop(TopEntry), Empty, w, ss), n, FlattenEntries(es), At(p + |PrintEntries(es)|, AtTop(TopEntry), Empty, w2, ss2))
    decreases es
  {
    match es
    case NoEntries =>
      n, w2, ss2 := 0, w, ss;
    case AddEntry(key, t, more) =>
      var e := p + |key| + 1 + |Print(t)|;
      var k, s1 := TopEntryLexes(input, f, p, w, ss, key, t, PrintEntries(more));
      var j;
      j, w2, ss2 := TopEntriesLex(input, f, e + 1, 1, s1, more);
      Onwards(f, At(p, AtTop(TopEntry), Empty, w, ss), k, Item(ItemKey, key), Flatten(t), At(e + 1, AtTop(TopEntry), Empty, 1, s1), j,
              FlattenEntries(more), At(e + 1 + |PrintEntries(more)|, AtTop(TopEntry), Empty, w2, ss2));
      n := k + j;
  }

  /** Lexing a written configuration sends exactly the items of its tree, and then the end. */
  lemma ConfigurationLexes(input: string, f: Lex -> Lex, es: Entries) returns (n: nat)
    requires EntriesPrintable(es) && input == PrintEntries(es) && IsStepper(input, f)
    ensures Lexed(f, n).lex.state.Stop? && Lexed(f, n).sent == FlattenEntries(es) + [Item(ItemEOF, "")]
  {
    assert input[0..|input|] == input;
    var k, w, ss := TopEntriesLex(input, f, 0, 0, Stop, es);
    InputEnds(input, f, w, ss);
    Then(f, BEGIN, k, FlattenEntries(es), At(|input|, AtTop(TopEntry), Empty, w, ss), 1, [Item(ItemEOF, "")], At(|input|, Stop, Empty, 0, ss));
    n := k + 1;
  }
}
