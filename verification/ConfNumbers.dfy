/** When a value that begins with digits is read as an integer: what comes after the digits decides. */
module ConfNumbers {
  import opened ConfItems
  import opened ConfLex
  import opened ConfReads
  import Strings

  /** The first item sent from `l` on is of a type. */
  ghost predicate SendsFirst(f: Lex -> Lex, l: Lex, typ: ItemType) {
    exists n: nat :: FirstIs(Run(f, Trace(l, []), n).sent, typ)
  }

  predicate FirstIs(its: seq<Item>, typ: ItemType) { its != [] && its[0].typ == typ }

  lemma GoesFirst(f: Lex -> Lex, l: Lex, n: nat, it: Item, m: Lex)
    requires Goes(f, l, n, [it], m)
    ensures SendsFirst(f, l, it.typ)
  {
    assert FirstIs(Run(f, Trace(l, []), n).sent, it.typ);
  }

  lemma ThenFirst(f: Lex -> Lex, l: Lex, n: nat, m: Lex, it: Item, after: Lex)
    requires Goes(f, l, n, [], m) && Goes(f, m, 1, [it], after)
    ensures SendsFirst(f, l, it.typ)
  {
    ThenOn(f, l, n, m, 1, [it], after);
    GoesFirst(f, l, n + 1, it, after);
  }

  // Bare strings.

  /** A bare string is being read, or an escape in it. */
  predicate InRaw(l: Lex) {
    && l.items == [] && !l.skip && l.stringState == AtValue(RawString)
    && (l.state == AtValue(RawString) || l.state == AtValue(StringEscape) || l.state == AtValue(StringBinary))
  }

  /** A step in a bare string leads on in it, or sends something that is no integer. */
  predicate StaysRaw(m: Lex) { if m.items == [] then InRaw(m) else m.items[0].typ != ItemInteger }

  lemma StringStays(input: string, l: Lex)
    requires InRaw(l) && l.state == AtValue(RawString)
    ensures StaysRaw(LexString(input, l))
  {
  }

  lemma OutcomesStay(n: Lex)
    requires n.items == [] && !n.skip && n.stringState == AtValue(RawString)
    ensures forall part :: StaysRaw(Unescape(n, part))
    ensures forall message :: StaysRaw(Fail(n, message))
  {
  }

  lemma EscapeStays(input: string, l: Lex)
    requires InRaw(l)
    ensures StaysRaw(LexStringEscape(input, l))
  {
    var n := Next(input, l);
    OutcomesStay(n);
    var r := LexStringEscape(input, l);
    assert r == Goto(n, AtValue(StringBinary)) || r == Fail(n, "Invalid escape character") ||
           (exists part :: r == Unescape(n, part));
  }

  lemma BinaryStays(input: string, l: Lex)
    requires InRaw(l)
    ensures StaysRaw(LexStringBinary(input, l))
  {
    var n := Next(input, l);
    if IsNL(Char(input, l.pos)) {
      OutcomesStay(n);
    } else {
      OutcomesStay(Next(input, n));
    }
  }

  lemma RawStep(input: string, l: Lex)
    requires InRaw(l)
    ensures StaysRaw(Step(input, l))
  {
    if l.state == AtValue(RawString) {
      StringStays(input, l);
    } else if l.state == AtValue(StringEscape) {
      EscapeStays(input, l);
    } else {
      BinaryStays(input, l);
    }
  }

  ghost predicate KeepsRaw(f: Lex -> Lex) { forall l :: InRaw(l) ==> StaysRaw(f(l)) }

  lemma StepperKeepsRaw(input: string, f: Lex -> Lex)
    requires IsStepper(input, f)
    ensures KeepsRaw(f)
  {
    forall l | InRaw(l)
      ensures StaysRaw(f(l))
    {
      RawStep(input, l);
    }
  }

  lemma {:induction false} RawRun(f: Lex -> Lex, l: Lex, n: nat)
    requires KeepsRaw(f) && InRaw(l)
    ensures var r := Run(f, Trace(l, []), n); if r.sent == [] then InRaw(r.lex) else r.sent[0].typ != ItemInteger
    decreases n
  {
    if n > 0 {
      RawRun(f, l, n - 1);
      var r := Run(f, Trace(l, []), n - 1);
      if r.sent == [] {
        assert [] + f(r.lex).items == f(r.lex).items;
      }
    }
  }

  lemma NoneBefore(f: Lex -> Lex, l: Lex, k: nat, m: Lex, n: nat)
    requires Goes(f, l, k, [], m) && n <= k
    ensures Run(f, Trace(l, []), n).sent == []
  {
    RunOn(f, Trace(l, []), n, k - n);
  }

  lemma NoneSoFar(input: string, f: Lex -> Lex, l: Lex, k: nat, m: Lex, n: nat)
    requires IsStepper(input, f) && Goes(f, l, k, [], m) && InRaw(m)
    ensures !FirstIs(Run(f, Trace(l, []), n).sent, ItemInteger)
  {
    if n <= k {
      NoneBefore(f, l, k, m, n);
    } else {
      var j := n - k;
      RunAdd(f, Trace(l, []), k, j);
      assert Run(f, Trace(l, []), n) == Run(f, Trace(m, []), j);
      StepperKeepsRaw(input, f);
      RawRun(f, m, j);
    }
  }

  /** Once a bare string is begun no integer comes of it. */
  lemma NoInteger(input: string, f: Lex -> Lex, l: Lex, k: nat, m: Lex)
    requires IsStepper(input, f) && Goes(f, l, k, [], m) && InRaw(m)
    ensures !SendsFirst(f, l, ItemInteger)
  {
    forall n: nat
      ensures !FirstIs(Run(f, Trace(l, []), n).sent, ItemInteger)
    {
      NoneSoFar(input, f, l, k, m, n);
    }
  }

  predicate EndsRaw(c: char) { IsNL(c) || c == EOF || c == ';' || c == ',' || c == ']' || c == '}' || IsWhitespace(c) }

  /** Goes on a bare string without an escape. */
  predicate GoesOn(c: char) { !EndsRaw(c) && c != '\\' && c != '\'' }

  lemma {:induction false} RawReads(input: string, f: Lex -> Lex, s: int, p: int, e: int, stack: Stack<State>, ss: State)
    requires IsStepper(input, f) && 0 <= s <= p <= e <= |input| && forall i :: p <= i < e ==> GoesOn(input[i])
    ensures Goes(f, Reading(s, p, AtValue(RawString), stack, ss), e - p, [], Reading(s, e, AtValue(RawString), stack, ss))
    decreases e - p
  {
    if p < e {
      var l, m := Reading(s, p, AtValue(RawString), stack, ss), Reading(s, p + 1, AtValue(RawString), stack, ss);
      One(input, f, l, m);
      RawReads(input, f, s, p + 1, e, stack, ss);
      ThenOn(f, l, 1, m, e - p - 1, [], Reading(s, e, AtValue(RawString), stack, ss));
    }
  }

  lemma RawEnds(input: string, f: Lex -> Lex, s: int, e: int, ss: State, frame: State, rest: Stack<State>)
    requires IsStepper(input, f) && 0 <= s < e <= |input| && EndsRaw(Char(input, e)) && Strings.IsDigit(input[s])
    ensures Goes(f, Reading(s, e, AtValue(RawString), Push(frame, rest), ss), 1, [Item(ItemString, input[s..e])],
                 At(e, frame, rest, Width(input, e), ss))
  {
    var l := Reading(s, e, AtValue(RawString), Push(frame, rest), ss);
    assert "" + input[s..e] == input[s..e];
    StringEnds(input, l);
    PlainStringEnds(input, Backup(Next(input, l)));
    One(input, f, l,
        At(e, frame, rest, Width(input, e), ss).(items := [Item(ItemString, input[s..e])]));
  }

  lemma StringEnds(input: string, l: Lex)
    requires EndsRaw(Char(input, l.pos))
    ensures LexString(input, l) == EndRawString(input, Backup(Next(input, l)))
  {
    assert Char(input, l.pos) != '\\';
  }

  /** A bare string that begins with a digit is no boolean and no variable. */
  lemma PlainStringEnds(input: string, l: Lex)
    requires 0 <= l.start < l.pos <= |input| && Strings.IsDigit(input[l.start])
    ensures EndRawString(input, l) == Pop(EmitString(input, l))
  {
    NoBool(input[l.start..l.pos]);
  }

  lemma NoBool(s: string)
    requires s != "" && Strings.IsDigit(s[0])
    ensures !IsBool(s)
  {
    assert Strings.Lower(s)[0] == s[0];
  }

  // Digits, and what comes after them.

  /** The number of digits a text begins with. */
  function Leading(s: string): (n: nat)
    ensures n <= |s| && forall i :: 0 <= i < n ==> Strings.IsDigit(s[i])
  {
    if s == "" || !Strings.IsDigit(s[0]) then 0 else Leading(s[1..]) + 1
  }

  predicate DigitsAt(input: string, p: int, e: int) {
    0 <= p < e <= |input| && forall i :: p <= i < e ==> Strings.IsDigit(input[i])
  }

  /** Has no meaning of its own after digits: it is no digit, point, hyphen or size. */
  predicate Plain(c: char) { !Strings.IsDigit(c) && c != '-' && c != '.' && !IsNumberSuffix(c) }

  lemma DigitsRead(input: string, f: Lex -> Lex, p: int, e: int, w: nat, ss: State, stack: Stack<State>)
    requires IsStepper(input, f) && DigitsAt(input, p, e)
    ensures Goes(f, At(p, AtValue(ValueStart), stack, w, ss), e - p + 1, [], Reading(p, e, AtValue(Number), stack, ss))
  {
    NumberOpens(input, f, p, w, ss, stack);
    ReadMore(input, f, p, p + 1, e, Number, stack, ss);
    ThenOn(f, At(p, AtValue(ValueStart), stack, w, ss), 2, Reading(p, p + 1, AtValue(Number), stack, ss), e - p - 1, [],
           Reading(p, e, AtValue(Number), stack, ss));
  }

  lemma EndStep(input: string, l: Lex, v: ValueState)
    requires l.state == AtValue(v) && !l.skip
    requires var c := Char(input, l.pos);
             || (v == Number && Plain(c) && EndsNumber(c))
             || (v == NegNumber && !Strings.IsDigit(c) && c != '.' && !IsNumberSuffix(c))
             || (v == ConvenientNumber && EndsNumber(c))
    ensures Step(input, l) == Pop(Emit(input, Backup(Next(input, l)), ItemInteger))
  {
  }

  lemma NumberEnds(input: string, f: Lex -> Lex, s: int, e: int, v: ValueState, ss: State, frame: State, rest: Stack<State>)
    requires IsStepper(input, f) && 0 <= s <= e <= |input|
    requires var c := Char(input, e);
             || (v == Number && Plain(c) && EndsNumber(c))
             || (v == NegNumber && !Strings.IsDigit(c) && c != '.' && !IsNumberSuffix(c))
             || (v == ConvenientNumber && EndsNumber(c))
    ensures Goes(f, Reading(s, e, AtValue(v), Push(frame, rest), ss), 1, [Item(ItemInteger, input[s..e])],
                 At(e, frame, rest, Width(input, e), ss))
  {
    assert "" + input[s..e] == input[s..e];
    EndStep(input, Reading(s, e, AtValue(v), Push(frame, rest), ss), v);
    One(input, f, Reading(s, e, AtValue(v), Push(frame, rest), ss),
        At(e, frame, rest, Width(input, e), ss).(items := [Item(ItemInteger, input[s..e])]));
  }

  /** Anything else makes it a bare string, and is taken into it. */
  lemma NumberTurns(input: string, f: Lex -> Lex, s: int, e: int, ss: State, stack: Stack<State>)
    requires IsStepper(input, f) && 0 <= s <= e <= |input| && Plain(Char(input, e)) && !EndsNumber(Char(input, e))
    ensures Goes(f, Reading(s, e, AtValue(Number), stack, ss), 1, [], Reading(s, e + 1, AtValue(RawString), stack, AtValue(RawString)))
  {
    One(input, f, Reading(s, e, AtValue(Number), stack, ss), Reading(s, e + 1, AtValue(RawString), stack, AtValue(RawString)));
  }

  /** Digits are sent as an integer, if a character that ends a number comes after them. */
  lemma DigitsLex(input: string, f: Lex -> Lex, p: int, e: int, w: nat, ss: State, frame: State, rest: Stack<State>)
    requires IsStepper(input, f) && DigitsAt(input, p, e) && Plain(Char(input, e)) && EndsNumber(Char(input, e))
    ensures Goes(f, At(p, AtValue(ValueStart), Push(frame, rest), w, ss), e - p + 2, [Item(ItemInteger, input[p..e])],
                 At(e, frame, rest, Width(input, e), ss))
  {
    var stack := Push(frame, rest);
    DigitsRead(input, f, p, e, w, ss, stack);
    NumberEnds(input, f, p, e, Number, ss, frame, rest);
    ThenOn(f, At(p, AtValue(ValueStart), stack, w, ss), e - p + 1, Reading(p, e, AtValue(Number), stack, ss), 1,
           [Item(ItemInteger, input[p..e])], At(e, frame, rest, Width(input, e), ss));
  }

  lemma DigitsTurn(input: string, f: Lex -> Lex, p: int, e: int, w: nat, ss: State, stack: Stack<State>)
    requires IsStepper(input, f) && DigitsAt(input, p, e) && Plain(Char(input, e)) && !EndsNumber(Char(input, e))
    ensures Goes(f, At(p, AtValue(ValueStart), stack, w, ss), e - p + 2, [], Reading(p, e + 1, AtValue(RawString), stack, AtValue(RawString)))
  {
    DigitsRead(input, f, p, e, w, ss, stack);
    NumberTurns(input, f, p, e, ss, stack);
    ThenOn(f, At(p, AtValue(ValueStart), stack, w, ss), e - p + 1, Reading(p, e, AtValue(Number), stack, ss), 1, [],
           Reading(p, e + 1, AtValue(RawString), stack, AtValue(RawString)));
  }

  /** Digits followed by a character that is no digit, point, hyphen or size are sent as an integer if and only if that
      character ends a number, whatever comes later; a closing bracket does not.
   */
  lemma NumberExactly(input: string, f: Lex -> Lex, p: int, e: int, w: nat, ss: State, frame: State, rest: Stack<State>)
    requires IsStepper(input, f) && DigitsAt(input, p, e) && Plain(Char(input, e))
    ensures SendsFirst(f, At(p, AtValue(ValueStart), Push(frame, rest), w, ss), ItemInteger) <==> EndsNumber(Char(input, e))
  {
    var l := At(p, AtValue(ValueStart), Push(frame, rest), w, ss);
    if EndsNumber(Char(input, e)) {
      DigitsLex(input, f, p, e, w, ss, frame, rest);
      GoesFirst(f, l, e - p + 2, Item(ItemInteger, input[p..e]), At(e, frame, rest, Width(input, e), ss));
    } else {
      DigitsTurn(input, f, p, e, w, ss, Push(frame, rest));
      NoInteger(input, f, l, e - p + 2, Reading(p, e + 1, AtValue(RawString), Push(frame, rest), AtValue(RawString)));
    }
  }

  /** Otherwise the string that is sent holds the digits, that character, and all up to what ends a bare string. */
  lemma StringTakes(input: string, f: Lex -> Lex, p: int, e: int, x: int, w: nat, ss: State, frame: State, rest: Stack<State>)
    requires IsStepper(input, f) && DigitsAt(input, p, e) && Plain(Char(input, e)) && !EndsNumber(Char(input, e))
    requires e < x <= |input| && (forall i :: e < i < x ==> GoesOn(input[i])) && EndsRaw(Char(input, x))
    ensures Goes(f, At(p, AtValue(ValueStart), Push(frame, rest), w, ss), x - p + 2, [Item(ItemString, input[p..x])],
                 At(x, frame, rest, Width(input, x), AtValue(RawString)))
  {
    var l, stack, raw := At(p, AtValue(ValueStart), Push(frame, rest), w, ss), Push(frame, rest), AtValue(RawString);
    DigitsTurn(input, f, p, e, w, ss, stack);
    RawReads(input, f, p, e + 1, x, stack, raw);
    ThenOn(f, l, e - p + 2, Reading(p, e + 1, raw, stack, raw), x - e - 1, [], Reading(p, x, raw, stack, raw));
    RawEnds(input, f, p, x, raw, frame, rest);
    ThenOn(f, l, x - p + 1, Reading(p, x, raw, stack, raw), 1, [Item(ItemString, input[p..x])], At(x, frame, rest, Width(input, x), raw));
  }

  /** So the bracket after the last element of an array is taken into a string, and the array stays open. */
  lemma BracketSwallowed(input: string, f: Lex -> Lex, p: int, e: int, w: nat, ss: State, rest: Stack<State>)
    requires IsStepper(input, f) && DigitsAt(input, p, e) && e < |input| && input[e] == ']' && EndsRaw(Char(input, e + 1))
    ensures Goes(f, At(p, AtValue(ValueStart), Push(InArray(ArrayValueEnd), rest), w, ss), e - p + 3,
                 [Item(ItemString, input[p..e] + "]")], At(e + 1, InArray(ArrayValueEnd), rest, Width(input, e + 1), AtValue(RawString)))
  {
    StringTakes(input, f, p, e, e + 1, w, ss, InArray(ArrayValueEnd), rest);
    assert input[p..e + 1] == input[p..e] + "]";
  }

  // Sizes: digits, a letter, and then letters `b` and `i`.

  predicate SizeLetter(c: char) { c == 'b' || c == 'B' || c == 'i' || c == 'I' }

  lemma {:induction false} LettersRead(input: string, f: Lex -> Lex, s: int, p: int, e: int, stack: Stack<State>, ss: State)
    requires IsStepper(input, f) && 0 <= s <= p <= e <= |input| && forall i :: p <= i < e ==> SizeLetter(input[i])
    ensures Goes(f, Reading(s, p, AtValue(ConvenientNumber), stack, ss), e - p, [], Reading(s, e, AtValue(ConvenientNumber), stack, ss))
    decreases e - p
  {
    if p < e {
      var l, m := Reading(s, p, AtValue(ConvenientNumber), stack, ss), Reading(s, p + 1, AtValue(ConvenientNumber), stack, ss);
      One(input, f, l, m);
      LettersRead(input, f, s, p + 1, e, stack, ss);
      ThenOn(f, l, 1, m, e - p - 1, [], Reading(s, e, AtValue(ConvenientNumber), stack, ss));
    }
  }

  lemma SizeRead(input: string, f: Lex -> Lex, p: int, e: int, g: int, w: nat, ss: State, stack: Stack<State>)
    requires IsStepper(input, f) && DigitsAt(input, p, e) && e < g <= |input| && IsNumberSuffix(input[e])
    requires forall i :: e < i < g ==> SizeLetter(input[i])
    ensures Goes(f, At(p, AtValue(ValueStart), stack, w, ss), g - p + 1, [], Reading(p, g, AtValue(ConvenientNumber), stack, ss))
  {
    var l, m := At(p, AtValue(ValueStart), stack, w, ss), Reading(p, e, AtValue(Number), stack, ss);
    var k := Reading(p, e + 1, AtValue(ConvenientNumber), stack, ss);
    DigitsRead(input, f, p, e, w, ss, stack);
    One(input, f, m, k);
    ThenOn(f, l, e - p + 1, m, 1, [], k);
    LettersRead(input, f, p, e + 1, g, stack, ss);
    ThenOn(f, l, e - p + 2, k, g - e - 1, [], Reading(p, g, AtValue(ConvenientNumber), stack, ss));
  }

  lemma SizeTurns(input: string, f: Lex -> Lex, s: int, g: int, ss: State, stack: Stack<State>)
    requires IsStepper(input, f) && 0 <= s <= g <= |input| && !SizeLetter(Char(input, g)) && !EndsNumber(Char(input, g))
    ensures Goes(f, Reading(s, g, AtValue(ConvenientNumber), stack, ss), 1, [], Reading(s, g, AtValue(RawString), stack, AtValue(RawString)))
  {
    One(input, f, Reading(s, g, AtValue(ConvenientNumber), stack, ss), Reading(s, g, AtValue(RawString), stack, AtValue(RawString)));
  }

  lemma SizeEnds(input: string, f: Lex -> Lex, l: Lex, p: int, g: int, ss: State, frame: State, rest: Stack<State>)
    requires IsStepper(input, f) && 0 <= p <= g <= |input| && EndsNumber(Char(input, g)) && !SizeLetter(Char(input, g))
    requires Goes(f, l, g - p + 1, [], Reading(p, g, AtValue(ConvenientNumber), Push(frame, rest), ss))
    ensures SendsFirst(f, l, ItemInteger)
  {
    NumberEnds(input, f, p, g, ConvenientNumber, ss, frame, rest);
    ThenFirst(f, l, g - p + 1, Reading(p, g, AtValue(ConvenientNumber), Push(frame, rest), ss), Item(ItemInteger, input[p..g]),
              At(g, frame, rest, Width(input, g), ss));
  }

  lemma SizeGoesOn(input: string, f: Lex -> Lex, l: Lex, p: int, g: int, ss: State, stack: Stack<State>)
    requires IsStepper(input, f) && 0 <= p <= g <= |input| && !EndsNumber(Char(input, g)) && !SizeLetter(Char(input, g))
    requires Goes(f, l, g - p + 1, [], Reading(p, g, AtValue(ConvenientNumber), stack, ss))
    ensures !SendsFirst(f, l, ItemInteger)
  {
    var k := Reading(p, g, AtValue(RawString), stack, AtValue(RawString));
    SizeTurns(input, f, p, g, ss, stack);
    ThenOn(f, l, g - p + 1, Reading(p, g, AtValue(ConvenientNumber), stack, ss), 1, [], k);
    NoInteger(input, f, l, g - p + 2, k);
  }

  /** A size is sent as an integer if and only if a character that ends a number comes after it. */
  lemma SizeExactly(input: string, f: Lex -> Lex, p: int, e: int, g: int, w: nat, ss: State, frame: State, rest: Stack<State>)
    requires IsStepper(input, f) && DigitsAt(input, p, e) && e < g <= |input| && IsNumberSuffix(input[e])
    requires (forall i :: e < i < g ==> SizeLetter(input[i])) && !SizeLetter(Char(input, g))
    ensures SendsFirst(f, At(p, AtValue(ValueStart), Push(frame, rest), w, ss), ItemInteger) <==> EndsNumber(Char(input, g))
  {
    var l := At(p, AtValue(ValueStart), Push(frame, rest), w, ss);
    SizeRead(input, f, p, e, g, w, ss, Push(frame, rest));
    if EndsNumber(Char(input, g)) {
      SizeEnds(input, f, l, p, g, ss, frame, rest);
    } else {
      SizeGoesOn(input, f, l, p, g, ss, Push(frame, rest));
    }
  }

  // Numbers below zero.

  lemma NegativeRead(input: string, f: Lex -> Lex, p: int, e: int, w: nat, ss: State, stack: Stack<State>)
    requires IsStepper(input, f) && 0 <= p < |input| && input[p] == '-' && DigitsAt(input, p + 1, e)
    ensures Goes(f, At(p, AtValue(ValueStart), stack, w, ss), e - p, [], Reading(p, e, AtValue(NegNumber), stack, ss))
  {
    NegNumberOpens(input, f, p, w, ss, stack);
    ReadMore(input, f, p, p + 2, e, NegNumber, stack, ss);
    ThenOn(f, At(p, AtValue(ValueStart), stack, w, ss), 2, Reading(p, p + 2, AtValue(NegNumber), stack, ss), e - p - 2, [],
           Reading(p, e, AtValue(NegNumber), stack, ss));
  }

  lemma NegativeSizeRead(input: string, f: Lex -> Lex, p: int, e: int, g: int, w: nat, ss: State, stack: Stack<State>)
    requires IsStepper(input, f) && 0 <= p < |input| && input[p] == '-' && DigitsAt(input, p + 1, e)
    requires e < g <= |input| && IsNumberSuffix(input[e]) && forall i :: e < i < g ==> SizeLetter(input[i])
    ensures Goes(f, At(p, AtValue(ValueStart), stack, w, ss), g - p, [], Reading(p, g, AtValue(ConvenientNumber), stack, ss))
  {
    var l, m := At(p, AtValue(ValueStart), stack, w, ss), Reading(p, e, AtValue(NegNumber), stack, ss);
    var k := Reading(p, e + 1, AtValue(ConvenientNumber), stack, ss);
    NegativeRead(input, f, p, e, w, ss, stack);
    One(input, f, m, k);
    ThenOn(f, l, e - p, m, 1, [], k);
    LettersRead(input, f, p, e + 1, g, stack, ss);
    ThenOn(f, l, e - p + 1, k, g - e - 1, [], Reading(p, g, AtValue(ConvenientNumber), stack, ss));
  }

  /** After a hyphen, digits are sent as an integer whatever comes after them, but for more digits, a point and a size. */
  lemma NegativeLexes(input: string, f: Lex -> Lex, p: int, e: int, w: nat, ss: State, frame: State, rest: Stack<State>)
    requires IsStepper(input, f) && 0 <= p < |input| && input[p] == '-' && DigitsAt(input, p + 1, e)
    requires var c := Char(input, e); !Strings.IsDigit(c) && c != '.' && !IsNumberSuffix(c)
    ensures Goes(f, At(p, AtValue(ValueStart), Push(frame, rest), w, ss), e - p + 1, [Item(ItemInteger, input[p..e])],
                 At(e, frame, rest, Width(input, e), ss))
  {
    var l, stack := At(p, AtValue(ValueStart), Push(frame, rest), w, ss), Push(frame, rest);
    NegativeRead(input, f, p, e, w, ss, stack);
    NumberEnds(input, f, p, e, NegNumber, ss, frame, rest);
    ThenOn(f, l, e - p, Reading(p, e, AtValue(NegNumber), stack, ss), 1, [Item(ItemInteger, input[p..e])], At(e, frame, rest, Width(input, e), ss));
  }
}
