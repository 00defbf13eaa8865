/** Runs of the lexer over a stretch of its input: what a number of steps leads to and sends. */
module ConfReads {
  import opened ConfItems
  import opened ConfLex
  import Strings

  /** The text stands at a place of the input. */
  predicate Holds(input: string, p: int, text: string) {
    0 <= p && p + |text| <= |input| && input[p..p + |text|] == text
  }

  lemma HoldsSplit(input: string, p: int, a: string, b: string)
    requires Holds(input, p, a + b)
    ensures Holds(input, p, a) && Holds(input, p + |a|, b)
  {
    var s := input[p..p + |a + b|];
    assert s[..|a|] == a && s[|a|..] == b;
    assert input[p..p + |a|] == s[..|a|] && input[p + |a|..p + |a| + |b|] == s[|a|..];
  }

  lemma HoldsAt(input: string, p: int, text: string, i: nat)
    requires Holds(input, p, text) && i < |text|
    ensures Char(input, p + i) == text[i] && p + i < |input|
  {
    assert input[p..p + |text|][i] == input[p + i];
  }

  /** `n` steps lead from `l` to `m` and send these items. */
  predicate Goes(f: Lex -> Lex, l: Lex, n: nat, its: seq<Item>, m: Lex) { Run(f, Trace(l, []), n) == Trace(m, its) }

  lemma Then(f: Lex -> Lex, l: Lex, n1: nat, its1: seq<Item>, m1: Lex, n2: nat, its2: seq<Item>, m2: Lex)
    requires Goes(f, l, n1, its1, m1) && Goes(f, m1, n2, its2, m2)
    ensures Goes(f, l, n1 + n2, its1 + its2, m2)
  {
    RunAdd(f, Trace(l, []), n1, n2);
    RunFrame(f, m1, its1, n2);
  }

  /** A part that sends nothing comes first. */
  lemma ThenOn(f: Lex -> Lex, l: Lex, n1: nat, m1: Lex, n2: nat, its: seq<Item>, m2: Lex)
    requires Goes(f, l, n1, [], m1) && Goes(f, m1, n2, its, m2)
    ensures Goes(f, l, n1 + n2, its, m2)
  {
    Then(f, l, n1, [], m1, n2, its, m2);
    assert [] + its == its;
  }

  /** A part that sends nothing comes last. */
  lemma ThenOff(f: Lex -> Lex, l: Lex, n1: nat, its: seq<Item>, m1: Lex, n2: nat, m2: Lex)
    requires Goes(f, l, n1, its, m1) && Goes(f, m1, n2, [], m2)
    ensures Goes(f, l, n1 + n2, its, m2)
  {
    Then(f, l, n1, its, m1, n2, [], m2);
    assert its + [] == its;
  }

  lemma One(input: string, f: Lex -> Lex, l: Lex, m: Lex)
    requires IsStepper(input, f) && !l.state.Stop? && m == Step(input, l)
    ensures Goes(f, l, 1, m.items, m.(items := []))
  {
    assert Run(f, Trace(l, []), 0) == Trace(l, []);
    assert [] + m.items == m.items;
  }

  /** At place `p` with nothing begun. */
  function At(p: int, st: State, stack: Stack<State>, w: nat, ss: State): Lex { Lex(p, p, w, st, false, stack, [], [], ss) }

  /** Between `s` and `p` something has been read. */
  function Reading(s: int, p: int, st: State, stack: Stack<State>, ss: State): Lex {
    Lex(s, p, 1, st, false, stack, [], [], ss)
  }

  /** About to drop what was read. */
  function Dropping(s: int, p: int, st: State, stack: Stack<State>, ss: State): Lex {
    Reading(s, p, st, stack, ss).(skip := true)
  }

  lemma DropOne(input: string, f: Lex -> Lex, s: int, p: int, st: State, stack: Stack<State>, ss: State)
    requires IsStepper(input, f) && !st.Stop?
    ensures Goes(f, Dropping(s, p, st, stack, ss), 1, [], At(p, st, stack, 1, ss))
  {
    One(input, f, Dropping(s, p, st, stack, ss), At(p, st, stack, 1, ss));
  }

  // Values.

  predicate Letter(c: char) { 'a' <= c <= 'z' || 'A' <= c <= 'Z' }

  /** A character read in a state that goes on. */
  predicate Continues(v: ValueState, c: char) {
    match v
    case QuotedString => c != '\'' && c != EOF
    case Number => Strings.IsDigit(c)
    case NegNumber => Strings.IsDigit(c)
    case RawString => Letter(c)
    case _ => false
  }

  lemma {:induction false} ReadMore(input: string, f: Lex -> Lex, s: int, p: int, e: int, v: ValueState, stack: Stack<State>, ss: State)
    requires IsStepper(input, f) && 0 <= s <= p <= e <= |input|
    requires forall i :: p <= i < e ==> Continues(v, input[i])
    ensures Goes(f, Reading(s, p, AtValue(v), stack, ss), e - p, [], Reading(s, e, AtValue(v), stack, ss))
    decreases e - p
  {
    if p < e {
      var l, m := Reading(s, p, AtValue(v), stack, ss), Reading(s, p + 1, AtValue(v), stack, ss);
      One(input, f, l, m);
      ReadMore(input, f, s, p + 1, e, v, stack, ss);
      ThenOn(f, l, 1, m, e - p - 1, [], Reading(s, e, AtValue(v), stack, ss));
    }
  }

  /** Numbers: the state reached after the first digit. */
  lemma NumberOpens(input: string, f: Lex -> Lex, p: int, w: nat, ss: State, stack: Stack<State>)
    requires IsStepper(input, f) && 0 <= p < |input| && Strings.IsDigit(input[p])
    ensures Goes(f, At(p, AtValue(ValueStart), stack, w, ss), 2, [], Reading(p, p + 1, AtValue(Number), stack, ss))
  {
    var l, m, k := At(p, AtValue(ValueStart), stack, w, ss), At(p, AtValue(NumberStart), stack, 1, ss), Reading(p, p + 1, AtValue(Number), stack, ss);
    One(input, f, l, m);
    One(input, f, m, k);
    ThenOn(f, l, 1, m, 1, [], k);
  }

  lemma NegNumberOpens(input: string, f: Lex -> Lex, p: int, w: nat, ss: State, stack: Stack<State>)
    requires IsStepper(input, f) && 0 <= p < |input| - 1 && input[p] == '-' && Strings.IsDigit(input[p + 1])
    ensures Goes(f, At(p, AtValue(ValueStart), stack, w, ss), 2, [], Reading(p, p + 2, AtValue(NegNumber), stack, ss))
  {
    var l, m := At(p, AtValue(ValueStart), stack, w, ss), Reading(p, p + 1, AtValue(NegNumberStart), stack, ss);
    var k := Reading(p, p + 2, AtValue(NegNumber), stack, ss);
    One(input, f, l, m);
    One(input, f, m, k);
    ThenOn(f, l, 1, m, 1, [], k);
  }

  lemma NumberCloses(input: string, f: Lex -> Lex, s: int, e: int, v: ValueState, ss: State, frame: State, rest: Stack<State>)
    requires IsStepper(input, f) && 0 <= s <= e < |input| && input[e] == '\n' && (v == Number || v == NegNumber)
    ensures Goes(f, Reading(s, e, AtValue(v), Push(frame, rest), ss), 1, [Item(ItemInteger, input[s..e])], At(e, frame, rest, 1, ss))
  {
    assert "" + input[s..e] == input[s..e];
    One(input, f, Reading(s, e, AtValue(v), Push(frame, rest), ss), At(e, frame, rest, 1, ss).(items := [Item(ItemInteger, input[s..e])]));
  }
}
