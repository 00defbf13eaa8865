/** The lexer and the stacks of the parser fit together: in every state the stack of states to return to tells which
contexts are open and how many keys wait for a value, every item sent can be taken, the stack is never empty when a
state is popped, and the lexer always gets ahead.
 */
module ConfLexSafety {
  import opened Basics
  import opened ConfItems
  import opened ConfLex
  import Strings

  // The stack discipline.

  /** Inside top-level braces: back to the top, through any number of enclosing braces. */
  predicate BlockShape(stack: Stack<State>) {
    match stack
    case Empty => false
    case Push(st, rest) => if st == AtTop(TopEntry) then rest == Empty else st == InBlock(BlockEnd) && BlockShape(rest)
  }

  const TOP_CTX: Stack<Kind> := Push(MapKind, Empty)

  /** Whether a value must be due, must not be, or may be. */
  datatype Due = Must | MustNot | May

  /** The contexts open, the keys waiting for a value, and whether one is due. */
  datatype Need = Need(ctxs: Stack<Kind>, keys: nat, due: Due)

  /** What the parser must hold while a value is read: the contexts open and the keys waiting for a value.
      Under the state to go to after the value is the one where the enclosing value goes, and so on.
   */
  function ValueNeeds(stack: Stack<State>): (r: Option<Need>)
    ensures r.Some? ==> r.value.ctxs.Push? && (r.value.ctxs.top.ArrayKind? || r.value.keys > 0)
    ensures r.Some? ==> r.value.due == if r.value.ctxs.top.MapKind? then Must else MustNot
  {
    match stack
    case Empty => None
    case Push(st, rest) =>
      if st == AtTop(TopValueEnd) then (if rest == Empty then Some(Need(TOP_CTX, 1, Must)) else None)
      else if st == InBlock(BlockValueEnd) then (if BlockShape(rest) then Some(Need(TOP_CTX, 1, Must)) else None)
      else if st == InMap(MapValueEnd) then Inside(ValueNeeds(rest), MapKind, 1, Must)
      else if st == InArray(ArrayValueEnd) then Inside(ValueNeeds(rest), ArrayKind, 0, MustNot)
      else None
  }

  /** One context further in, with so many more keys. */
  function Inside(needs: Option<Need>, kind: Kind, keys: nat, due: Due): Option<Need> {
    match needs
    case None => None
    case Some(t) => Some(Need(Push(kind, t.ctxs), t.keys + keys, due))
  }

  predicate TopFrame(stack: Stack<State>) {
    match stack
    case Empty => false
    case Push(st, _) => st == AtTop(TopValueEnd) || st == InBlock(BlockValueEnd)
  }

  predicate ArrayFrame(stack: Stack<State>) {
    match stack
    case Empty => false
    case Push(st, _) => st == InArray(ArrayValueEnd)
  }

  /** States a comment returns to. */
  predicate CommentFrame(st: State) {
    match st
    case AtTop(s) => s.TopEntry?
    case InBlock(_) => true
    case InArray(a) => !a.ArrayEnd?
    case InMap(m) => m.MapKeyStart? || m.MapValueEnd?
    case _ => false
  }

  /** What the parser must hold in a state, or nothing if the stack does not suit the state.  Only a map that is about
      to end may have a key without its value.
   */
  function Needs(st: State, stack: Stack<State>): Option<Need>
    decreases stack
  {
    match st
    case AtTop(_) => if stack == Empty then Some(Need(TOP_CTX, 0, MustNot)) else None
    case InBlock(_) => if BlockShape(stack) then Some(Need(TOP_CTX, 0, MustNot)) else None
    case AtKey(_) => if TopFrame(stack) then LessKey(ValueNeeds(stack)) else None
    case KeyEnd => if TopFrame(stack) then ValueNeeds(stack) else None
    case AtInclude(_) => if ArrayFrame(stack) then None else LessKey(ValueNeeds(stack))
    case AtValue(_) => ValueNeeds(stack)
    case InMap(m) => Inside(ValueNeeds(stack), MapKind, 0, if m.MapEnd? then May else MustNot)
    case AfterKey(_) => Inside(ValueNeeds(stack), MapKind, 1, Must)
    case InArray(_) => Inside(ValueNeeds(stack), ArrayKind, 0, MustNot)
    case InComment(_) => if stack.Push? && CommentFrame(stack.top) then Needs(stack.top, stack.rest) else None
    case Stop => Some(Need(TOP_CTX, 0, May))
  }

  /** The same with the key of the innermost value not yet there. */
  function LessKey(needs: Option<Need>): Option<Need> {
    match needs
    case None => None
    case Some(t) => if t.keys == 0 then None else Some(t.(keys := t.keys - 1, due := MustNot))
  }

  predicate DueIs(need: Due, due: bool) {
    match need
    case Must => due
    case MustNot => !due
    case May => true
  }

  predicate Covers(needs: Option<Need>, t: Track) {
    match needs
    case None => false
    case Some(n) => t.ctxs == n.ctxs && t.keys >= n.keys && DueIs(n.due, t.due)
  }

  /** After a value, the state on the stack takes over. */
  lemma {:induction false} AfterValue(stack: Stack<State>, t: Track)
    requires Covers(ValueNeeds(stack), t)
    ensures CanSet(t) && Expected(t) && stack.Push? && Covers(Needs(stack.top, stack.rest), Set(t).(due := false))
    ensures Rank(stack.top, true) == Rank(stack.top, false) == 2 && !stack.top.AtValue? && !stack.top.Stop?
  {
  }

  lemma {:induction false} AfterInclude(stack: Stack<State>, t: Track)
    requires Covers(Needs(AtInclude(IncludeStart), stack), t)
    ensures Between(t) && stack.Push? && Covers(Needs(stack.top, stack.rest), t)
    ensures Rank(stack.top, true) == Rank(stack.top, false) == 2 && !stack.top.AtValue? && !stack.top.Stop?
  {
  }

  lemma {:induction false} AfterComment(stack: Stack<State>, t: Track)
    requires Covers(Needs(InComment(CommentText), stack), t)
    ensures stack.Push? && Covers(Needs(stack.top, stack.rest), t) && !t.due
    ensures Rank(stack.top, true) <= 12 && Rank(stack.top, false) <= 12 && !stack.top.AtValue? && !stack.top.Stop?
  {
  }

  // Progress: a step that reads nothing goes to a state of lower rank.

  function Rank(st: State, atEnd: bool): (r: nat)
    ensures r < 16
  {
    match st
    case InComment(c) => if c.CommentStart? then 15 else 14
    case AtTop(s) => if s.TopValueEnd? then 2 else if atEnd then 1 else 12
    case InBlock(s) => if s.BlockStart? then 12 else if s.BlockValueEnd? then 2 else 1
    case AtKey(k) => if k.KeyStart? then 11 else 10
    case InMap(m) => if m.MapKeyStart? then 8 else if m.MapValueEnd? then 2 else if m.MapEnd? then 5 else 10
    case AfterKey(k) => if k.MapKeyEnd? then 9 else 8
    case KeyEnd => 8
    case InArray(a) => if a.ArrayValue? then 8 else if a.ArrayValueEnd? then 2 else 5
    case AtInclude(i) => if i.IncludeStart? then 8 else if i.IncludeValue? then 7 else 6
    case AtValue(v) => if v.ValueStart? || v.ConvenientNumber? then 5 else 4
    case Stop => 0
  }

  predicate StringText(st: State) { st == AtValue(RawString) || st == AtValue(DubQuotedString) }

  predicate Placed(input: string, l: Lex) { 0 <= l.start <= l.pos <= |input| }

  /** What string and block states know about where they are. */
  predicate InString(input: string, l: Lex) {
    match l.state
    case AtValue(v) => (
      match v
      case RawString => l.stringState == l.state
      case DubQuotedString => l.stringState == l.state
      case StringEscape => l.pos >= 1 && StringText(l.stringState)
      case StringBinary => 2 <= l.pos <= |input| && input[l.pos - 1] == 'x' && StringText(l.stringState)
      case BlockString => l.start >= 1
      case _ => true
    )
    case _ => true
  }

  /** The reading position is sound and the stack suits the state and what the parser holds. */
  predicate Good(input: string, l: Lex, t: Track) {
    Placed(input, l) && InString(input, l) && Covers(Needs(l.state, l.stack), t)
  }

  /** Steps left at this position. */
  function Credit(input: string, l: Lex): nat { 2 * Rank(l.state, l.pos >= |input|) + if l.skip then 1 else 0 }

  predicate Ahead(input: string, l: Lex, m: Lex) {
    m.pos > l.pos || (m.pos == l.pos && Credit(input, m) < Credit(input, l))
  }

  datatype Verdict = Fine | Wrong

  /** A step from `l`, with the parser's stacks as in `t`, to `m` is fine if it sent nothing, or one item that the
      parser can take; after the last item, an end or an error, the lexer stops.
   */
  function Judge(input: string, l: Lex, t: Track, m: Lex): Verdict {
    if m.items == [] then
      if !m.state.Stop? && Good(input, m, t) && Ahead(input, l, m) then Fine else Wrong
    else if |m.items| != 1 || !CanTake(t, m.items[0].typ) then Wrong
    else if m.items[0].typ.ItemEOF? || m.items[0].typ.ItemError? then (if m.state.Stop? then Fine else Wrong)
    else if !m.state.Stop? && Good(input, m, Take(t, m.items[0].typ)) && Ahead(input, l, m) then Fine
    else Wrong
  }

  predicate Stepped(input: string, l: Lex, t: Track, m: Lex) { Judge(input, l, t, m) == Fine }

  /** Ready to run state `st`. */
  predicate Ready(input: string, l: Lex, t: Track, st: State) {
    Good(input, l, t) && l.items == [] && !l.skip && l.state == st
  }

  // Kinds of steps.

  /** Reading on: to a state that suits the same stacks. */
  lemma ReadOn(input: string, l: Lex, t: Track, m: Lex)
    requires Good(input, l, t) && m.items == [] && m.pos > l.pos && Placed(input, m) && InString(input, m)
    requires !m.state.Stop? && Covers(Needs(m.state, m.stack), t)
    ensures Stepped(input, l, t, m)
  {
  }

  /** States in the same kind of place need the same. */
  predicate SamePlace(a: State, b: State) {
    match a
    case AtTop(_) => b.AtTop?
    case InBlock(_) => b.InBlock?
    case AtKey(_) => b.AtKey?
    case AtInclude(_) => b.AtInclude?
    case AtValue(_) => b.AtValue?
    case InMap(m) => b.InMap? && (m.MapEnd? ==> b == a)
    case AfterKey(_) => b.AfterKey?
    case InArray(_) => b.InArray?
    case _ => a == b && !a.Stop?
  }

  /** Reading one character and staying in the same kind of place. */
  lemma StayOn(input: string, l: Lex, t: Track, m: Lex)
    requires Good(input, l, t) && m.items == [] && l.pos < m.pos <= |input| && (m.start == l.start || m.start == m.pos)
    requires SamePlace(l.state, m.state) && m.stack == l.stack && InString(input, m)
    ensures Stepped(input, l, t, m)
  {
    if !l.state.InMap? {
      assert Needs(m.state, m.stack) == Needs(l.state, l.stack);
    }
  }

  /** Turning to a state nearer the end of the value without reading. */
  lemma TurnOn(input: string, l: Lex, t: Track, m: Lex)
    requires Good(input, l, t) && m.items == [] && m.pos == l.pos && m.start == l.start
    requires l.state.AtValue? && m.state.AtValue? && m.stack == l.stack && InString(input, m)
    requires !m.skip && Rank(m.state, true) < Rank(l.state, true)
    ensures Stepped(input, l, t, m)
  {
  }

  /** An array or a map begins. */
  lemma OpenOn(input: string, l: Lex, t: Track, n: Lex)
    requires Good(input, l, t) && l.state.AtValue? && n.items == [] && n.stack == l.stack && l.pos < n.pos && Placed(input, n)
    ensures Stepped(input, l, t, Goto(Emit(input, n, ItemArrayStart), InArray(ArrayValue)))
    ensures Stepped(input, l, t, Goto(Emit(input, n, ItemMapStart), InMap(MapKeyStart)))
  {
  }

  /** A comment starts, after which the lexer goes on in `back`. */
  lemma CommentOn(input: string, l: Lex, t: Track, n: Lex, back: State)
    requires n.items == [] && n.pos > l.pos && Placed(input, n) && CommentFrame(back) && Covers(Needs(back, n.stack), t)
    ensures Stepped(input, l, t, Comment(n, back))
  {
  }

  lemma FailOn(input: string, l: Lex, t: Track, n: Lex, message: string)
    requires n.items == []
    ensures Stepped(input, l, t, Fail(n, message))
  {
  }

  lemma EndOn(input: string, l: Lex, t: Track, n: Lex)
    requires n.items == []
    ensures Stepped(input, l, t, EndOfInput(input, n))
  {
  }

  /** A scalar is sent and the state on the stack takes over. */
  lemma ValueOn(input: string, l: Lex, t: Track, n: Lex, typ: ItemType)
    requires Good(input, l, t) && l.state.AtValue? && !l.skip && Scalar(typ)
    requires n.items == [] && n.stack == l.stack && Placed(input, n) && n.pos >= l.pos && !n.skip
    ensures Stepped(input, l, t, Pop(Emit(input, n, typ)))
    ensures Stepped(input, l, t, Pop(Emit(input, n, typ).(parts := [])))
    ensures Stepped(input, l, t, Pop(Ignore(Next(input, Emit(input, n, typ)))))
    ensures Stepped(input, l, t, Pop(Ignore(Next(input, Emit(input, n, typ).(parts := [])))))
  {
    AfterValue(l.stack, t);
  }

  /** A key is sent. */
  lemma KeyOn(input: string, l: Lex, t: Track, n: Lex, after: State)
    requires Good(input, l, t) && l.state != InMap(MapEnd)
    requires (l.state.AtKey? && after == KeyEnd) || (l.state.InMap? && after == AfterKey(MapKeyEnd))
    requires n.items == [] && n.stack == l.stack && Placed(input, n)
    requires n.pos > l.pos || (n == l && !l.skip && l.state != InMap(MapKeyStart) && l.state != InMap(MapValueEnd))
    ensures Stepped(input, l, t, Goto(Emit(input, n, ItemKey), after))
  {
  }

  // States at the top level, in braces and at keys.

  lemma LexTopSafe(input: string, l: Lex, t: Track)
    requires Ready(input, l, t, AtTop(TopEntry))
    ensures Stepped(input, l, t, LexTop(input, l))
  {
    var r, n := Char(input, l.pos), Next(input, l);
    if r == '#' {
      CommentOn(input, l, t, n, AtTop(TopEntry));
    } else if r == '/' {
      if Char(input, n.pos) == '/' {
        CommentOn(input, l, t, Next(input, n), AtTop(TopEntry));
      } else {
        EndOn(input, l, t, Looked(input, n));
      }
    }
  }

  lemma LexTopValueEndSafe(input: string, l: Lex, t: Track)
    requires Ready(input, l, t, AtTop(TopValueEnd))
    ensures Stepped(input, l, t, LexTopValueEnd(input, l))
  {
    var r, n := Char(input, l.pos), Next(input, l);
    if r == '#' {
      CommentOn(input, l, t, n, AtTop(TopEntry));
    } else if r == '/' {
      if Char(input, n.pos) == '/' {
        CommentOn(input, l, t, Next(input, n), AtTop(TopEntry));
      } else {
        StayOn(input, l, t, Looked(input, n));
      }
    } else if IsWhitespace(r) {
      StayOn(input, l, t, n);
    }
  }

  lemma LexBlockStartSafe(input: string, l: Lex, t: Track)
    requires Ready(input, l, t, InBlock(BlockStart))
    ensures Stepped(input, l, t, LexBlockStart(input, l))
  {
    var r, n := Char(input, l.pos), Next(input, l);
    if r == '#' {
      CommentOn(input, l, t, n, InBlock(BlockStart));
    } else if r == '/' {
      if Char(input, n.pos) == '/' {
        CommentOn(input, l, t, Next(input, n), InBlock(BlockStart));
      } else {
        EndOn(input, l, t, Looked(input, n));
      }
    }
  }

  lemma LexBlockValueEndSafe(input: string, l: Lex, t: Track)
    requires Ready(input, l, t, InBlock(BlockValueEnd))
    ensures Stepped(input, l, t, LexBlockValueEnd(input, l))
  {
    var r, n := Char(input, l.pos), Next(input, l);
    if r == '#' {
      CommentOn(input, l, t, n, InBlock(BlockValueEnd));
    } else if r == '/' {
      if Char(input, n.pos) == '/' {
        CommentOn(input, l, t, Next(input, n), InBlock(BlockValueEnd));
      } else {
        StayOn(input, l, t, Looked(input, n));
      }
    } else if IsWhitespace(r) {
      StayOn(input, l, t, n);
    } else if IsNL(r) || r == ';' || r == ',' {
      StayOn(input, l, t, Goto(Ignore(n), InBlock(BlockStart)));
    } else if r != '}' {
      FailOn(input, l, t, n, "Expected a block-level value to end with a new line, comment or EOF");
    }
  }

  lemma LexBlockEndSafe(input: string, l: Lex, t: Track)
    requires Ready(input, l, t, InBlock(BlockEnd))
    ensures Stepped(input, l, t, LexBlockEnd(input, l))
  {
    var r, n := Char(input, l.pos), Next(input, l);
    if r == '#' {
      CommentOn(input, l, t, n, InBlock(BlockStart));
    } else if r == '/' {
      if Char(input, n.pos) == '/' {
        CommentOn(input, l, t, Next(input, n), InBlock(BlockStart));
      } else {
        StayOn(input, l, t, Looked(input, n));
      }
    }
  }

  lemma LexKeyStartSafe(input: string, l: Lex, t: Track)
    requires Ready(input, l, t, AtKey(KeyStart))
    ensures Stepped(input, l, t, LexKeyStart(input, l))
  {
  }

  lemma LexQuotedKeySafe(input: string, l: Lex, t: Track, quote: char)
    requires Ready(input, l, t, AtKey(if quote == '"' then DubQuotedKey else QuotedKey))
    requires quote == '"' || quote == '\''
    ensures Stepped(input, l, t, LexQuotedKey(input, l, quote))
  {
  }

  lemma LexKeySafe(input: string, l: Lex, t: Track)
    requires Ready(input, l, t, AtKey(KeyText))
    ensures Stepped(input, l, t, LexKey(input, l))
  {
    var r := Char(input, l.pos);
    if IsSpace(r) || IsKeySeparator(r) || r == EOF {
      KeyOn(input, l, t, l, KeyEnd);
    } else {
      StayOn(input, l, t, Next(input, l));
    }
  }

  lemma LexKeyEndSafe(input: string, l: Lex, t: Track)
    requires Ready(input, l, t, KeyEnd)
    ensures Stepped(input, l, t, LexKeyEnd(input, l))
  {
  }

  // Includes.

  lemma LexIncludeStartSafe(input: string, l: Lex, t: Track)
    requires Ready(input, l, t, AtInclude(IncludeStart))
    ensures Stepped(input, l, t, LexIncludeStart(input, l))
  {
  }

  lemma LexIncludeSafe(input: string, l: Lex, t: Track)
    requires Ready(input, l, t, AtInclude(IncludeValue))
    ensures Stepped(input, l, t, LexInclude(input, l))
  {
  }

  lemma LexIncludeQuotedSafe(input: string, l: Lex, t: Track, quote: char)
    requires Ready(input, l, t, AtInclude(if quote == '"' then IncludeDubQuotedString else IncludeQuotedString))
    requires quote == '"' || quote == '\''
    ensures Stepped(input, l, t, LexIncludeQuoted(input, l, quote))
  {
    AfterInclude(l.stack, t);
  }

  lemma LexIncludeStringSafe(input: string, l: Lex, t: Track)
    requires Ready(input, l, t, AtInclude(IncludeString))
    ensures Stepped(input, l, t, LexIncludeString(input, l))
  {
    AfterInclude(l.stack, t);
  }

  // Values.

  lemma LexValueSafe(input: string, l: Lex, t: Track)
    requires Ready(input, l, t, AtValue(ValueStart))
    ensures Stepped(input, l, t, LexValue(input, l))
  {
    var r, n := Char(input, l.pos), Next(input, l);
    if IsWhitespace(r) {
      StayOn(input, l, t, Skip(n, AtValue(ValueStart)));
    } else if r == '[' || r == '{' {
      OpenOn(input, l, t, Ignore(n));
    } else if r == '\'' {
      StayOn(input, l, t, Goto(Ignore(n), AtValue(QuotedString)));
    } else if r == '"' {
      StayOn(input, l, t, StringIn(Ignore(n), DubQuotedString));
    } else {
      PlainValueSafe(input, l, t);
    }
  }

  lemma PlainValueSafe(input: string, l: Lex, t: Track)
    requires Ready(input, l, t, AtValue(ValueStart))
    ensures Stepped(input, l, t, PlainValue(Next(input, l), Char(input, l.pos)))
  {
    var r, n := Char(input, l.pos), Next(input, l);
    if r == '-' {
      StayOn(input, l, t, Goto(n, AtValue(NegNumberStart)));
    } else if r == '(' {
      StayOn(input, l, t, Goto(Ignore(n), AtValue(BlockString)));
    } else if Strings.IsDigit(r) {
      TurnOn(input, l, t, Goto(Backup(n), AtValue(NumberStart)));
    } else if r == '.' || IsNL(r) {
      FailOn(input, l, t, n, "Floats must start with a digit, and a value with something else than a new line");
    } else {
      TurnOn(input, l, t, StringIn(Backup(n), RawString));
    }
  }

  lemma LexQuotedStringSafe(input: string, l: Lex, t: Track)
    requires Ready(input, l, t, AtValue(QuotedString))
    ensures Stepped(input, l, t, LexQuotedString(input, l))
  {
    var r, n := Char(input, l.pos), Next(input, l);
    if r == '\'' {
      ValueOn(input, l, t, Backup(n), ItemString);
    } else if r == EOF {
      EndOn(input, l, t, n);
    } else {
      StayOn(input, l, t, n);
    }
  }

  lemma LexDubQuotedStringSafe(input: string, l: Lex, t: Track)
    requires Ready(input, l, t, AtValue(DubQuotedString))
    ensures Stepped(input, l, t, LexDubQuotedString(input, l))
  {
    var r, n := Char(input, l.pos), Next(input, l);
    if r == '\\' {
      StayOn(input, l, t, Escape(input, n));
    } else if r == '"' {
      ValueOn(input, l, t, Backup(n), ItemString);
    } else if r == EOF {
      EndOn(input, l, t, n);
    } else {
      StayOn(input, l, t, n);
    }
  }

  lemma EndRawStringSafe(input: string, l: Lex, t: Track, b: Lex)
    requires Good(input, l, t) && l.state.AtValue? && !l.skip
    requires b.items == [] && b.stack == l.stack && Placed(input, b) && b.pos >= l.pos && !b.skip && Char(input, b.pos) != '$'
    ensures Stepped(input, l, t, EndRawString(input, b))
  {
    if b.parts != [] {
      ValueOn(input, l, t, b, ItemString);
    } else if IsBool(Text(input, b)) {
      ValueOn(input, l, t, b, ItemBool);
    } else if Char(input, b.start) == '$' {
      ValueOn(input, l, t, b.(start := b.start + 1), ItemVariable);
    } else {
      ValueOn(input, l, t, b, ItemString);
    }
  }

  lemma LexStringSafe(input: string, l: Lex, t: Track)
    requires Ready(input, l, t, AtValue(RawString))
    ensures Stepped(input, l, t, LexString(input, l))
  {
    var r, n := Char(input, l.pos), Next(input, l);
    if r == '\\' {
      StayOn(input, l, t, Escape(input, n));
    } else if IsNL(r) || r == EOF || r == ';' || r == ',' || r == ']' || r == '}' || IsWhitespace(r) {
      EndRawStringSafe(input, l, t, Backup(n));
    } else if r == '\'' {
      ValueOn(input, l, t, Backup(n), ItemString);
    } else {
      StayOn(input, l, t, n);
    }
  }

  lemma LexBlockSafe(input: string, l: Lex, t: Track)
    requires Ready(input, l, t, AtValue(BlockString))
    ensures Stepped(input, l, t, LexBlock(input, l))
  {
    var r, n := Char(input, l.pos), Next(input, l);
    if r == ')' {
      var b := Backup(Backup(n));
      var n1 := Next(input, Next(input, b));
      if Char(input, b.pos) != '\n' {
        StayOn(input, l, t, n1);
      } else {
        var after, n2 := Char(input, n1.pos), Backup(Next(input, n1));
        if after == '\n' || after == EOF {
          ValueOn(input, l, t, Backup(n2), ItemString);
        } else {
          StayOn(input, l, t, n2);
        }
      }
    } else if r == EOF {
      FailOn(input, l, t, n, "Unexpected EOF processing block.");
    } else {
      StayOn(input, l, t, n);
    }
  }

  lemma LexStringEscapeSafe(input: string, l: Lex, t: Track)
    requires Ready(input, l, t, AtValue(StringEscape))
    ensures Stepped(input, l, t, LexStringEscape(input, l))
  {
  }

  lemma LexStringBinarySafe(input: string, l: Lex, t: Track)
    requires Ready(input, l, t, AtValue(StringBinary))
    ensures Stepped(input, l, t, LexStringBinary(input, l))
  {
  }

  lemma LexDigitSafe(input: string, l: Lex, t: Track, number: ValueState)
    requires Good(input, l, t) && l.items == [] && !l.skip && l.state.AtValue?
    requires number.Number? || number.NegNumber? || number.Float?
    ensures Stepped(input, l, t, LexDigit(input, l, number))
  {
  }

  lemma LexNumberSafe(input: string, l: Lex, t: Track)
    requires Ready(input, l, t, AtValue(Number))
    ensures Stepped(input, l, t, LexNumber(input, l))
  {
    var r, n := Char(input, l.pos), Next(input, l);
    if r == '-' {
      if n.pos - n.start == 5 {
        StayOn(input, l, t, Goto(n, AtValue(DateAfterYear)));
      } else {
        FailOn(input, l, t, n, "All ISO8601 dates must be in full Zulu form.");
      }
    } else if Strings.IsDigit(r) {
      StayOn(input, l, t, n);
    } else if r == '.' {
      StayOn(input, l, t, Goto(n, AtValue(FloatStart)));
    } else if IsNumberSuffix(r) {
      StayOn(input, l, t, Goto(n, AtValue(ConvenientNumber)));
    } else if !EndsNumber(r) {
      StayOn(input, l, t, StringIn(n, RawString));
    } else {
      ValueOn(input, l, t, Backup(n), ItemInteger);
    }
  }

  lemma LexConvenientNumberSafe(input: string, l: Lex, t: Track)
    requires Ready(input, l, t, AtValue(ConvenientNumber))
    ensures Stepped(input, l, t, LexConvenientNumber(input, l))
  {
    ValueOn(input, l, t, Backup(Next(input, l)), ItemInteger);
  }

  lemma LexNegNumberSafe(input: string, l: Lex, t: Track)
    requires Ready(input, l, t, AtValue(NegNumber))
    ensures Stepped(input, l, t, LexNegNumber(input, l))
  {
    ValueOn(input, l, t, Backup(Next(input, l)), ItemInteger);
  }

  lemma LexFloatSafe(input: string, l: Lex, t: Track)
    requires Ready(input, l, t, AtValue(Float))
    ensures Stepped(input, l, t, LexFloat(input, l))
  {
    ValueOn(input, l, t, Backup(Next(input, l)), ItemFloat);
  }

  lemma LexIPAddrSafe(input: string, l: Lex, t: Track)
    requires Ready(input, l, t, AtValue(IPAddr))
    ensures Stepped(input, l, t, LexIPAddr(input, l))
  {
    ValueOn(input, l, t, Backup(Next(input, l)), ItemString);
  }

  lemma {:induction false} LexDateSafe(input: string, l: Lex, t: Track, i: nat)
    requires Ready(input, l, t, AtValue(DateAfterYear))
    ensures Stepped(input, l, t, LexDate(input, l, i))
    decreases |DATE| - i
  {
    AfterValue(l.stack, t);
    if i < |DATE| && DateChar(DATE[i], Char(input, l.pos)) {
      LexDateSafe(input, Next(input, l), t, i + 1);
    }
  }

  // Arrays, maps and comments.

  lemma LexArrayValueSafe(input: string, l: Lex, t: Track)
    requires Ready(input, l, t, InArray(ArrayValue))
    ensures Stepped(input, l, t, LexArrayValue(input, l))
  {
    var r, n := Char(input, l.pos), Next(input, l);
    if r == '#' {
      CommentOn(input, l, t, n, InArray(ArrayValue));
    } else if r == '/' {
      if Char(input, n.pos) == '/' {
        CommentOn(input, l, t, Next(input, n), InArray(ArrayValue));
      } else {
        FailOn(input, l, t, Looked(input, n), "Unexpected array value terminator");
      }
    }
  }

  lemma LexArrayValueEndSafe(input: string, l: Lex, t: Track)
    requires Ready(input, l, t, InArray(ArrayValueEnd))
    ensures Stepped(input, l, t, LexArrayValueEnd(input, l))
  {
    var r, n := Char(input, l.pos), Next(input, l);
    if r == '#' {
      CommentOn(input, l, t, n, InArray(ArrayValueEnd));
    } else if r == '/' {
      if Char(input, n.pos) == '/' {
        CommentOn(input, l, t, Next(input, n), InArray(ArrayValueEnd));
      } else {
        StayOn(input, l, t, Skip(Looked(input, n), InArray(ArrayValue)));
      }
    } else if IsWhitespace(r) {
      StayOn(input, l, t, Skip(n, InArray(ArrayValueEnd)));
    } else if r == ',' || IsNL(r) {
      StayOn(input, l, t, Skip(n, InArray(ArrayValue)));
    } else if r == ']' {
      StayOn(input, l, t, Goto(n, InArray(ArrayEnd)));
    }
  }

  lemma LexArrayEndSafe(input: string, l: Lex, t: Track)
    requires Ready(input, l, t, InArray(ArrayEnd))
    ensures Stepped(input, l, t, LexArrayEnd(input, l))
  {
    AfterValue(l.stack, Track(t.ctxs.rest, t.keys, t.ctxs.rest.Push? && t.ctxs.rest.top.MapKind?));
  }

  lemma LexMapKeyStartSafe(input: string, l: Lex, t: Track)
    requires Ready(input, l, t, InMap(MapKeyStart))
    ensures Stepped(input, l, t, LexMapKeyStart(input, l))
  {
    var r, n := Char(input, l.pos), Next(input, l);
    if r == '#' {
      CommentOn(input, l, t, n, InMap(MapKeyStart));
    } else if r == '/' {
      if Char(input, n.pos) == '/' {
        CommentOn(input, l, t, Next(input, n), InMap(MapKeyStart));
      } else {
        ReadOn(input, l, t, Goto(Next(input, Ignore(Looked(input, n))), InMap(MapKeyText)));
      }
    }
  }

  lemma LexMapQuotedKeySafe(input: string, l: Lex, t: Track, quote: char)
    requires Ready(input, l, t, InMap(if quote == '"' then MapDubQuotedKey else MapQuotedKey))
    requires quote == '"' || quote == '\''
    ensures Stepped(input, l, t, LexMapQuotedKey(input, l, quote))
  {
  }

  lemma LexMapKeySafe(input: string, l: Lex, t: Track)
    requires Ready(input, l, t, InMap(MapKeyText))
    ensures Stepped(input, l, t, LexMapKey(input, l))
  {
    var r := Char(input, l.pos);
    if r == EOF {
      FailOn(input, l, t, l, "Unexpected EOF processing map key.");
    } else if IsSpace(r) || IsKeySeparator(r) {
      KeyOn(input, l, t, l, AfterKey(MapKeyEnd));
    } else {
      StayOn(input, l, t, Next(input, l));
    }
  }

  lemma LexMapKeyEndSafe(input: string, l: Lex, t: Track)
    requires Ready(input, l, t, AfterKey(MapKeyEnd))
    ensures Stepped(input, l, t, LexMapKeyEnd(input, l))
  {
  }

  lemma LexMapValueSafe(input: string, l: Lex, t: Track)
    requires Ready(input, l, t, AfterKey(MapValue))
    ensures Stepped(input, l, t, LexMapValue(input, l))
  {
  }

  lemma LexMapValueEndSafe(input: string, l: Lex, t: Track)
    requires Ready(input, l, t, InMap(MapValueEnd))
    ensures Stepped(input, l, t, LexMapValueEnd(input, l))
  {
    var r, n := Char(input, l.pos), Next(input, l);
    if r == '#' {
      CommentOn(input, l, t, n, InMap(MapValueEnd));
    } else if r == '/' {
      if Char(input, n.pos) == '/' {
        CommentOn(input, l, t, Next(input, n), InMap(MapValueEnd));
      } else {
        StayOn(input, l, t, Skip(Looked(input, n), InMap(MapKeyStart)));
      }
    } else if IsWhitespace(r) {
      StayOn(input, l, t, Skip(n, InMap(MapValueEnd)));
    } else if r == ';' || r == ',' || IsNL(r) {
      StayOn(input, l, t, Skip(n, InMap(MapKeyStart)));
    } else if r == '}' {
      StayOn(input, l, t, Skip(n, InMap(MapEnd)));
    }
  }

  lemma LexMapEndSafe(input: string, l: Lex, t: Track)
    requires Ready(input, l, t, InMap(MapEnd))
    ensures Stepped(input, l, t, LexMapEnd(input, l))
  {
    AfterValue(l.stack, Track(t.ctxs.rest, t.keys, t.ctxs.rest.Push? && t.ctxs.rest.top.MapKind?));
  }

  lemma LexCommentStartSafe(input: string, l: Lex, t: Track)
    requires Ready(input, l, t, InComment(CommentStart))
    ensures Stepped(input, l, t, LexCommentStart(input, l))
  {
    AfterComment(l.stack, t);
  }

  lemma LexCommentSafe(input: string, l: Lex, t: Track)
    requires Ready(input, l, t, InComment(CommentText))
    ensures Stepped(input, l, t, LexComment(input, l))
  {
    AfterComment(l.stack, t);
  }

  // The machine.

  lemma ValueStepSafe(input: string, l: Lex, t: Track, v: ValueState)
    requires Ready(input, l, t, AtValue(v))
    ensures Stepped(input, l, t, ValueStep(input, l, v))
  {
    match v
    case ValueStart => LexValueSafe(input, l, t);
    case QuotedString => LexQuotedStringSafe(input, l, t);
    case DubQuotedString => LexDubQuotedStringSafe(input, l, t);
    case RawString => LexStringSafe(input, l, t);
    case BlockString => LexBlockSafe(input, l, t);
    case StringEscape => LexStringEscapeSafe(input, l, t);
    case StringBinary => LexStringBinarySafe(input, l, t);
    case NumberStart => LexDigitSafe(input, l, t, Number);
    case Number => LexNumberSafe(input, l, t);
    case ConvenientNumber => LexConvenientNumberSafe(input, l, t);
    case DateAfterYear => LexDateSafe(input, l, t, 0);
    case NegNumberStart => LexDigitSafe(input, l, t, NegNumber);
    case NegNumber => LexNegNumberSafe(input, l, t);
    case FloatStart => LexDigitSafe(input, l, t, Float);
    case Float => LexFloatSafe(input, l, t);
    case IPAddr => LexIPAddrSafe(input, l, t);
  }

  lemma MapStepSafe(input: string, l: Lex, t: Track, m: MapState)
    requires Ready(input, l, t, InMap(m))
    ensures Stepped(input, l, t, MapStep(input, l, m))
  {
    match m
    case MapKeyStart => LexMapKeyStartSafe(input, l, t);
    case MapQuotedKey => LexMapQuotedKeySafe(input, l, t, '\'');
    case MapDubQuotedKey => LexMapQuotedKeySafe(input, l, t, '"');
    case MapKeyText => LexMapKeySafe(input, l, t);
    case MapValueEnd => LexMapValueEndSafe(input, l, t);
    case MapEnd => LexMapEndSafe(input, l, t);
  }

  lemma IncludeStepSafe(input: string, l: Lex, t: Track, i: IncludeState)
    requires Ready(input, l, t, AtInclude(i))
    ensures Stepped(input, l, t, IncludeStep(input, l, i))
  {
    match i
    case IncludeStart => LexIncludeStartSafe(input, l, t);
    case IncludeQuotedString => LexIncludeQuotedSafe(input, l, t, '\'');
    case IncludeDubQuotedString => LexIncludeQuotedSafe(input, l, t, '"');
    case IncludeString => LexIncludeStringSafe(input, l, t);
    case IncludeValue => LexIncludeSafe(input, l, t);
  }

  lemma TopStepSafe(input: string, l: Lex, t: Track)
    requires Ready(input, l, t, l.state) && (l.state.AtTop? || l.state.InBlock? || l.state.AtKey? || l.state.KeyEnd?)
    ensures Stepped(input, l, t, TopStep(input, l))
  {
    match l.state
    case AtTop(s) => if s.TopEntry? { LexTopSafe(input, l, t); } else { LexTopValueEndSafe(input, l, t); }
    case InBlock(b) =>
      if b.BlockStart? {
        LexBlockStartSafe(input, l, t);
      } else if b.BlockValueEnd? {
        LexBlockValueEndSafe(input, l, t);
      } else {
        LexBlockEndSafe(input, l, t);
      }
    case AtKey(k) =>
      if k.KeyStart? {
        LexKeyStartSafe(input, l, t);
      } else if k.KeyText? {
        LexKeySafe(input, l, t);
      } else {
        LexQuotedKeySafe(input, l, t, if k.DubQuotedKey? then '"' else '\'');
      }
    case KeyEnd => LexKeyEndSafe(input, l, t);
  }

  /** Every step keeps to the discipline and gets ahead. */
  lemma StepSafe(input: string, l: Lex, t: Track)
    requires Good(input, l, t) && l.items == [] && !l.state.Stop?
    ensures Stepped(input, l, t, Step(input, l))
  {
    if !l.skip {
      match l.state
      case InMap(m) => MapStepSafe(input, l, t, m);
      case AfterKey(k) => if k.MapKeyEnd? { LexMapKeyEndSafe(input, l, t); } else { LexMapValueSafe(input, l, t); }
      case AtInclude(i) => IncludeStepSafe(input, l, t, i);
      case AtValue(v) => ValueStepSafe(input, l, t, v);
      case InArray(a) =>
        if a.ArrayValue? {
          LexArrayValueSafe(input, l, t);
        } else if a.ArrayValueEnd? {
          LexArrayValueEndSafe(input, l, t);
        } else {
          LexArrayEndSafe(input, l, t);
        }
      case InComment(k) => if k.CommentStart? { LexCommentStartSafe(input, l, t); } else { LexCommentSafe(input, l, t); }
      case AtTop(_) => TopStepSafe(input, l, t);
      case InBlock(_) => TopStepSafe(input, l, t);
      case AtKey(_) => TopStepSafe(input, l, t);
      case KeyEnd => TopStepSafe(input, l, t);
    }
  }

  /** States that may pop the stack. */
  predicate CanPop(st: State) {
    match st
    case AtTop(_) => false
    case AtKey(_) => false
    case KeyEnd => false
    case Stop => false
    case _ => true
  }

  /** The stack is not empty in a state that may pop it. */
  lemma Stacked(l: Lex, t: Track)
    requires Covers(Needs(l.state, l.stack), t)
    ensures CanPop(l.state) ==> l.stack.Push?
  {
  }

  /** After a step that sent nothing the lexer is ready for another, further ahead. */
  lemma Quiet(input: string, l: Lex, t: Track, m: Lex)
    requires Stepped(input, l, t, m) && m.items == []
    ensures !m.state.Stop? && Good(input, m, t) && Ahead(input, l, m)
  {
  }
}
