/** How a block in parentheses is read: what ends it, and what of it is sent. */
module ConfBlocks {
  import opened ConfItems
  import opened ConfLex
  import opened ConfReads

  /** A closing parenthesis at place `i` is on a line by itself. */
  predicate Closes(input: string, i: int) {
    && 0 < i < |input| && input[i] == ')' && input[i - 1] == '\n'
    && (Char(input, i + 1) == '\n' || Char(input, i + 1) == EOF)
  }

  lemma ReadOne(input: string, f: Lex -> Lex, s: int, p: int, stack: Stack<State>, ss: State)
    requires IsStepper(input, f) && 0 < s <= p < |input| && !Closes(input, p) && input[p] != EOF
    ensures Goes(f, Reading(s, p, AtValue(BlockString), stack, ss), 1, [], Reading(s, p + 1, AtValue(BlockString), stack, ss))
  {
    One(input, f, Reading(s, p, AtValue(BlockString), stack, ss), Reading(s, p + 1, AtValue(BlockString), stack, ss));
  }

  lemma {:induction false} BlockReads(input: string, f: Lex -> Lex, s: int, p: int, e: int, stack: Stack<State>, ss: State)
    requires IsStepper(input, f) && 0 < s <= p <= e <= |input| && forall i :: p <= i < e ==> !Closes(input, i) && input[i] != EOF
    ensures Goes(f, Reading(s, p, AtValue(BlockString), stack, ss), e - p, [], Reading(s, e, AtValue(BlockString), stack, ss))
    decreases e - p
  {
    if p < e {
      var l, m := Reading(s, p, AtValue(BlockString), stack, ss), Reading(s, p + 1, AtValue(BlockString), stack, ss);
      ReadOne(input, f, s, p, stack, ss);
      BlockReads(input, f, s, p + 1, e, stack, ss);
      ThenOn(f, l, 1, m, e - p - 1, [], Reading(s, e, AtValue(BlockString), stack, ss));
    }
  }

  /** Where the text of a block ends that a parenthesis at `q` closes: before it, or at the end of the input behind it. */
  function TextEnd(input: string, q: int): int { if q + 1 < |input| then q else q + 1 }

  /** The two backups take back a character each, but nothing at the end of the input. */
  lemma BackedUp(input: string, s: int, q: int, stack: Stack<State>, ss: State)
    requires 0 < s <= q && Closes(input, q)
    ensures var e := TextEnd(input, q);
            LexBlock(input, Reading(s, q, AtValue(BlockString), stack, ss)) ==
            EndPlainQuoted(input, Reading(s, e, AtValue(BlockString), stack, ss).(width := q + 1 - e))
  {
    var l := Reading(s, q, AtValue(BlockString), stack, ss);
    var b := Backup(Backup(Next(input, l)));
    assert b == l.(pos := q - 1);
    assert Next(input, Next(input, b)) == l.(pos := q + 1);
  }

  lemma QuoteEnds(input: string, s: int, e: int, w: nat, ss: State, frame: State, rest: Stack<State>)
    requires 0 < s <= e <= |input| && w == (if e < |input| then 1 else 0)
    ensures EndPlainQuoted(input, Reading(s, e, AtValue(BlockString), Push(frame, rest), ss).(width := w)) ==
            At(e + w, frame, rest, w, ss).(items := [Item(ItemString, input[s..e])])
  {
    assert "" + input[s..e] == input[s..e];
  }

  lemma BlockCloses(input: string, f: Lex -> Lex, s: int, q: int, ss: State, frame: State, rest: Stack<State>)
    requires IsStepper(input, f) && 0 < s <= q && Closes(input, q)
    ensures Goes(f, Reading(s, q, AtValue(BlockString), Push(frame, rest), ss), 1, [Item(ItemString, input[s..TextEnd(input, q)])],
                 At(q + 1, frame, rest, q + 1 - TextEnd(input, q), ss))
  {
    var l, e := Reading(s, q, AtValue(BlockString), Push(frame, rest), ss), TextEnd(input, q);
    BackedUp(input, s, q, Push(frame, rest), ss);
    QuoteEnds(input, s, e, q + 1 - e, ss, frame, rest);
    One(input, f, l, LexBlock(input, l));
  }

  lemma BlockOpens(input: string, f: Lex -> Lex, p: int, w: nat, ss: State, stack: Stack<State>)
    requires IsStepper(input, f) && 0 <= p < |input| && input[p] == '('
    ensures Goes(f, At(p, AtValue(ValueStart), stack, w, ss), 1, [], Reading(p + 1, p + 1, AtValue(BlockString), stack, ss))
  {
    One(input, f, At(p, AtValue(ValueStart), stack, w, ss), Reading(p + 1, p + 1, AtValue(BlockString), stack, ss));
  }

  lemma BlockLexes(input: string, f: Lex -> Lex, p: int, q: int, l: Lex, ss: State, frame: State, rest: Stack<State>)
    requires IsStepper(input, f) && 0 <= p < q && Closes(input, q) && forall i :: p < i < q ==> !Closes(input, i) && input[i] != EOF
    requires Goes(f, l, 1, [], Reading(p + 1, p + 1, AtValue(BlockString), Push(frame, rest), ss))
    ensures Goes(f, l, q - p + 1, [Item(ItemString, input[p + 1..TextEnd(input, q)])],
                 At(q + 1, frame, rest, q + 1 - TextEnd(input, q), ss))
  {
    var m, k := Reading(p + 1, p + 1, AtValue(BlockString), Push(frame, rest), ss), Reading(p + 1, q, AtValue(BlockString), Push(frame, rest), ss);
    BlockReads(input, f, p + 1, p + 1, q, Push(frame, rest), ss);
    ThenOn(f, l, 1, m, q - p - 1, [], k);
    BlockCloses(input, f, p + 1, q, ss, frame, rest);
    ThenOn(f, l, q - p, k, 1, [Item(ItemString, input[p + 1..TextEnd(input, q)])], At(q + 1, frame, rest, q + 1 - TextEnd(input, q), ss));
  }

  /** A block is sent up to the first parenthesis on a line by itself.  It goes without that parenthesis if and only if
      something comes after it: at the end of the input the parenthesis is sent too.
   */
  lemma BlockExactly(input: string, f: Lex -> Lex, p: int, q: int, w: nat, ss: State, frame: State, rest: Stack<State>) returns (text: string)
    requires IsStepper(input, f) && 0 <= p < q && Closes(input, q) && input[p] == '('
    requires forall i :: p < i < q ==> !Closes(input, i) && input[i] != EOF
    ensures Goes(f, At(p, AtValue(ValueStart), Push(frame, rest), w, ss), q - p + 1, [Item(ItemString, text)],
                 At(q + 1, frame, rest, q + 1 - TextEnd(input, q), ss))
    ensures text == input[p + 1..q] || text == input[p + 1..q] + ")"
    ensures text == input[p + 1..q] <==> q + 1 < |input|
  {
    text := input[p + 1..TextEnd(input, q)];
    BlockOpens(input, f, p, w, ss, Push(frame, rest));
    BlockLexes(input, f, p, q, At(p, AtValue(ValueStart), Push(frame, rest), w, ss), ss, frame, rest);
    assert input[p + 1..q + 1] == input[p + 1..q] + ")";
  }
}
