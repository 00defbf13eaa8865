/** The configuration lexer (conf/lex.go) as an object whose state methods do what the functions of `ConfLex` say. */
module ConfLexer {
  import opened ConfItems
  import opened Spec = ConfLex
  import opened ConfLexSafety
  import Strings

  class Lexer {
    const input: string
    ghost const f: Lex -> Lex
    var start: int
    var pos: int
    var width: nat
    var state: State
    var skip: bool
    var stack: Stack<State>
    var items: seq<Item>
    var stringParts: seq<string>
    var stringState: State
    ghost var track: Track
    ghost var steps: nat
    ghost var sent: seq<Item>

    ghost function Config(): Lex
      reads this
    {
      Lex(start, pos, width, state, skip, stack, items, stringParts, stringState)
    }

    /** Ready to run state `st`. */
    ghost predicate At(st: State)
      reads this
    {
      Ready(input, Config(), track, st) && (CanPop(st) ==> stack.Push?)
    }

    /** Ready for the next step. */
    ghost predicate Inv()
      reads this
    {
      items == [] && (state.Stop? || Good(input, Config(), track)) 
      && IsStepper(input, f) && Lexed(f, steps) == Trace(Config(), sent)
    }

    constructor (input: string)
      ensures Inv() && Config() == BEGIN && track == ConfItems.START && sent == [] && this.input == input && f == Stepper(input)
    {
      this.input, f := input, Stepper(input);
      start, pos, width, skip := 0, 0, 0, false;
      state, stack, items := AtTop(TopEntry), Empty, [];
      stringParts, stringState, track, steps, sent := [], Stop, ConfItems.START, 0, [];
    }

    /** The record of the run is as it was. */
    ghost predicate Kept(t: Track, n: nat, its: seq<Item>)
      reads this
    {
      track == t && steps == n && sent == its
    }

    /** A safe step was made from `l`, and the record of the run is as it was. */
    ghost predicate Moved(l: Lex, t: Track, n: nat, its: seq<Item>)
      reads this
    {
      Stepped(input, l, t, Config()) && Kept(t, n, its)
    }

    // Primitives.

    function Peek(): char
      requires 0 <= pos
      reads this`pos
    {
      if pos < |input| then input[pos] else EOF
    }

    method Next() returns (r: char)
      requires 0 <= pos
      modifies this`pos, this`width
      ensures Config() == Spec.Next(input, old(Config())) && r == Char(input, old(pos))
    {
      if pos >= |input| {
        width := 0;
        return EOF;
      }
      r, width := input[pos], 1;
      pos := pos + width;
    }

    method Backup()
      modifies this`pos
      ensures Config() == Spec.Backup(old(Config()))
    {
      pos := pos - width;
    }

    method Ignore()
      modifies this`start
      ensures Config() == Spec.Ignore(old(Config()))
    {
      start := pos;
    }

    function Text(): string
      requires Placed(input, Config())
      reads this
    {
      input[start..pos]
    }

    method Emit(typ: ItemType)
      requires Placed(input, Config())
      modifies this`items, this`start
      ensures Config() == Spec.Emit(input, old(Config()), typ)
    {
      items := items + [Item(typ, Join(stringParts) + Text())];
      start := pos;
    }

    method EmitString()
      requires Placed(input, Config())
      modifies this`items, this`start, this`stringParts
      ensures Config() == Spec.EmitString(input, old(Config()))
    {
      Emit(ItemString);
      stringParts := [];
    }

    /** Reports an error and stops. */
    method Fail(message: string)
      modifies this`items, this`state
      ensures Config() == Spec.Fail(old(Config()), message)
    {
      items := items + [Item(ItemError, message)];
      state := Stop;
    }

    /** Goes to the state on top of the stack, which is never empty here. */
    method Pop()
      requires stack.Push?
      modifies this`stack, this`state
      ensures Config() == Spec.Pop(old(Config()))
    {
      state := stack.top;
      stack := stack.rest;
    }

    /** Starts a comment, after which the lexer goes on in `back`. */
    method StartComment(back: State)
      modifies this`stack, this`state
      ensures Config() == Spec.Comment(old(Config()), back)
    {
      stack := Push(back, stack);
      state := InComment(CommentStart);
    }

    /** End of input where the lexer ends quietly unless something was begun. */
    method EndOfInput()
      requires Placed(input, Config())
      modifies this`items, this`state, this`start
      ensures Config() == Spec.EndOfInput(input, old(Config()))
    {
      if pos > start {
        Fail("Unexpected EOF.");
      } else {
        Emit(ItemEOF);
        state := Stop;
      }
    }

    /** After a slash: a second one starts a comment, after which the lexer goes on in `back`. */
    method SecondSlash(back: State) returns (comment: bool)
      requires 0 <= pos
      modifies this`pos, this`width, this`stack, this`state
      ensures comment == (Char(input, old(pos)) == '/')
      ensures Config() == if comment then Spec.Comment(Spec.Next(input, old(Config())), back) else Looked(input, old(Config()))
    {
      var r := Next();
      comment := r == '/';
      if comment {
        StartComment(back);
      } else {
        Backup();
      }
    }

    // States at the top level.

    method LexTop()
      requires At(AtTop(TopEntry))
      modifies this
      ensures Config() == Spec.LexTop(input, old(Config())) && Moved(old(Config()), old(track), old(steps), old(sent))
    {
      LexTopSafe(input, Config(), track);
      var r := Next();
      if IsSpace(r) {
        skip := true;
      } else if r == '{' {
        stack := Push(AtTop(TopEntry), stack);
        state, skip := InBlock(BlockStart), true;
      } else if r == '#' {
        StartComment(AtTop(TopEntry));
      } else if r == '/' {
        var comment := SecondSlash(AtTop(TopEntry));
        if !comment {
          EndOfInput();
        }
      } else if r == EOF {
        EndOfInput();
      } else {
        Backup();
        stack := Push(AtTop(TopValueEnd), stack);
        state := AtKey(KeyStart);
      }
    }

    method LexTopValueEnd()
      requires At(AtTop(TopValueEnd))
      modifies this
      ensures Config() == Spec.LexTopValueEnd(input, old(Config())) && Moved(old(Config()), old(track), old(steps), old(sent))
    {
      LexTopValueEndSafe(input, Config(), track);
      var r := Next();
      if r == '#' {
        StartComment(AtTop(TopEntry));
      } else if r == '/' {
        var _ := SecondSlash(AtTop(TopEntry));
      } else if IsWhitespace(r) {
      } else if IsNL(r) || r == EOF || r == ';' || r == ',' || r == '}' {
        Ignore();
        state := AtTop(TopEntry);
      } else {
        Fail("Expected a top-level value to end with a new line, comment or EOF");
      }
    }

    // States in top-level braces.

    method LexBlockStart()
      requires At(InBlock(BlockStart))
      modifies this
      ensures Config() == Spec.LexBlockStart(input, old(Config())) && Moved(old(Config()), old(track), old(steps), old(sent))
    {
      LexBlockStartSafe(input, Config(), track);
      var r := Next();
      if IsSpace(r) {
        skip := true;
      } else if r == '{' {
        stack := Push(InBlock(BlockEnd), stack);
        skip := true;
      } else if r == '}' {
        Ignore();
        Pop();
      } else if r == '#' {
        StartComment(InBlock(BlockStart));
      } else if r == '/' {
        var comment := SecondSlash(InBlock(BlockStart));
        if !comment {
          EndOfInput();
        }
      } else if r == EOF {
        EndOfInput();
      } else {
        Backup();
        stack := Push(InBlock(BlockValueEnd), stack);
        state := AtKey(KeyStart);
      }
    }

    method LexBlockValueEnd()
      requires At(InBlock(BlockValueEnd))
      modifies this
      ensures Config() == Spec.LexBlockValueEnd(input, old(Config())) && Moved(old(Config()), old(track), old(steps), old(sent))
    {
      LexBlockValueEndSafe(input, Config(), track);
      var r := Next();
      if r == '#' {
        StartComment(InBlock(BlockValueEnd));
      } else if r == '/' {
        var _ := SecondSlash(InBlock(BlockValueEnd));
      } else if IsWhitespace(r) {
      } else if IsNL(r) || r == ';' || r == ',' {
        Ignore();
        state := InBlock(BlockStart);
      } else if r == '}' {
        Backup();
        state := InBlock(BlockEnd);
      } else {
        Fail("Expected a block-level value to end with a new line, comment or EOF");
      }
    }

    method LexBlockEnd()
      requires At(InBlock(BlockEnd))
      modifies this
      ensures Config() == Spec.LexBlockEnd(input, old(Config())) && Moved(old(Config()), old(track), old(steps), old(sent))
    {
      LexBlockEndSafe(input, Config(), track);
      var r := Next();
      if r == '#' {
        StartComment(InBlock(BlockStart));
      } else if r == '/' {
        var _ := SecondSlash(InBlock(BlockStart));
      } else if IsNL(r) || IsWhitespace(r) {
      } else if r == ';' || r == ',' {
        Ignore();
        state := InBlock(BlockStart);
      } else if r == '}' {
        Ignore();
        Pop();
      } else {
        Fail("Expected a block-level to end with a '}'");
      }
    }

    // Keys of top-level entries.

    method LexKeyStart()
      requires At(AtKey(KeyStart))
      modifies this
      ensures Config() == Spec.LexKeyStart(input, old(Config())) && Moved(old(Config()), old(track), old(steps), old(sent))
    {
      LexKeyStartSafe(input, Config(), track);
      var r := Peek();
      if IsKeySeparator(r) {
        Fail("Unexpected key separator");
      } else if IsSpace(r) {
        var _ := Next();
        skip := true;
      } else if r == '"' {
        var _ := Next();
        state, skip := AtKey(DubQuotedKey), true;
      } else if r == '\'' {
        var _ := Next();
        state, skip := AtKey(QuotedKey), true;
      } else {
        Ignore();
        var _ := Next();
        state := AtKey(KeyText);
      }
    }

    /** The text of a quoted key; `quote` ends it. */
    method LexQuotedKey(quote: char)
      requires quote == '"' || quote == '\''
      requires At(AtKey(if quote == '"' then DubQuotedKey else QuotedKey))
      modifies this
      ensures Config() == Spec.LexQuotedKey(input, old(Config()), quote) && Moved(old(Config()), old(track), old(steps), old(sent))
    {
      LexQuotedKeySafe(input, Config(), track, quote);
      var r := Peek();
      if r == quote {
        Emit(ItemKey);
        var _ := Next();
        state, skip := KeyEnd, true;
      } else if r == EOF {
        EndOfInput();
      } else {
        var _ := Next();
      }
    }

    method LexKey()
      requires At(AtKey(KeyText))
      modifies this
      ensures Config() == Spec.LexKey(input, old(Config())) && Moved(old(Config()), old(track), old(steps), old(sent))
    {
      LexKeySafe(input, Config(), track);
      var r := Peek();
      if IsSpace(r) {
        if Strings.Lower(Text()) == "include" {
          Ignore();
          state := AtInclude(IncludeStart);
        } else {
          Emit(ItemKey);
          state := KeyEnd;
        }
      } else if IsKeySeparator(r) || r == EOF {
        Emit(ItemKey);
        state := KeyEnd;
      } else {
        var _ := Next();
      }
    }

    method LexKeyEnd()
      requires At(KeyEnd)
      modifies this
      ensures Config() == Spec.LexKeyEnd(input, old(Config())) && Moved(old(Config()), old(track), old(steps), old(sent))
    {
      LexKeyEndSafe(input, Config(), track);
      var r := Next();
      if IsSpace(r) {
        skip := true;
      } else if IsKeySeparator(r) {
        state, skip := AtValue(ValueStart), true;
      } else if r == EOF {
        Emit(ItemEOF);
        state := Stop;
      } else {
        Backup();
        state := AtValue(ValueStart);
      }
    }

    // Includes.

    method LexIncludeStart()
      requires At(AtInclude(IncludeStart))
      modifies this
      ensures Config() == Spec.LexIncludeStart(input, old(Config())) && Moved(old(Config()), old(track), old(steps), old(sent))
    {
      LexIncludeStartSafe(input, Config(), track);
      var r := Next();
      if IsWhitespace(r) {
        skip := true;
      } else {
        Backup();
        state := AtInclude(IncludeValue);
      }
    }

    method LexInclude()
      requires At(AtInclude(IncludeValue))
      modifies this
      ensures Config() == Spec.LexInclude(input, old(Config())) && Moved(old(Config()), old(track), old(steps), old(sent))
    {
      LexIncludeSafe(input, Config(), track);
      var r := Next();
      if r == '\'' {
        Ignore();
        state := AtInclude(IncludeQuotedString);
      } else if r == '"' {
        Ignore();
        state := AtInclude(IncludeDubQuotedString);
      } else if r == '[' || r == '{' || r == '(' || Strings.IsDigit(r) || r == '-' || r == '\\' || IsNL(r) {
        Fail("Expected include value");
      } else {
        Backup();
        state := AtInclude(IncludeString);
      }
    }

    /** Sends an include and drops the quote that ends it. */
    method EndQuotedInclude()
      requires Placed(input, Config()) && stack.Push?
      modifies this
      ensures Config() == Spec.EndQuotedInclude(input, old(Config())) && Kept(old(track), old(steps), old(sent))
    {
      Emit(ItemInclude);
      var _ := Next();
      Ignore();
      Pop();
    }

    method LexIncludeQuoted(quote: char)
      requires quote == '"' || quote == '\''
      requires At(AtInclude(if quote == '"' then IncludeDubQuotedString else IncludeQuotedString))
      modifies this
      ensures Config() == Spec.LexIncludeQuoted(input, old(Config()), quote) && Moved(old(Config()), old(track), old(steps), old(sent))
    {
      LexIncludeQuotedSafe(input, Config(), track, quote);
      var r := Next();
      if r == quote {
        Backup();
        EndQuotedInclude();
      } else if r == EOF {
        Fail("Unexpected EOF in quoted include");
      }
    }

    method LexIncludeString()
      requires At(AtInclude(IncludeString))
      modifies this
      ensures Config() == Spec.LexIncludeString(input, old(Config())) && Moved(old(Config()), old(track), old(steps), old(sent))
    {
      LexIncludeStringSafe(input, Config(), track);
      var r := Next();
      if IsNL(r) || r == EOF || r == ';' || r == '}' || IsWhitespace(r) {
        Backup();
        Emit(ItemInclude);
        Pop();
      } else if r == '\'' {
        Backup();
        EndQuotedInclude();
      }
    }

    // Values.

    method LexValue()
      requires At(AtValue(ValueStart))
      modifies this
      ensures Config() == Spec.LexValue(input, old(Config())) && Moved(old(Config()), old(track), old(steps), old(sent))
    {
      LexValueSafe(input, Config(), track);
      var r := Next();
      if IsWhitespace(r) {
        skip := true;
      } else if r == '[' {
        Ignore();
        Emit(ItemArrayStart);
        state := InArray(ArrayValue);
      } else if r == '{' {
        Ignore();
        Emit(ItemMapStart);
        state := InMap(MapKeyStart);
      } else if r == '\'' {
        Ignore();
        state := AtValue(QuotedString);
      } else if r == '"' {
        Ignore();
        stringState := AtValue(DubQuotedString);
        state := stringState;
      } else {
        PlainValue(r);
      }
    }

    /** A value that no bracket or quote begins. */
    method PlainValue(r: char)
      modifies this
      ensures Config() == Spec.PlainValue(old(Config()), r) && Kept(old(track), old(steps), old(sent))
    {
      if r == '-' {
        state := AtValue(NegNumberStart);
      } else if r == '(' {
        Ignore();
        state := AtValue(BlockString);
      } else if Strings.IsDigit(r) {
        Backup();
        state := AtValue(NumberStart);
      } else if r == '.' || IsNL(r) {
        Fail("Floats must start with a digit, and a value with something else than a new line");
      } else {
        Backup();
        stringState := AtValue(RawString);
        state := stringState;
      }
    }

    /** Sends a string that a quote ends, and drops the quote. */
    method EndQuoted()
      requires Placed(input, Config()) && stack.Push?
      modifies this
      ensures Config() == Spec.EndQuoted(input, old(Config())) && Kept(old(track), old(steps), old(sent))
    {
      EmitString();
      var _ := Next();
      Ignore();
      Pop();
    }

    /** The same for a string that has no escapes. */
    method EndPlainQuoted()
      requires Placed(input, Config()) && stack.Push?
      modifies this
      ensures Config() == Spec.EndPlainQuoted(input, old(Config())) && Kept(old(track), old(steps), old(sent))
    {
      Emit(ItemString);
      var _ := Next();
      Ignore();
      Pop();
    }

    method LexQuotedString()
      requires At(AtValue(QuotedString))
      modifies this
      ensures Config() == Spec.LexQuotedString(input, old(Config())) && Moved(old(Config()), old(track), old(steps), old(sent))
    {
      LexQuotedStringSafe(input, Config(), track);
      var r := Next();
      if r == '\'' {
        Backup();
        EndPlainQuoted();
      } else if r == EOF {
        EndOfInput();
      }
    }

    /** Keeps the text before a backslash. */
    method AddCurrentStringPart()
      requires 0 <= start < pos <= |input|
      modifies this
      ensures Config() == Spec.Escape(input, old(Config())) && Kept(old(track), old(steps), old(sent))
    {
      stringParts := stringParts + [input[start..pos - 1]];
      start := pos;
      state := AtValue(StringEscape);
    }

    /** Keeps an escaped character and goes on with the string. */
    method AddStringPart(part: string)
      modifies this
      ensures Config() == Spec.Unescape(old(Config()), part) && Kept(old(track), old(steps), old(sent))
    {
      stringParts := stringParts + [part];
      start := pos;
      state := stringState;
    }

    method LexDubQuotedString()
      requires At(AtValue(DubQuotedString))
      modifies this
      ensures Config() == Spec.LexDubQuotedString(input, old(Config())) && Moved(old(Config()), old(track), old(steps), old(sent))
    {
      LexDubQuotedStringSafe(input, Config(), track);
      var r := Next();
      if r == '\\' {
        AddCurrentStringPart();
      } else if r == '"' {
        Backup();
        EndQuoted();
      } else if r == EOF {
        EndOfInput();
      }
    }

    /** Whether the text is a variable; its `$` is dropped. */
    method IsVariable() returns (variable: bool)
      requires Placed(input, Config())
      modifies this`start
      ensures variable == (Char(input, old(start)) == '$') && start == old(start) + if variable then 1 else 0
    {
      variable := start < |input| && input[start] == '$';
      if variable {
        start := start + 1;
      }
    }

    /** The end of an unquoted string. */
    method EndRawString()
      requires Placed(input, Config()) && stack.Push? && Char(input, pos) != '$'
      modifies this
      ensures Config() == Spec.EndRawString(input, old(Config())) && Kept(old(track), old(steps), old(sent))
    {
      if stringParts != [] {
        EmitString();
      } else if IsBool(Text()) {
        Emit(ItemBool);
      } else {
        var variable := IsVariable();
        if variable {
          Emit(ItemVariable);
        } else {
          EmitString();
        }
      }
      Pop();
    }

    method LexString()
      requires At(AtValue(RawString))
      modifies this
      ensures Config() == Spec.LexString(input, old(Config())) && Moved(old(Config()), old(track), old(steps), old(sent))
    {
      LexStringSafe(input, Config(), track);
      var r := Next();
      if r == '\\' {
        AddCurrentStringPart();
      } else if IsNL(r) || r == EOF || r == ';' || r == ',' || r == ']' || r == '}' || IsWhitespace(r) {
        Backup();
        EndRawString();
      } else if r == '\'' {
        Backup();
        EndQuoted();
      }
    }

    method LexBlock()
      requires At(AtValue(BlockString))
      modifies this
      ensures Config() == Spec.LexBlock(input, old(Config())) && Moved(old(Config()), old(track), old(steps), old(sent))
    {
      LexBlockSafe(input, Config(), track);
      var r := Next();
      if r == ')' {
        Backup();
        Backup();
        var before := Next();
        var _ := Next();
        if before == '\n' {
          var after := Next();
          Backup();
          if after == '\n' || after == EOF {
            Backup();
            EndPlainQuoted();
          }
        }
      } else if r == EOF {
        Fail("Unexpected EOF processing block.");
      }
    }

    method LexStringEscape()
      requires At(AtValue(StringEscape))
      modifies this
      ensures Config() == Spec.LexStringEscape(input, old(Config())) && Moved(old(Config()), old(track), old(steps), old(sent))
    {
      LexStringEscapeSafe(input, Config(), track);
      var r := Next();
      if r == 'x' {
        state := AtValue(StringBinary);
      } else if r == 't' {
        AddStringPart("\t");
      } else if r == 'n' {
        AddStringPart("\n");
      } else if r == 'r' {
        AddStringPart("\r");
      } else if r == '"' {
        AddStringPart("\"");
      } else if r == '\\' {
        AddStringPart("\\");
      } else {
        Fail("Invalid escape character");
      }
    }

    method LexStringBinary()
      requires At(AtValue(StringBinary))
      modifies this
      ensures Config() == Spec.LexStringBinary(input, old(Config())) && Moved(old(Config()), old(track), old(steps), old(sent))
    {
      LexStringBinarySafe(input, Config(), track);
      var r := Next();
      if IsNL(r) {
        Fail("Expected two hexadecimal digits, but hit end of line");
        return;
      }
      r := Next();
      if IsNL(r) {
        Fail("Expected two hexadecimal digits, but hit end of line");
        return;
      }
      var high, low := input[pos - 2], input[pos - 1];
      if !IsHex(high) || !IsHex(low) {
        Fail("Expected two hexadecimal digits");
      } else {
        AddStringPart([(16 * HexValue(high) + HexValue(low)) as char]);
      }
    }

    // Numbers.

    /** At least one digit must come; then the number goes on in `number`. */
    method LexDigit(number: ValueState)
      requires At(state) && state.AtValue? && (number.Number? || number.NegNumber? || number.Float?)
      modifies this
      ensures Config() == Spec.LexDigit(input, old(Config()), number) && Moved(old(Config()), old(track), old(steps), old(sent))
    {
      LexDigitSafe(input, Config(), track, number);
      var r := Next();
      if Strings.IsDigit(r) {
        state := AtValue(number);
      } else {
        Fail("Expected a digit");
      }
    }

    method LexNumber()
      requires At(AtValue(Number))
      modifies this
      ensures Config() == Spec.LexNumber(input, old(Config())) && Moved(old(Config()), old(track), old(steps), old(sent))
    {
      LexNumberSafe(input, Config(), track);
      var r := Next();
      if r == '-' {
        if pos - start != 5 {
          Fail("All ISO8601 dates must be in full Zulu form.");
        } else {
          state := AtValue(DateAfterYear);
        }
      } else if Strings.IsDigit(r) {
      } else if r == '.' {
        state := AtValue(FloatStart);
      } else if IsNumberSuffix(r) {
        state := AtValue(ConvenientNumber);
      } else if !EndsNumber(r) {
        stringState := AtValue(RawString);
        state := stringState;
      } else {
        Backup();
        Emit(ItemInteger);
        Pop();
      }
    }

    method LexConvenientNumber()
      requires At(AtValue(ConvenientNumber))
      modifies this
      ensures Config() == Spec.LexConvenientNumber(input, old(Config())) && Moved(old(Config()), old(track), old(steps), old(sent))
    {
      LexConvenientNumberSafe(input, Config(), track);
      var r := Next();
      if r == 'b' || r == 'B' || r == 'i' || r == 'I' {
        return;
      }
      Backup();
      if EndsNumber(r) {
        Emit(ItemInteger);
        Pop();
      } else {
        stringState := AtValue(RawString);
        state := stringState;
      }
    }

    method LexDateAfterYear()
      requires At(AtValue(DateAfterYear))
      modifies this
      ensures Config() == Spec.LexDate(input, old(Config()), 0) && Moved(old(Config()), old(track), old(steps), old(sent))
    {
      LexDateSafe(input, Config(), track, 0);
      ReadDate();
    }

    /** The rest of a date. */
    method ReadDate()
      requires Placed(input, Config()) && stack.Push?
      modifies this
      ensures Config() == Spec.LexDate(input, old(Config()), 0) && Kept(old(track), old(steps), old(sent))
    {
      for i := 0 to |DATE|
        invariant 0 <= start <= pos <= |input| && stack == old(stack) && Kept(old(track), old(steps), old(sent))
        invariant Spec.LexDate(input, Config(), i) == Spec.LexDate(input, old(Config()), 0)
      {
        var r := Next();
        if !DateChar(DATE[i], r) {
          Fail("Expected another character in ISO8601 datetime");
          return;
        }
      }
      Emit(ItemDatetime);
      Pop();
    }

    method LexNegNumber()
      requires At(AtValue(NegNumber))
      modifies this
      ensures Config() == Spec.LexNegNumber(input, old(Config())) && Moved(old(Config()), old(track), old(steps), old(sent))
    {
      LexNegNumberSafe(input, Config(), track);
      var r := Next();
      if Strings.IsDigit(r) {
      } else if r == '.' {
        state := AtValue(FloatStart);
      } else if IsNumberSuffix(r) {
        state := AtValue(ConvenientNumber);
      } else {
        Backup();
        Emit(ItemInteger);
        Pop();
      }
    }

    method LexFloat()
      requires At(AtValue(Float))
      modifies this
      ensures Config() == Spec.LexFloat(input, old(Config())) && Moved(old(Config()), old(track), old(steps), old(sent))
    {
      LexFloatSafe(input, Config(), track);
      var r := Next();
      if Strings.IsDigit(r) {
      } else if r == '.' {
        state := AtValue(IPAddr);
      } else {
        Backup();
        Emit(ItemFloat);
        Pop();
      }
    }

    method LexIPAddr()
      requires At(AtValue(IPAddr))
      modifies this
      ensures Config() == Spec.LexIPAddr(input, old(Config())) && Moved(old(Config()), old(track), old(steps), old(sent))
    {
      LexIPAddrSafe(input, Config(), track);
      var r := Next();
      if !(Strings.IsDigit(r) || r == '.' || r == ':' || r == '-') {
        Backup();
        Emit(ItemString);
        Pop();
      }
    }

    // Arrays.

    method LexArrayValue()
      requires At(InArray(ArrayValue))
      modifies this
      ensures Config() == Spec.LexArrayValue(input, old(Config())) && Moved(old(Config()), old(track), old(steps), old(sent))
    {
      LexArrayValueSafe(input, Config(), track);
      var r := Next();
      if IsSpace(r) {
        skip := true;
      } else if r == '#' {
        StartComment(InArray(ArrayValue));
      } else if r == '/' {
        var comment := SecondSlash(InArray(ArrayValue));
        if !comment {
          Fail("Unexpected array value terminator");
        }
      } else if r == ',' {
        Fail("Unexpected array value terminator");
      } else if r == ']' {
        state := InArray(ArrayEnd);
      } else {
        Backup();
        stack := Push(InArray(ArrayValueEnd), stack);
        state := AtValue(ValueStart);
      }
    }

    method LexArrayValueEnd()
      requires At(InArray(ArrayValueEnd))
      modifies this
      ensures Config() == Spec.LexArrayValueEnd(input, old(Config())) && Moved(old(Config()), old(track), old(steps), old(sent))
    {
      LexArrayValueEndSafe(input, Config(), track);
      var r := Next();
      if IsWhitespace(r) {
        skip := true;
      } else if r == '#' {
        StartComment(InArray(ArrayValueEnd));
      } else if r == '/' {
        var comment := SecondSlash(InArray(ArrayValueEnd));
        if !comment {
          state, skip := InArray(ArrayValue), true;
        }
      } else if r == ',' || IsNL(r) {
        state, skip := InArray(ArrayValue), true;
      } else if r == ']' {
        state := InArray(ArrayEnd);
      } else {
        Fail("Expected an array value terminator or an array terminator");
      }
    }

    method LexArrayEnd()
      requires At(InArray(ArrayEnd))
      modifies this
      ensures Config() == Spec.LexArrayEnd(input, old(Config())) && Moved(old(Config()), old(track), old(steps), old(sent))
    {
      LexArrayEndSafe(input, Config(), track);
      Ignore();
      Emit(ItemArrayEnd);
      Pop();
    }

    // Maps.

    method LexMapKeyStart()
      requires At(InMap(MapKeyStart))
      modifies this
      ensures Config() == Spec.LexMapKeyStart(input, old(Config())) && Moved(old(Config()), old(track), old(steps), old(sent))
    {
      LexMapKeyStartSafe(input, Config(), track);
      var r := Peek();
      if IsKeySeparator(r) || r == ']' || r == EOF {
        Fail("Unexpected key separator, array end or EOF processing map");
      } else if IsSpace(r) {
        var _ := Next();
        skip := true;
      } else if r == '}' {
        var _ := Next();
        state, skip := InMap(MapEnd), true;
      } else if r == '#' {
        var _ := Next();
        StartComment(InMap(MapKeyStart));
      } else if r == '/' {
        var _ := Next();
        var comment := SecondSlash(InMap(MapKeyStart));
        if !comment {
          Ignore();
          var _ := Next();
          state := InMap(MapKeyText);
        }
      } else if r == '\'' {
        var _ := Next();
        state, skip := InMap(MapQuotedKey), true;
      } else if r == '"' {
        var _ := Next();
        state, skip := InMap(MapDubQuotedKey), true;
      } else {
        Ignore();
        var _ := Next();
        state := InMap(MapKeyText);
      }
    }

    method LexMapQuotedKey(quote: char)
      requires quote == '"' || quote == '\''
      requires At(InMap(if quote == '"' then MapDubQuotedKey else MapQuotedKey))
      modifies this
      ensures Config() == Spec.LexMapQuotedKey(input, old(Config()), quote) && Moved(old(Config()), old(track), old(steps), old(sent))
    {
      LexMapQuotedKeySafe(input, Config(), track, quote);
      var r := Peek();
      if r == EOF {
        Fail("Unexpected EOF processing quoted map key.");
      } else if r == quote {
        Emit(ItemKey);
        var _ := Next();
        state, skip := AfterKey(MapKeyEnd), true;
      } else {
        var _ := Next();
      }
    }

    method LexMapKey()
      requires At(InMap(MapKeyText))
      modifies this
      ensures Config() == Spec.LexMapKey(input, old(Config())) && Moved(old(Config()), old(track), old(steps), old(sent))
    {
      LexMapKeySafe(input, Config(), track);
      var r := Peek();
      if r == EOF {
        Fail("Unexpected EOF processing map key.");
      } else if IsSpace(r) {
        if Strings.Lower(Text()) == "include" {
          Ignore();
          stack := Push(InMap(MapValueEnd), stack);
          state := AtInclude(IncludeStart);
        } else {
          Emit(ItemKey);
          state := AfterKey(MapKeyEnd);
        }
      } else if IsKeySeparator(r) {
        Emit(ItemKey);
        state := AfterKey(MapKeyEnd);
      } else {
        var _ := Next();
      }
    }

    method LexMapKeyEnd()
      requires At(AfterKey(MapKeyEnd))
      modifies this
      ensures Config() == Spec.LexMapKeyEnd(input, old(Config())) && Moved(old(Config()), old(track), old(steps), old(sent))
    {
      LexMapKeyEndSafe(input, Config(), track);
      var r := Next();
      if IsSpace(r) {
        skip := true;
      } else if IsKeySeparator(r) {
        state, skip := AfterKey(MapValue), true;
      } else {
        Backup();
        state := AfterKey(MapValue);
      }
    }

    method LexMapValue()
      requires At(AfterKey(MapValue))
      modifies this
      ensures Config() == Spec.LexMapValue(input, old(Config())) && Moved(old(Config()), old(track), old(steps), old(sent))
    {
      LexMapValueSafe(input, Config(), track);
      var r := Next();
      if IsSpace(r) {
        skip := true;
      } else if r == ',' {
        Fail("Unexpected map value terminator");
      } else if r == '}' {
        state, skip := InMap(MapEnd), true;
      } else {
        Backup();
        stack := Push(InMap(MapValueEnd), stack);
        state := AtValue(ValueStart);
      }
    }

    method LexMapValueEnd()
      requires At(InMap(MapValueEnd))
      modifies this
      ensures Config() == Spec.LexMapValueEnd(input, old(Config())) && Moved(old(Config()), old(track), old(steps), old(sent))
    {
      LexMapValueEndSafe(input, Config(), track);
      var r := Next();
      if IsWhitespace(r) {
        skip := true;
      } else if r == '#' {
        StartComment(InMap(MapValueEnd));
      } else if r == '/' {
        var comment := SecondSlash(InMap(MapValueEnd));
        if !comment {
          state, skip := InMap(MapKeyStart), true;
        }
      } else if r == ';' || r == ',' || IsNL(r) {
        state, skip := InMap(MapKeyStart), true;
      } else if r == '}' {
        state, skip := InMap(MapEnd), true;
      } else {
        Fail("Expected a map value terminator or a map terminator");
      }
    }

    method LexMapEnd()
      requires At(InMap(MapEnd))
      modifies this
      ensures Config() == Spec.LexMapEnd(input, old(Config())) && Moved(old(Config()), old(track), old(steps), old(sent))
    {
      LexMapEndSafe(input, Config(), track);
      Ignore();
      Emit(ItemMapEnd);
      Pop();
    }

    // Comments.

    method LexCommentStart()
      requires At(InComment(CommentStart))
      modifies this
      ensures Config() == Spec.LexCommentStart(input, old(Config())) && Moved(old(Config()), old(track), old(steps), old(sent))
    {
      LexCommentStartSafe(input, Config(), track);
      Ignore();
      Emit(ItemCommentStart);
      state := InComment(CommentText);
    }

    method LexComment()
      requires At(InComment(CommentText))
      modifies this
      ensures Config() == Spec.LexComment(input, old(Config())) && Moved(old(Config()), old(track), old(steps), old(sent))
    {
      LexCommentSafe(input, Config(), track);
      var r := Peek();
      if IsNL(r) || r == EOF {
        Emit(ItemText);
        Pop();
      } else {
        var _ := Next();
      }
    }

    // The machine.

    method LexValueState(v: ValueState)
      requires At(AtValue(v))
      modifies this
      ensures Config() == ValueStep(input, old(Config()), v) && Moved(old(Config()), old(track), old(steps), old(sent))
    {
      match v
      case ValueStart => LexValue();
      case QuotedString => LexQuotedString();
      case DubQuotedString => LexDubQuotedString();
      case RawString => LexString();
      case BlockString => LexBlock();
      case StringEscape => LexStringEscape();
      case StringBinary => LexStringBinary();
      case NumberStart => LexDigit(Number);
      case Number => LexNumber();
      case ConvenientNumber => LexConvenientNumber();
      case DateAfterYear => LexDateAfterYear();
      case NegNumberStart => LexDigit(NegNumber);
      case NegNumber => LexNegNumber();
      case FloatStart => LexDigit(Float);
      case Float => LexFloat();
      case IPAddr => LexIPAddr();
    }

    method LexMapState(m: MapState)
      requires At(InMap(m))
      modifies this
      ensures Config() == MapStep(input, old(Config()), m) && Moved(old(Config()), old(track), old(steps), old(sent))
    {
      match m
      case MapKeyStart => LexMapKeyStart();
      case MapQuotedKey => LexMapQuotedKey('\'');
      case MapDubQuotedKey => LexMapQuotedKey('"');
      case MapKeyText => LexMapKey();
      case MapValueEnd => LexMapValueEnd();
      case MapEnd => LexMapEnd();
    }

    method LexIncludeState(i: IncludeState)
      requires At(AtInclude(i))
      modifies this
      ensures Config() == IncludeStep(input, old(Config()), i) && Moved(old(Config()), old(track), old(steps), old(sent))
    {
      match i
      case IncludeStart => LexIncludeStart();
      case IncludeQuotedString => LexIncludeQuoted('\'');
      case IncludeDubQuotedString => LexIncludeQuoted('"');
      case IncludeString => LexIncludeString();
      case IncludeValue => LexInclude();
    }

    method LexTopState(st: State)
      requires At(st) && (st.AtTop? || st.InBlock? || st.AtKey? || st.KeyEnd?)
      modifies this
      ensures Config() == TopStep(input, old(Config())) && Moved(old(Config()), old(track), old(steps), old(sent))
    {
      match st
      case AtTop(TopEntry) => LexTop();
      case AtTop(TopValueEnd) => LexTopValueEnd();
      case InBlock(BlockStart) => LexBlockStart();
      case InBlock(BlockValueEnd) => LexBlockValueEnd();
      case InBlock(BlockEnd) => LexBlockEnd();
      case AtKey(KeyStart) => LexKeyStart();
      case AtKey(DubQuotedKey) => LexQuotedKey('"');
      case AtKey(QuotedKey) => LexQuotedKey('\'');
      case AtKey(KeyText) => LexKey();
      case KeyEnd => LexKeyEnd();
    }

    /** Runs the state function of the current state. */
    method RunState()
      requires At(state) && !state.Stop?
      modifies this
      ensures Config() == Spec.Step(input, old(Config())) && Moved(old(Config()), old(track), old(steps), old(sent))
    {
      match state
      case InMap(m) => LexMapState(m);
      case AfterKey(MapKeyEnd) => LexMapKeyEnd();
      case AfterKey(MapValue) => LexMapValue();
      case AtInclude(i) => LexIncludeState(i);
      case AtValue(v) => LexValueState(v);
      case InArray(ArrayValue) => LexArrayValue();
      case InArray(ArrayValueEnd) => LexArrayValueEnd();
      case InArray(ArrayEnd) => LexArrayEnd();
      case InComment(CommentStart) => LexCommentStart();
      case InComment(CommentText) => LexComment();
      case AtTop(_) => LexTopState(state);
      case InBlock(_) => LexTopState(state);
      case AtKey(_) => LexTopState(state);
      case KeyEnd => LexTopState(state);
    }

    /** One step, after dropping what is to be skipped. */
    method Step()
      requires Inv() && !state.Stop?
      modifies this
      ensures Config() == Spec.Step(input, old(Config())) && Moved(old(Config()), old(track), old(steps), old(sent))
    {
      if skip {
        StepSafe(input, Config(), track);
        Ignore();
        skip := false;
      } else {
        Stacked(Config(), track);
        RunState();
      }
    }

    /** One step, noted in the record of the run. */
    method Tick()
      requires Inv() && !state.Stop?
      modifies this
      ensures Stepped(input, old(Config()), old(track), Config()) && track == old(track)
      ensures sent == old(sent) + items && Lexed(f, steps) == Trace(Config().(items := []), sent)
    {
      ghost var l := Config();
      Step();
      Note(l);
    }

    /** Records the step from `l`. */
    ghost method Note(l: Lex)
      requires Lexed(f, steps) == Trace(l, sent) && !l.state.Stop? && Config() == f(l)
      modifies this`steps, this`sent
      ensures sent == old(sent) + items && Lexed(f, steps) == Trace(Config().(items := []), sent)
    {
      LexedMore(f, steps, Trace(l, sent), Config());
      steps := steps + 1;
      sent := sent + items;
    }

    /** Hands over the item that the step from `l` sent. */
    method HandOver(ghost l: Lex) returns (item: Item)
      requires items != [] && Stepped(input, l, track, Config())
      requires IsStepper(input, f) && Lexed(f, steps) == Trace(Config().(items := []), sent)
      modifies this`items, this`track
      ensures old(items) == [item] && Inv() && CanTake(old(track), item.typ) && track == Take(old(track), item.typ)
      ensures state.Stop? == (item.typ.ItemEOF? || item.typ.ItemError?)
      ensures state.Stop? || Ahead(input, l, Config())
    {
      item := items[0];
      items := [];
      track := Take(track, item.typ);
    }

    /** The next item: the parser can take it after those before, and the lexer stops after an end or an error. */
    method NextItem() returns (item: Item)
      requires Inv() && !state.Stop?
      modifies this
      ensures Inv() && CanTake(old(track), item.typ) && track == Take(old(track), item.typ) && sent == old(sent) + [item]
      ensures state.Stop? == (item.typ.ItemEOF? || item.typ.ItemError?)
      ensures state.Stop? || Ahead(input, old(Config()), Config())
    {
      while true
        invariant Inv() && !state.Stop? && track == old(track) && sent == old(sent)
        invariant Config() == old(Config()) || Ahead(input, old(Config()), Config())
        decreases |input| - pos, Credit(input, Config())
      {
        ghost var l := Config();
        Tick();
        if items != [] {
          item := HandOver(l);
          return;
        }
        Quiet(input, l, track, Config());
      }
    }
  }
}
