/** The configuration lexer (conf/lex.go) as functions: what each state does to the reading position, the stack of
states to return to and the items sent.

Runes are one character wide.  Line numbers and positions of items are not modelled.
 */
module ConfLex {
  import opened ConfItems
  import Strings

  const EOF: char := '\0'

  datatype TopState = TopEntry | TopValueEnd
  datatype BlockState = BlockStart | BlockValueEnd | BlockEnd
  datatype KeyState = KeyStart | DubQuotedKey | QuotedKey | KeyText
  datatype IncludeState = IncludeStart | IncludeQuotedString | IncludeDubQuotedString | IncludeString | IncludeValue
  datatype ValueState =
    | ValueStart | QuotedString | DubQuotedString | RawString | BlockString | StringEscape | StringBinary
    | NumberStart | Number | ConvenientNumber | DateAfterYear | NegNumberStart | NegNumber
    | FloatStart | Float | IPAddr
  datatype MapState = MapKeyStart | MapQuotedKey | MapDubQuotedKey | MapKeyText | MapValueEnd | MapEnd
  datatype KeyedState = MapKeyEnd | MapValue
  datatype ArrayState = ArrayValue | ArrayValueEnd | ArrayEnd
  datatype CommentState = CommentStart | CommentText

  /** The states, by where in the input they stand: at the top level, in top-level braces, at the key of a
      top-level entry, right after it, at an include, at a value, in a map, after a key of a map, in an array,
      in a comment.
   */
  datatype State =
    | AtTop(topState: TopState)
    | InBlock(blockState: BlockState)
    | AtKey(keyState: KeyState)
    | KeyEnd
    | AtInclude(includeState: IncludeState)
    | AtValue(valueState: ValueState)
    | InMap(mapState: MapState)
    | AfterKey(keyedState: KeyedState)
    | InArray(arrayState: ArrayState)
    | InComment(commentState: CommentState)
    | Stop

  // Characters.

  predicate IsWhitespace(r: char) { r == '\t' || r == ' ' }

  predicate IsNL(r: char) { r == '\n' || r == '\r' }

  predicate IsSpace(r: char) {
    IsWhitespace(r) || IsNL(r) || r as int == 0x0B || r as int == 0x0C || r as int == 0x85 || r as int == 0xA0
  }

  predicate IsHex(r: char) { Strings.IsDigit(r) || 'a' <= r <= 'f' || 'A' <= r <= 'F' }

  predicate IsKeySeparator(r: char) { r == '=' || r == ':' }

  predicate IsNumberSuffix(r: char) {
    r == 'k' || r == 'K' || r == 'm' || r == 'M' || r == 'g' || r == 'G' ||
    r == 't' || r == 'T' || r == 'p' || r == 'P' || r == 'e' || r == 'E'
  }

  /** Ends a number. */
  predicate EndsNumber(r: char) {
    IsNL(r) || r == EOF || r == '}' || r == ';' || r == ',' || IsWhitespace(r) || Strings.IsDigit(r)
  }

  predicate IsBool(s: string) {
    var l := Strings.Lower(s);
    l == "true" || l == "false" || l == "on" || l == "off" || l == "yes" || l == "no"
  }

  function Join(parts: seq<string>): string {
    if parts == [] then "" else parts[0] + Join(parts[1..])
  }

  function HexValue(r: char): (v: int)
    ensures 0 <= v < 16
  {
    if Strings.IsDigit(r) then r as int - '0' as int
    else if 'a' <= r <= 'f' then r as int - 'a' as int + 10
    else if 'A' <= r <= 'F' then r as int - 'A' as int + 10
    else 0
  }

  /** The lexer: the item being read begins at `start`, the next character is at `pos`, the last one read was `width`
      wide; `skip` says that what was read is to be dropped before the state runs; `parts` are the pieces of a string
      with escapes, which goes on in `stringState`.
   */
  datatype Lex = Lex(
    start: int, pos: int, width: nat, state: State, skip: bool, stack: Stack<State>, items: seq<Item>,
    parts: seq<string>, stringState: State)

  const BEGIN: Lex := Lex(0, 0, 0, AtTop(TopEntry), false, Empty, [], [], Stop)

  // Primitives.

  function Char(input: string, p: int): char { if 0 <= p < |input| then input[p] else EOF }

  function Text(input: string, l: Lex): string {
    if 0 <= l.start <= l.pos <= |input| then input[l.start..l.pos] else ""
  }

  function Width(input: string, p: int): nat { if p < |input| then 1 else 0 }

  function Next(input: string, l: Lex): Lex { l.(pos := l.pos + Width(input, l.pos), width := Width(input, l.pos)) }

  function Backup(l: Lex): Lex { l.(pos := l.pos - l.width) }

  function Ignore(l: Lex): Lex { l.(start := l.pos) }

  function Goto(l: Lex, st: State): Lex { l.(state := st) }

  /** Goes to a state after dropping what was read. */
  function Skip(l: Lex, st: State): Lex { l.(state := st, skip := true) }

  function Down(l: Lex, back: State): Lex { l.(stack := Push(back, l.stack)) }

  /** Goes to the state on top of the stack; an error if there is none. */
  function Pop(l: Lex): Lex {
    match l.stack
    case Empty => Fail(l, "BUG in lexer: no states to pop.")
    case Push(st, rest) => l.(state := st, stack := rest)
  }

  function Emit(input: string, l: Lex, typ: ItemType): Lex {
    l.(items := l.items + [Item(typ, Join(l.parts) + Text(input, l))], start := l.pos)
  }

  function EmitString(input: string, l: Lex): Lex { Emit(input, l, ItemString).(parts := []) }

  /** Reports an error and stops. */
  function Fail(l: Lex, message: string): Lex { l.(items := l.items + [Item(ItemError, message)], state := Stop) }

  /** End of input where the lexer ends quietly unless something was begun. */
  function EndOfInput(input: string, l: Lex): Lex {
    if l.pos > l.start then Fail(l, "Unexpected EOF.") else Goto(Emit(input, l, ItemEOF), Stop)
  }

  /** Starts a comment, after which the lexer goes on in `back`. */
  function Comment(l: Lex, back: State): Lex { Goto(Down(l, back), InComment(CommentStart)) }

  /** Looks at a character without taking it. */
  function Looked(input: string, l: Lex): Lex { Backup(Next(input, l)) }

  /** After a slash: a second one starts a comment, after which the lexer goes on in `back`. */
  function Slash(input: string, l: Lex, back: State, otherwise: Lex): Lex {
    if Char(input, l.pos) == '/' then Comment(Next(input, l), back) else otherwise
  }

  // States at the top level.

  function LexTop(input: string, l: Lex): Lex {
    var r, n := Char(input, l.pos), Next(input, l);
    if IsSpace(r) then Skip(n, AtTop(TopEntry))
    else if r == '{' then Skip(Down(n, AtTop(TopEntry)), InBlock(BlockStart))
    else if r == '#' then Comment(n, AtTop(TopEntry))
    else if r == '/' then Slash(input, n, AtTop(TopEntry), EndOfInput(input, Looked(input, n)))
    else if r == EOF then EndOfInput(input, n)
    else Goto(Down(Backup(n), AtTop(TopValueEnd)), AtKey(KeyStart))
  }

  function LexTopValueEnd(input: string, l: Lex): Lex {
    var r, n := Char(input, l.pos), Next(input, l);
    if r == '#' then Comment(n, AtTop(TopEntry))
    else if r == '/' then Slash(input, n, AtTop(TopEntry), Looked(input, n))
    else if IsWhitespace(r) then n
    else if IsNL(r) || r == EOF || r == ';' || r == ',' || r == '}' then Goto(Ignore(n), AtTop(TopEntry))
    else Fail(n, "Expected a top-level value to end with a new line, comment or EOF")
  }

  // States in top-level braces.

  function LexBlockStart(input: string, l: Lex): Lex {
    var r, n := Char(input, l.pos), Next(input, l);
    if IsSpace(r) then Skip(n, InBlock(BlockStart))
    else if r == '{' then Skip(Down(n, InBlock(BlockEnd)), InBlock(BlockStart))
    else if r == '}' then Pop(Ignore(n))
    else if r == '#' then Comment(n, InBlock(BlockStart))
    else if r == '/' then Slash(input, n, InBlock(BlockStart), EndOfInput(input, Looked(input, n)))
    else if r == EOF then EndOfInput(input, n)
    else Goto(Down(Backup(n), InBlock(BlockValueEnd)), AtKey(KeyStart))
  }

  function LexBlockValueEnd(input: string, l: Lex): Lex {
    var r, n := Char(input, l.pos), Next(input, l);
    if r == '#' then Comment(n, InBlock(BlockValueEnd))
    else if r == '/' then Slash(input, n, InBlock(BlockValueEnd), Looked(input, n))
    else if IsWhitespace(r) then n
    else if IsNL(r) || r == ';' || r == ',' then Goto(Ignore(n), InBlock(BlockStart))
    else if r == '}' then Goto(Backup(n), InBlock(BlockEnd))
    else Fail(n, "Expected a block-level value to end with a new line, comment or EOF")
  }

  function LexBlockEnd(input: string, l: Lex): Lex {
    var r, n := Char(input, l.pos), Next(input, l);
    if r == '#' then Comment(n, InBlock(BlockStart))
    else if r == '/' then Slash(input, n, InBlock(BlockStart), Looked(input, n))
    else if IsNL(r) || IsWhitespace(r) then n
    else if r == ';' || r == ',' then Goto(Ignore(n), InBlock(BlockStart))
    else if r == '}' then Pop(Ignore(n))
    else Fail(n, "Expected a block-level to end with a '}'")
  }

  // Keys of top-level entries.

  function LexKeyStart(input: string, l: Lex): Lex {
    var r, n := Char(input, l.pos), Next(input, l);
    if IsKeySeparator(r) then Fail(l, "Unexpected key separator")
    else if IsSpace(r) then Skip(n, AtKey(KeyStart))
    else if r == '"' then Skip(n, AtKey(DubQuotedKey))
    else if r == '\'' then Skip(n, AtKey(QuotedKey))
    else Goto(Next(input, Ignore(l)), AtKey(KeyText))
  }

  /** The text of a quoted key; `quote` ends it. */
  function LexQuotedKey(input: string, l: Lex, quote: char): Lex {
    var r := Char(input, l.pos);
    if r == quote then Skip(Next(input, Emit(input, l, ItemKey)), KeyEnd)
    else if r == EOF then EndOfInput(input, l)
    else Next(input, l)
  }

  function LexKey(input: string, l: Lex): Lex {
    var r := Char(input, l.pos);
    if IsSpace(r) then
      if Strings.Lower(Text(input, l)) == "include" then Goto(Ignore(l), AtInclude(IncludeStart))
      else Goto(Emit(input, l, ItemKey), KeyEnd)
    else if IsKeySeparator(r) || r == EOF then Goto(Emit(input, l, ItemKey), KeyEnd)
    else Next(input, l)
  }

  function LexKeyEnd(input: string, l: Lex): Lex {
    var r, n := Char(input, l.pos), Next(input, l);
    if IsSpace(r) then Skip(n, KeyEnd)
    else if IsKeySeparator(r) then Skip(n, AtValue(ValueStart))
    else if r == EOF then Goto(Emit(input, n, ItemEOF), Stop)
    else Goto(Backup(n), AtValue(ValueStart))
  }

  // Includes.

  function LexIncludeStart(input: string, l: Lex): Lex {
    var r, n := Char(input, l.pos), Next(input, l);
    if IsWhitespace(r) then Skip(n, AtInclude(IncludeStart)) else Goto(Backup(n), AtInclude(IncludeValue))
  }

  function LexInclude(input: string, l: Lex): Lex {
    var r, n := Char(input, l.pos), Next(input, l);
    if r == '\'' then Goto(Ignore(n), AtInclude(IncludeQuotedString))
    else if r == '"' then Goto(Ignore(n), AtInclude(IncludeDubQuotedString))
    else if r == '[' || r == '{' || r == '(' || Strings.IsDigit(r) || r == '-' || r == '\\' || IsNL(r) then
      Fail(n, "Expected include value")
    else Goto(Backup(n), AtInclude(IncludeString))
  }

  /** Sends an include and drops the quote that ends it. */
  function EndQuotedInclude(input: string, l: Lex): Lex { Pop(Ignore(Next(input, Emit(input, l, ItemInclude)))) }

  function LexIncludeQuoted(input: string, l: Lex, quote: char): Lex {
    var r, n := Char(input, l.pos), Next(input, l);
    if r == quote then EndQuotedInclude(input, Backup(n))
    else if r == EOF then Fail(n, "Unexpected EOF in quoted include")
    else n
  }

  function LexIncludeString(input: string, l: Lex): Lex {
    var r, n := Char(input, l.pos), Next(input, l);
    if IsNL(r) || r == EOF || r == ';' || r == '}' || IsWhitespace(r) then Pop(Emit(input, Backup(n), ItemInclude))
    else if r == '\'' then EndQuotedInclude(input, Backup(n))
    else n
  }

  // Values.

  function LexValue(input: string, l: Lex): Lex {
    var r, n := Char(input, l.pos), Next(input, l);
    if IsWhitespace(r) then Skip(n, AtValue(ValueStart))
    else if r == '[' then Goto(Emit(input, Ignore(n), ItemArrayStart), InArray(ArrayValue))
    else if r == '{' then Goto(Emit(input, Ignore(n), ItemMapStart), InMap(MapKeyStart))
    else if r == '\'' then Goto(Ignore(n), AtValue(QuotedString))
    else if r == '"' then StringIn(Ignore(n), DubQuotedString)
    else PlainValue(n, r)
  }

  /** A value that no bracket or quote begins. */
  function PlainValue(n: Lex, r: char): Lex {
    if r == '-' then Goto(n, AtValue(NegNumberStart))
    else if r == '(' then Goto(Ignore(n), AtValue(BlockString))
    else if Strings.IsDigit(r) then Goto(Backup(n), AtValue(NumberStart))
    else if r == '.' || IsNL(r) then Fail(n, "Floats must start with a digit, and a value with something else than a new line")
    else StringIn(Backup(n), RawString)
  }

  /** Goes to a string state that escapes return to. */
  function StringIn(l: Lex, v: ValueState): Lex { l.(state := AtValue(v), stringState := AtValue(v)) }

  /** Sends a string and drops the quote that ends it. */
  function EndQuoted(input: string, l: Lex): Lex { Pop(Ignore(Next(input, EmitString(input, l)))) }

  function EndPlainQuoted(input: string, l: Lex): Lex { Pop(Ignore(Next(input, Emit(input, l, ItemString)))) }

  function LexQuotedString(input: string, l: Lex): Lex {
    var r, n := Char(input, l.pos), Next(input, l);
    if r == '\'' then EndPlainQuoted(input, Backup(n))
    else if r == EOF then EndOfInput(input, n)
    else n
  }

  /** Keeps the text before a backslash. */
  function Escape(input: string, l: Lex): Lex {
    l.(parts := l.parts + [Text(input, l.(pos := l.pos - 1))], start := l.pos, state := AtValue(StringEscape))
  }

  /** Keeps an escaped character and goes on with the string. */
  function Unescape(l: Lex, part: string): Lex { l.(parts := l.parts + [part], start := l.pos, state := l.stringState) }

  function LexDubQuotedString(input: string, l: Lex): Lex {
    var r, n := Char(input, l.pos), Next(input, l);
    if r == '\\' then Escape(input, n)
    else if r == '"' then EndQuoted(input, Backup(n))
    else if r == EOF then EndOfInput(input, n)
    else n
  }

  /** The end of an unquoted string: a boolean, a variable without its `$`, or a string. */
  function EndRawString(input: string, l: Lex): Lex {
    if l.parts != [] then Pop(EmitString(input, l))
    else if IsBool(Text(input, l)) then Pop(Emit(input, l, ItemBool))
    else if Char(input, l.start) == '$' then Pop(Emit(input, l.(start := l.start + 1), ItemVariable))
    else Pop(EmitString(input, l))
  }

  function LexString(input: string, l: Lex): Lex {
    var r, n := Char(input, l.pos), Next(input, l);
    if r == '\\' then Escape(input, n)
    else if IsNL(r) || r == EOF || r == ';' || r == ',' || r == ']' || r == '}' || IsWhitespace(r) then
      EndRawString(input, Backup(n))
    else if r == '\'' then EndQuoted(input, Backup(n))
    else n
  }

  /** A closing parenthesis on a line by itself ends a block. */
  function LexBlock(input: string, l: Lex): Lex {
    var r, n := Char(input, l.pos), Next(input, l);
    if r == ')' then
      var b := Backup(Backup(n));
      var n1 := Next(input, Next(input, b));
      if Char(input, b.pos) != '\n' then n1
      else
        var after, n2 := Char(input, n1.pos), Backup(Next(input, n1));
        if after == '\n' || after == EOF then EndPlainQuoted(input, Backup(n2)) else n2
    else if r == EOF then Fail(n, "Unexpected EOF processing block.")
    else n
  }

  function LexStringEscape(input: string, l: Lex): Lex {
    var r, n := Char(input, l.pos), Next(input, l);
    if r == 'x' then Goto(n, AtValue(StringBinary))
    else if r == 't' then Unescape(n, "\t")
    else if r == 'n' then Unescape(n, "\n")
    else if r == 'r' then Unescape(n, "\r")
    else if r == '"' then Unescape(n, "\"")
    else if r == '\\' then Unescape(n, "\\")
    else Fail(n, "Invalid escape character")
  }

  function LexStringBinary(input: string, l: Lex): Lex {
    var r, n := Char(input, l.pos), Next(input, l);
    var r1, n1 := Char(input, n.pos), Next(input, n);
    if IsNL(r) then Fail(n, "Expected two hexadecimal digits, but hit end of line")
    else if IsNL(r1) then Fail(n1, "Expected two hexadecimal digits, but hit end of line")
    else if !IsHex(Char(input, n1.pos - 2)) || !IsHex(Char(input, n1.pos - 1)) then Fail(n1, "Expected two hexadecimal digits")
    else Unescape(n1, [(16 * HexValue(Char(input, n1.pos - 2)) + HexValue(Char(input, n1.pos - 1))) as char])
  }

  // Numbers.

  /** At least one digit must come; then the number goes on in `number`. */
  function LexDigit(input: string, l: Lex, number: ValueState): Lex {
    var r, n := Char(input, l.pos), Next(input, l);
    if Strings.IsDigit(r) then Goto(n, AtValue(number)) else Fail(n, "Expected a digit")
  }

  function LexNumber(input: string, l: Lex): Lex {
    var r, n := Char(input, l.pos), Next(input, l);
    if r == '-' then
      if n.pos - n.start != 5 then Fail(n, "All ISO8601 dates must be in full Zulu form.")
      else Goto(n, AtValue(DateAfterYear))
    else if Strings.IsDigit(r) then n
    else if r == '.' then Goto(n, AtValue(FloatStart))
    else if IsNumberSuffix(r) then Goto(n, AtValue(ConvenientNumber))
    else if !EndsNumber(r) then StringIn(n, RawString)
    else Pop(Emit(input, Backup(n), ItemInteger))
  }

  function LexConvenientNumber(input: string, l: Lex): Lex {
    var r, n := Char(input, l.pos), Next(input, l);
    if r == 'b' || r == 'B' || r == 'i' || r == 'I' then n
    else if EndsNumber(r) then Pop(Emit(input, Backup(n), ItemInteger))
    else StringIn(Backup(n), RawString)
  }

  const DATE: string := "00-00T00:00:00Z"

  predicate DateChar(f: char, r: char) { if f == '0' then Strings.IsDigit(r) else r == f }

  /** The rest of a date from its `i`-th character on. */
  function LexDate(input: string, l: Lex, i: nat): Lex
    decreases |DATE| - i
  {
    if i >= |DATE| then Pop(Emit(input, l, ItemDatetime))
    else if DateChar(DATE[i], Char(input, l.pos)) then LexDate(input, Next(input, l), i + 1)
    else Fail(Next(input, l), "Expected another character in ISO8601 datetime")
  }

  function LexNegNumber(input: string, l: Lex): Lex {
    var r, n := Char(input, l.pos), Next(input, l);
    if Strings.IsDigit(r) then n
    else if r == '.' then Goto(n, AtValue(FloatStart))
    else if IsNumberSuffix(r) then Goto(n, AtValue(ConvenientNumber))
    else Pop(Emit(input, Backup(n), ItemInteger))
  }

  function LexFloat(input: string, l: Lex): Lex {
    var r, n := Char(input, l.pos), Next(input, l);
    if Strings.IsDigit(r) then n
    else if r == '.' then Goto(n, AtValue(IPAddr))
    else Pop(Emit(input, Backup(n), ItemFloat))
  }

  function LexIPAddr(input: string, l: Lex): Lex {
    var r, n := Char(input, l.pos), Next(input, l);
    if Strings.IsDigit(r) || r == '.' || r == ':' || r == '-' then n else Pop(Emit(input, Backup(n), ItemString))
  }

  // Arrays.

  function LexArrayValue(input: string, l: Lex): Lex {
    var r, n := Char(input, l.pos), Next(input, l);
    if IsSpace(r) then Skip(n, InArray(ArrayValue))
    else if r == '#' then Comment(n, InArray(ArrayValue))
    else if r == '/' then
      Slash(input, n, InArray(ArrayValue), Fail(Looked(input, n), "Unexpected array value terminator"))
    else if r == ',' then Fail(n, "Unexpected array value terminator")
    else if r == ']' then Goto(n, InArray(ArrayEnd))
    else Goto(Down(Backup(n), InArray(ArrayValueEnd)), AtValue(ValueStart))
  }

  function LexArrayValueEnd(input: string, l: Lex): Lex {
    var r, n := Char(input, l.pos), Next(input, l);
    if IsWhitespace(r) then Skip(n, InArray(ArrayValueEnd))
    else if r == '#' then Comment(n, InArray(ArrayValueEnd))
    else if r == '/' then Slash(input, n, InArray(ArrayValueEnd), Skip(Looked(input, n), InArray(ArrayValue)))
    else if r == ',' || IsNL(r) then Skip(n, InArray(ArrayValue))
    else if r == ']' then Goto(n, InArray(ArrayEnd))
    else Fail(n, "Expected an array value terminator or an array terminator")
  }

  function LexArrayEnd(input: string, l: Lex): Lex { Pop(Emit(input, Ignore(l), ItemArrayEnd)) }

  // Maps.

  function LexMapKeyStart(input: string, l: Lex): Lex {
    var r, n := Char(input, l.pos), Next(input, l);
    if IsKeySeparator(r) || r == ']' || r == EOF then
      Fail(l, "Unexpected key separator, array end or EOF processing map")
    else if IsSpace(r) then Skip(n, InMap(MapKeyStart))
    else if r == '}' then Skip(n, InMap(MapEnd))
    else if r == '#' then Comment(n, InMap(MapKeyStart))
    else if r == '/' then
      Slash(input, n, InMap(MapKeyStart), Goto(Next(input, Ignore(Looked(input, n))), InMap(MapKeyText)))
    else if r == '\'' then Skip(n, InMap(MapQuotedKey))
    else if r == '"' then Skip(n, InMap(MapDubQuotedKey))
    else Goto(Next(input, Ignore(l)), InMap(MapKeyText))
  }

  function LexMapQuotedKey(input: string, l: Lex, quote: char): Lex {
    var r := Char(input, l.pos);
    if r == EOF then Fail(l, "Unexpected EOF processing quoted map key.")
    else if r == quote then Skip(Next(input, Emit(input, l, ItemKey)), AfterKey(MapKeyEnd))
    else Next(input, l)
  }

  function LexMapKey(input: string, l: Lex): Lex {
    var r := Char(input, l.pos);
    if r == EOF then Fail(l, "Unexpected EOF processing map key.")
    else if IsSpace(r) then
      if Strings.Lower(Text(input, l)) == "include" then
        Goto(Down(Ignore(l), InMap(MapValueEnd)), AtInclude(IncludeStart))
      else Goto(Emit(input, l, ItemKey), AfterKey(MapKeyEnd))
    else if IsKeySeparator(r) then Goto(Emit(input, l, ItemKey), AfterKey(MapKeyEnd))
    else Next(input, l)
  }

  function LexMapKeyEnd(input: string, l: Lex): Lex {
    var r, n := Char(input, l.pos), Next(input, l);
    if IsSpace(r) then Skip(n, AfterKey(MapKeyEnd))
    else if IsKeySeparator(r) then Skip(n, AfterKey(MapValue))
    else Goto(Backup(n), AfterKey(MapValue))
  }

  function LexMapValue(input: string, l: Lex): Lex {
    var r, n := Char(input, l.pos), Next(input, l);
    if IsSpace(r) then Skip(n, AfterKey(MapValue))
    else if r == ',' then Fail(n, "Unexpected map value terminator")
    else if r == '}' then Skip(n, InMap(MapEnd))
    else Goto(Down(Backup(n), InMap(MapValueEnd)), AtValue(ValueStart))
  }

  function LexMapValueEnd(input: string, l: Lex): Lex {
    var r, n := Char(input, l.pos), Next(input, l);
    if IsWhitespace(r) then Skip(n, InMap(MapValueEnd))
    else if r == '#' then Comment(n, InMap(MapValueEnd))
    else if r == '/' then Slash(input, n, InMap(MapValueEnd), Skip(Looked(input, n), InMap(MapKeyStart)))
    else if r == ';' || r == ',' || IsNL(r) then Skip(n, InMap(MapKeyStart))
    else if r == '}' then Skip(n, InMap(MapEnd))
    else Fail(n, "Expected a map value terminator or a map terminator")
  }

  function LexMapEnd(input: string, l: Lex): Lex { Pop(Emit(input, Ignore(l), ItemMapEnd)) }

  // Comments.

  function LexCommentStart(input: string, l: Lex): Lex {
    Goto(Emit(input, Ignore(l), ItemCommentStart), InComment(CommentText))
  }

  function LexComment(input: string, l: Lex): Lex {
    var r := Char(input, l.pos);
    if IsNL(r) || r == EOF then Pop(Emit(input, l, ItemText)) else Next(input, l)
  }

  // The machine.

  function ValueStep(input: string, l: Lex, v: ValueState): Lex {
    match v
    case ValueStart => LexValue(input, l)
    case QuotedString => LexQuotedString(input, l)
    case DubQuotedString => LexDubQuotedString(input, l)
    case RawString => LexString(input, l)
    case BlockString => LexBlock(input, l)
    case StringEscape => LexStringEscape(input, l)
    case StringBinary => LexStringBinary(input, l)
    case NumberStart => LexDigit(input, l, Number)
    case Number => LexNumber(input, l)
    case ConvenientNumber => LexConvenientNumber(input, l)
    case DateAfterYear => LexDate(input, l, 0)
    case NegNumberStart => LexDigit(input, l, NegNumber)
    case NegNumber => LexNegNumber(input, l)
    case FloatStart => LexDigit(input, l, Float)
    case Float => LexFloat(input, l)
    case IPAddr => LexIPAddr(input, l)
  }

  function MapStep(input: string, l: Lex, m: MapState): Lex {
    match m
    case MapKeyStart => LexMapKeyStart(input, l)
    case MapQuotedKey => LexMapQuotedKey(input, l, '\'')
    case MapDubQuotedKey => LexMapQuotedKey(input, l, '"')
    case MapKeyText => LexMapKey(input, l)
    case MapValueEnd => LexMapValueEnd(input, l)
    case MapEnd => LexMapEnd(input, l)
  }

  function IncludeStep(input: string, l: Lex, i: IncludeState): Lex {
    match i
    case IncludeStart => LexIncludeStart(input, l)
    case IncludeQuotedString => LexIncludeQuoted(input, l, '\'')
    case IncludeDubQuotedString => LexIncludeQuoted(input, l, '"')
    case IncludeString => LexIncludeString(input, l)
    case IncludeValue => LexInclude(input, l)
  }

  function TopStep(input: string, l: Lex): Lex {
    match l.state
    case AtTop(s) => if s.TopEntry? then LexTop(input, l) else LexTopValueEnd(input, l)
    case InBlock(b) =>
      if b.BlockStart? then LexBlockStart(input, l)
      else if b.BlockValueEnd? then LexBlockValueEnd(input, l) else LexBlockEnd(input, l)
    case AtKey(k) =>
      if k.KeyStart? then LexKeyStart(input, l)
      else if k.KeyText? then LexKey(input, l)
      else LexQuotedKey(input, l, if k.DubQuotedKey? then '"' else '\'')
    case KeyEnd => LexKeyEnd(input, l)
    case _ => l
  }

  /** Runs the state function of the current state. */
  function Step(input: string, l: Lex): Lex {
    if l.skip then Ignore(l).(skip := false)
    else
      match l.state
      case InMap(m) => MapStep(input, l, m)
      case AfterKey(k) => if k.MapKeyEnd? then LexMapKeyEnd(input, l) else LexMapValue(input, l)
      case AtInclude(i) => IncludeStep(input, l, i)
      case AtValue(v) => ValueStep(input, l, v)
      case InArray(a) =>
        if a.ArrayValue? then LexArrayValue(input, l)
        else if a.ArrayValueEnd? then LexArrayValueEnd(input, l) else LexArrayEnd(input, l)
      case InComment(k) => if k.CommentStart? then LexCommentStart(input, l) else LexComment(input, l)
      case _ => TopStep(input, l)
  }

  // Runs.

  datatype Trace = Trace(lex: Lex, sent: seq<Item>)

  /** A step of a run, which takes the items sent out of the lexer. */
  function StepTrace(f: Lex -> Lex, r: Trace): Trace {
    if r.lex.state.Stop? then r else Trace(f(r.lex).(items := []), r.sent + f(r.lex).items)
  }

  /** Where `n` steps lead, and the items sent on the way. */
  function Run(f: Lex -> Lex, r: Trace, n: nat): Trace {
    if n == 0 then r else StepTrace(f, Run(f, r, n - 1))
  }

  lemma {:induction false} RunAdd(f: Lex -> Lex, r: Trace, m: nat, n: nat)
    ensures Run(f, r, m + n) == Run(f, Run(f, r, m), n)
    decreases n
  {
    if n > 0 {
      RunAdd(f, r, m, n - 1);
    }
  }

  /** What was sent before stays before. */
  lemma {:induction false} RunFrame(f: Lex -> Lex, l: Lex, before: seq<Item>, n: nat)
    ensures Run(f, Trace(l, before), n) == Trace(Run(f, Trace(l, []), n).lex, before + Run(f, Trace(l, []), n).sent)
    decreases n
  {
    if n == 0 {
      assert before + [] == before;
    } else {
      RunFrame(f, l, before, n - 1);
      var r := Run(f, Trace(l, []), n - 1);
      assert (before + r.sent) + f(r.lex).items == before + (r.sent + f(r.lex).items);
    }
  }

  lemma {:induction false} RunStopped(f: Lex -> Lex, r: Trace, n: nat)
    requires r.lex.state.Stop?
    ensures Run(f, r, n) == r
    decreases n
  {
    if n > 0 {
      RunStopped(f, r, n - 1);
    }
  }

  lemma {:induction false} RunGrows(f: Lex -> Lex, r: Trace, n: nat)
    ensures r.sent <= Run(f, r, n).sent
    decreases n
  {
    if n > 0 {
      RunGrows(f, r, n - 1);
    }
  }

  /** All runs to the end are the same, and what was sent before the end is a part of them. */
  lemma RunOnce(f: Lex -> Lex, r: Trace, m: nat, n: nat)
    requires Run(f, r, n).lex.state.Stop?
    ensures Run(f, r, m).sent <= Run(f, r, n).sent
    ensures Run(f, r, m).lex.state.Stop? ==> Run(f, r, m) == Run(f, r, n)
  {
    if m <= n {
      RunOn(f, r, m, n - m);
    } else {
      RunAdd(f, r, n, m - n);
      RunStopped(f, Run(f, r, n), m - n);
    }
  }

  lemma RunOn(f: Lex -> Lex, r: Trace, m: nat, k: nat)
    ensures Run(f, r, m).sent <= Run(f, r, m + k).sent
    ensures Run(f, r, m).lex.state.Stop? ==> Run(f, r, m) == Run(f, r, m + k)
  {
    var s := Run(f, r, m);
    RunAdd(f, r, m, k);
    RunGrows(f, s, k);
    if s.lex.state.Stop? {
      RunStopped(f, s, k);
    }
  }

  function Stepper(input: string): Lex -> Lex { l => Step(input, l) }

  ghost predicate IsStepper(input: string, f: Lex -> Lex) { forall l {:trigger Step(input, l)} :: f(l) == Step(input, l) }

  /** A run from the beginning. */
  function Lexed(f: Lex -> Lex, n: nat): Trace { Run(f, Trace(BEGIN, []), n) }

  lemma LexedMore(f: Lex -> Lex, n: nat, r: Trace, m: Lex)
    requires Lexed(f, n) == r && !r.lex.state.Stop? && m == f(r.lex)
    ensures Lexed(f, n + 1) == Trace(m.(items := []), r.sent + m.items)
  {
  }
}
