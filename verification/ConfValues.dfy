/** What the text of a configuration means, said of what was written and not of how it is read: strings are themselves,
numbers with a unit are multiples of a power, and six words in any case are the two truth values.
 */
module ConfValues {
  import opened Basics
  import opened ConfItems
  import ConfLex
  import ConfNumbers
  import opened ConfParse
  import opened ConfPrint
  import opened ConfRoundTrip
  import opened ConfTree
  import Strings

  // What is written.

  /** A size is a number with a unit, whose letter `tail` follows; its suffix and a truth value may be in any case. */
  datatype Written =
    | Text(text: string)
    | Number(n: int)
    | Size(count: int, unit: nat, tail: string, suffix: string)
    | Truth(on: bool, word: string)
    | List(elems: Elems)
    | Table(fields: Fields)

  datatype Elems = NoElems | AddElem(elem: Written, others: Elems)

  datatype Fields = NoFields | AddField(key: string, value: Written, more: Fields)

  const UNITS := "kmgtpe"

  predicate Proper(w: Written) {
    match w
    case Text(text) => PlainText(text)
    case Number(_) => true
    case Size(_, unit, tail, suffix) =>
      unit < 6 && tail in {"", "b", "i", "ib"} && Strings.Lower(suffix) == [UNITS[unit]] + tail
    case Truth(on, word) => Strings.Lower(word) in if on then {"true", "yes", "on"} else {"false", "no", "off"}
    case List(elems) => AllProper(elems)
    case Table(fields) => FieldsProper(fields)
  }

  predicate AllProper(es: Elems) {
    match es
    case NoElems => true
    case AddElem(e, others) => Proper(e) && AllProper(others)
  }

  predicate FieldsProper(fs: Fields) {
    match fs
    case NoFields => true
    case AddField(k, v, more) => IsKey(k) && Proper(v) && FieldsProper(more)
  }

  // What it means.

  function Pow(b: nat, e: nat): nat { if e == 0 then 1 else b * Pow(b, e - 1) }

  /** A letter alone counts in thousands, one with `b` or `i` after it in powers of two. */
  function UnitOf(unit: nat, tail: string): nat { Pow(if tail == "" then 1000 else 1024, unit + 1) }

  /** Nothing if a number in it has more than 64 bits; a size wraps around at 64 bits. */
  function Denoted(w: Written): Option<Value>
    decreases w
  {
    match w
    case Text(text) => Some(Str(text))
    case Number(n) => if -MAX_INT - 1 <= n <= MAX_INT then Some(Int(n)) else None
    case Size(n, unit, tail, _) => if -MAX_INT - 1 <= n <= MAX_INT then Some(Int(Wrap(n * UnitOf(unit, tail)))) else None
    case Truth(on, _) => Some(Bool(on))
    case List(elems) => ListDenoted([], elems)
    case Table(fields) => TableDenoted(map[], fields)
  }

  function ListDenoted(before: seq<Value>, es: Elems): Option<Value>
    decreases es
  {
    match es
    case NoElems => Some(Arr(before))
    case AddElem(e, others) =>
      match Denoted(e)
      case None => None
      case Some(v) => ListDenoted(before + [v], others)
  }

  /** A key written twice has what was written last. */
  function TableDenoted(before: map<string, Value>, fs: Fields): Option<Value>
    decreases fs
  {
    match fs
    case NoFields => Some(Obj(before))
    case AddField(k, w, more) =>
      match Denoted(w)
      case None => None
      case Some(v) => TableDenoted(before[k := v], more)
  }

  // How it is written.

  function TreeOf(w: Written): Tree {
    match w
    case Text(text) => Leaf(Item(ItemString, text))
    case Number(n) => Leaf(Item(ItemInteger, NumberText(n)))
    case Size(n, _, _, suffix) => Leaf(Item(ItemInteger, NumberText(n) + suffix))
    case Truth(_, word) => Leaf(Item(ItemBool, word))
    case List(elems) => ArrayOf(TreesOf(elems))
    case Table(fields) => MapOf(EntriesOf(fields))
  }

  function TreesOf(es: Elems): Trees {
    match es
    case NoElems => NoTrees
    case AddElem(e, others) => AddTree(TreeOf(e), TreesOf(others))
  }

  function EntriesOf(fs: Fields): Entries {
    match fs
    case NoFields => NoEntries
    case AddField(k, v, more) => AddEntry(k, TreeOf(v), EntriesOf(more))
  }

  // Sizes.

  lemma PowSteps(b: nat)
    ensures Pow(b, 1) == b && Pow(b, 2) == b * b && Pow(b, 3) == b * (b * b) && Pow(b, 4) == b * (b * (b * b))
    ensures Pow(b, 5) == b * (b * (b * (b * b))) && Pow(b, 6) == b * (b * (b * (b * (b * b))))
  {
    assert Pow(b, 1) == b * Pow(b, 0);
    assert Pow(b, 2) == b * Pow(b, 1);
    assert Pow(b, 3) == b * Pow(b, 2);
    assert Pow(b, 4) == b * Pow(b, 3);
    assert Pow(b, 5) == b * Pow(b, 4);
    assert Pow(b, 6) == b * Pow(b, 5);
  }

  lemma LetterAlone(unit: nat)
    requires unit < 6
    ensures Multiplier([UNITS[unit]]) == Some(UnitOf(unit, ""))
  {
    PowSteps(1000);
    assert UNITS == ['k', 'm', 'g', 't', 'p', 'e'];
  }

  lemma Tails(c: char, tail: string)
    requires tail in {"b", "i", "ib"}
    ensures [c] + tail in {[c, 'b'], [c, 'i'], [c, 'i', 'b']}
  {
    assert [c] + "b" == [c, 'b'] && [c] + "i" == [c, 'i'] && [c] + "ib" == [c, 'i', 'b'];
  }

  lemma LetterAnd(unit: nat, tail: string)
    requires unit < 6 && tail in {"b", "i", "ib"}
    ensures Multiplier([UNITS[unit]] + tail) == Some(UnitOf(unit, tail))
  {
    PowSteps(1024);
    var text := [UNITS[unit]] + tail;
    assert UNITS == ['k', 'm', 'g', 't', 'p', 'e'];
    Tails(UNITS[unit], tail);
    assert unit == 0 ==> text in {"kb", "ki", "kib"};
    assert unit == 1 ==> text in {"mb", "mi", "mib"};
    assert unit == 2 ==> text in {"gb", "gi", "gib"};
    assert unit == 3 ==> text in {"tb", "ti", "tib"};
    assert unit == 4 ==> text in {"pb", "pi", "pib"};
    assert unit == 5 ==> text in {"eb", "ei", "eib"};
  }

  /** The table of suffixes: the `i`-th letter stands for the `i`-th power. */
  lemma MultiplierIs(unit: nat, tail: string)
    requires unit < 6 && tail in {"", "b", "i", "ib"}
    ensures Multiplier([UNITS[unit]] + tail) == Some(UnitOf(unit, tail))
  {
    if tail == "" {
      LetterAlone(unit);
      assert [UNITS[unit]] + "" == [UNITS[unit]];
    } else {
      LetterAnd(unit, tail);
    }
  }

  lemma {:induction false} DigitsThen(d: string, rest: string)
    requires (forall i :: 0 <= i < |d| ==> Strings.IsDigit(d[i]) || d[i] == '-')
    requires rest != "" && !Strings.IsDigit(rest[0]) && rest[0] != '-'
    ensures ConfParse.Digits(d + rest) == |d|
  {
    if d == "" {
      assert d + rest == rest;
    } else {
      assert (d + rest)[1..] == d[1..] + rest;
      DigitsThen(d[1..], rest);
    }
  }

  lemma {:induction false} LeadingThen(d: string, rest: string)
    requires Strings.AllDigits(d) && rest != "" && !Strings.IsDigit(rest[0])
    ensures ConfNumbers.Leading(d + rest) == |d|
  {
    if d == "" {
      assert d + rest == rest;
    } else {
      assert (d + rest)[1..] == d[1..] + rest;
      LeadingThen(d[1..], rest);
    }
  }

  lemma NoBlanks(s: string)
    requires s != "" && !IsBlank(s[0]) && !IsBlank(s[|s| - 1])
    ensures TrimSpace(s) == s
  {
  }

  /** The letters of a suffix. */
  lemma SuffixLetters(unit: nat, tail: string, suffix: string)
    requires unit < 6 && tail in {"", "b", "i", "ib"} && Strings.Lower(suffix) == [UNITS[unit]] + tail
    ensures suffix != "" && ConfLex.IsNumberSuffix(suffix[0])
    ensures forall i :: 0 < i < |suffix| ==> ConfNumbers.SizeLetter(suffix[i])
  {
    var l := Strings.Lower(suffix);
    assert |l| == |suffix| == 1 + |tail|;
    assert l[0] == UNITS[unit];
    assert UNITS == ['k', 'm', 'g', 't', 'p', 'e'];
    forall i | 0 < i < |suffix|
      ensures ConfNumbers.SizeLetter(suffix[i])
    {
      assert l[i] == tail[i - 1] && (tail[i - 1] == 'b' || tail[i - 1] == 'i');
    }
  }

  lemma SizedWritten(d: string, suffix: string)
    requires d != "" && Strings.AllDigits(d) && suffix != "" && ConfLex.IsNumberSuffix(suffix[0])
    requires forall i :: 0 < i < |suffix| ==> ConfNumbers.SizeLetter(suffix[i])
    ensures Sized(d + suffix)
  {
    LeadingThen(d, suffix);
    var s := d + suffix;
    assert s[|d|] == suffix[0] && forall i :: |d| < i < |s| ==> s[i] == suffix[i - |d|];
  }

  lemma SizeWritten(n: int, suffix: string)
    requires suffix != "" && ConfLex.IsNumberSuffix(suffix[0])
    requires forall i :: 0 < i < |suffix| ==> ConfNumbers.SizeLetter(suffix[i])
    ensures SizeText(NumberText(n) + suffix)
  {
    var d := Strings.Decimal(if n < 0 then -n else n);
    SizedWritten(d, suffix);
    if n < 0 {
      MinusSized(d + suffix);
      assert NumberText(n) + suffix == "-" + (d + suffix);
    }
  }

  lemma MinusSized(s: string)
    requires Sized(s)
    ensures SizeText("-" + s)
  {
    assert ("-" + s)[1..] == s;
  }

  /** A number and a suffix are read as that many units, wrapped to 64 bits, unless the number alone has more. */
  lemma SizeBack(n: int, unit: nat, tail: string, suffix: string)
    requires unit < 6 && tail in {"", "b", "i", "ib"} && Strings.Lower(suffix) == [UNITS[unit]] + tail
    ensures SizeText(NumberText(n) + suffix)
    ensures Integer(NumberText(n) + suffix) ==
            if -MAX_INT - 1 <= n <= MAX_INT then Is(Int(Wrap(n * UnitOf(unit, tail)))) else Bad
  {
    var d := NumberText(n);
    var s := d + suffix;
    SuffixLetters(unit, tail, suffix);
    SizeWritten(n, suffix);
    ParseBack(n);
    DigitsThen(d, suffix);
    assert s[..|d|] == d && s[|d|..] == suffix;
    NoBlanks(suffix);
    MultiplierIs(unit, tail);
  }

  /** Six words are truth values, in any case. */
  lemma TruthBack(on: bool, word: string)
    requires Strings.Lower(word) in if on then {"true", "yes", "on"} else {"false", "no", "off"}
    ensures ConfLex.IsBool(word) && Boolean(word) == Is(Bool(on))
  {
  }

  // Everything.

  function Read(v: Option<Value>): Reading {
    match v
    case None => Bad
    case Some(x) => Is(x)
  }

  /** What is written means what it denotes, and is bad exactly if it denotes nothing. */
  lemma {:induction false} Means(lib: Library, scope: Stack<map<string, Value>>, w: Written)
    requires Proper(w)
    ensures Printable(TreeOf(w)) && Sound(TreeOf(w)) && Meaning(lib, scope, TreeOf(w)) == Read(Denoted(w))
    decreases w
  {
    match w
    case Text(_) =>
    case Number(n) => NumberBack(n);
    case Size(n, unit, tail, suffix) => SizeBack(n, unit, tail, suffix);
    case Truth(on, word) => TruthBack(on, word);
    case List(elems) => ElemsMean(lib, scope, [], elems);
    case Table(fields) => FieldsMean(lib, scope, map[], fields);
  }

  lemma {:induction false} ElemsMean(lib: Library, scope: Stack<map<string, Value>>, before: seq<Value>, es: Elems)
    requires AllProper(es)
    ensures AllPrintable(TreesOf(es)) && AllSound(TreesOf(es))
    ensures ArrayMeaning(lib, scope, before, TreesOf(es)) == Read(ListDenoted(before, es))
    decreases es
  {
    match es
    case NoElems =>
    case AddElem(e, others) =>
      Means(lib, scope, e);
      ElemsMean(lib, scope, if Denoted(e).Some? then before + [Denoted(e).value] else before, others);
  }

  lemma {:induction false} FieldsMean(lib: Library, scope: Stack<map<string, Value>>, before: map<string, Value>, fs: Fields)
    requires FieldsProper(fs)
    ensures EntriesPrintable(EntriesOf(fs)) && EntriesSound(EntriesOf(fs))
    ensures MapMeaning(lib, scope, before, EntriesOf(fs)) == Read(TableDenoted(before, fs))
    decreases fs
  {
    match fs
    case NoFields =>
    case AddField(k, w, more) =>
      Means(lib, Push(before, scope), w);
      FieldsMean(lib, scope, if Denoted(w).Some? then before[k := Denoted(w).value] else before, more);
  }

  /** Parsing the text of what was written gives back the values that were written, and it is accepted exactly if no number
      in it has more than 64 bits.
   */
  method ParseValues(fs: Fields, lib: Library, pedantic: bool) returns (ok: bool, fields: map<string, Value>)
    requires FieldsProper(fs)
    ensures ok <==> TableDenoted(map[], fs).Some?
    ensures ok ==> TableDenoted(map[], fs) == Some(Obj(fields))
  {
    FieldsMean(lib, Empty, map[], fs);
    var left;
    ok, fields, left := ParseWritten(EntriesOf(fs), lib, pedantic);
  }
}
