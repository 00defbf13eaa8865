/** What the configuration parser does with the items it is sent (conf/parse.go), as a machine with a stack of
open maps and arrays and a stack of keys, and what a whole tree of items means.

Strict checking is off.  Floats, dates, included files and the environment are given by a `Library`.
 */
module ConfParse {
  import opened Basics
  import opened ConfItems
  import Strings

  datatype Value =
    | Str(text: string) | Int(num: int) | Bool(on: bool) | Other(repr: string)
    | Arr(elems: seq<Value>) | Obj(fields: map<string, Value>)

  datatype Context = ArrCtx(elems: seq<Value>) | MapCtx(fields: map<string, Value>)

  /** `Panics` is the source's panic on an empty stack. */
  datatype Outcome = Ok(machine: Machine) | Err | Panics

  datatype Machine = Machine(ctxs: Stack<Context>, keys: Stack<string>)

  /** What a scalar is: a value, an error, or nothing at all. */
  datatype Reading = Is(value: Value) | Bad | Nothing

  datatype Library = Library(
    float: string -> Option<Value>,
    date: string -> Option<Value>,
    file: string -> Option<map<string, Value>>,
    env: string -> Option<Value>)

  const EMPTY: Machine := Machine(Push(MapCtx(map[]), Empty), Empty)

  // Integers.

  function Digits(s: string): nat {
    if s == [] || !(Strings.IsDigit(s[0]) || s[0] == '-') then 0 else 1 + Digits(s[1..])
  }

  lemma {:induction false} DigitsBound(s: string)
    ensures Digits(s) <= |s|
  {
    if s != [] {
      DigitsBound(s[1..]);
    }
  }

  function Decimal(s: string): Option<int> {
    if Strings.AllDigits(s) then Some(Strings.Read(s)) else None
  }

  /** Base ten, 64 bits; nothing if malformed or out of range. */
  function ParseInt(s: string): (v: Option<int>)
    ensures v.Some? ==> -MAX_INT - 1 <= v.value <= MAX_INT
  {
    if s == [] || s == "-" then None
    else if s[0] == '-' then
      match Decimal(s[1..]) {
        case None => None
        case Some(n) => if n <= MAX_INT + 1 then Some(-n) else None
      }
    else
      match Decimal(s) {
        case None => None
        case Some(n) => if n <= MAX_INT then Some(n) else None
      }
  }

  /** What a suffix multiplies by. */
  function Multiplier(suffix: string): Option<int> {
    if suffix == "" then Some(1)
    else if suffix == "k" then Some(1_000)
    else if suffix in {"kb", "ki", "kib"} then Some(0x400)
    else if suffix == "m" then Some(1_000_000)
    else if suffix in {"mb", "mi", "mib"} then Some(0x10_0000)
    else if suffix == "g" then Some(1_000_000_000)
    else if suffix in {"gb", "gi", "gib"} then Some(0x4000_0000)
    else if suffix == "t" then Some(1_000_000_000_000)
    else if suffix in {"tb", "ti", "tib"} then Some(0x100_0000_0000)
    else if suffix == "p" then Some(1_000_000_000_000_000)
    else if suffix in {"pb", "pi", "pib"} then Some(0x4_0000_0000_0000)
    else if suffix == "e" then Some(1_000_000_000_000_000_000)
    else if suffix in {"eb", "ei", "eib"} then Some(0x1000_0000_0000_0000)
    else None
  }

  predicate IsBlank(r: char) { r == ' ' || '\t' <= r <= '\r' || r as int == 0x85 || r as int == 0xA0 }

  function TrimSpace(s: string): string {
    if s == [] then []
    else if IsBlank(s[0]) then TrimSpace(s[1..])
    else if IsBlank(s[|s| - 1]) then TrimSpace(s[..|s| - 1])
    else s
  }

  /** The source does nothing with an integer whose suffix it does not know. */
  function Integer(s: string): Reading {
    DigitsBound(s);
    var n := Digits(s);
    match ParseInt(s[..n])
    case None => Bad
    case Some(v) =>
      match Multiplier(Strings.Lower(TrimSpace(s[n..])))
      case None => Nothing
      case Some(k) => Is(Int(Wrap(v * k)))
  }

  function Boolean(s: string): Reading {
    var l := Strings.Lower(s);
    if l in {"true", "yes", "on"} then Is(Bool(true))
    else if l in {"false", "no", "off"} then Is(Bool(false))
    else Bad
  }

  function OrBad(v: Option<Value>): Reading {
    match v
    case None => Bad
    case Some(x) => Is(x)
  }

  // Variables.

  /** Searches maps from the innermost outwards. */
  function Search(scope: Stack<map<string, Value>>, name: string): Option<Value> {
    match scope
    case Empty => None
    case Push(m, rest) => if name in m then Some(m[name]) else Search(rest, name)
  }

  /** A raw bcrypt hash is itself; otherwise the open maps are searched and then the environment. */
  function Variable(lib: Library, scope: Stack<map<string, Value>>, name: string): Option<Value> {
    if "2a$" <= name then Some(Str("$" + name))
    else
      match Search(scope, name)
      case Some(v) => Some(v)
      case None => lib.env(name)
  }

  /** The open maps. */
  function Scope(ctxs: Stack<Context>): Stack<map<string, Value>> {
    match ctxs
    case Empty => Empty
    case Push(ArrCtx(_), rest) => Scope(rest)
    case Push(MapCtx(m), rest) => Push(m, Scope(rest))
  }

  function Convert(lib: Library, scope: Stack<map<string, Value>>, it: Item): Reading
    requires Scalar(it.typ)
  {
    match it.typ
    case ItemString => Is(Str(it.val))
    case ItemInteger => Integer(it.val)
    case ItemFloat => OrBad(lib.float(it.val))
    case ItemBool => Boolean(it.val)
    case ItemDatetime => OrBad(lib.date(it.val))
    case ItemVariable => OrBad(Variable(lib, scope, it.val))
  }

  // The machine.

  function Kinds(ctxs: Stack<Context>): Stack<Kind> {
    match ctxs
    case Empty => Empty
    case Push(c, rest) => Push(if c.ArrCtx? then ArrayKind else MapKind, Kinds(rest))
  }

  function Depth<T>(s: Stack<T>): nat {
    match s
    case Empty => 0
    case Push(_, rest) => 1 + Depth(rest)
  }

  /** What an item's type can change. */
  function Shape(m: Machine): Track { Track(Kinds(m.ctxs), Depth(m.keys), false) }

  /** Puts a value in the innermost context. */
  function Store(m: Machine, v: Value): Outcome {
    match m.ctxs
    case Empty => Ok(m)
    case Push(ArrCtx(a), rest) => Ok(m.(ctxs := Push(ArrCtx(a + [v]), rest)))
    case Push(MapCtx(f), rest) =>
      match m.keys
      case Empty => Panics
      case Push(k, keys) => Ok(Machine(Push(MapCtx(f[k := v]), rest), keys))
  }

  /** The innermost context is closed and becomes a value of the one around it, which must be there. */
  function Close(m: Machine): Outcome {
    match m.ctxs
    case Empty => Panics
    case Push(_, Empty) => Panics
    case Push(MapCtx(f), rest) => Store(m.(ctxs := rest), Obj(f))
    case Push(ArrCtx(a), rest) => Store(m.(ctxs := rest), Arr(a))
  }

  function StoreScalar(m: Machine, s: Reading): Outcome {
    match s
    case Is(v) => Store(m, v)
    case Bad => Err
    case Nothing => Ok(m)
  }

  /** An include stores each entry of the file in the innermost map. */
  function Include(m: Machine, file: Option<map<string, Value>>): Outcome {
    if file.None? then Err
    else if m.ctxs.Push? && m.ctxs.top.MapCtx? then
      Ok(m.(ctxs := Push(MapCtx(m.ctxs.top.fields + file.value), m.ctxs.rest)))
    else Panics
  }

  function Apply(lib: Library, m: Machine, it: Item): Outcome {
    if Scalar(it.typ) then StoreScalar(m, Convert(lib, Scope(m.ctxs), it))
    else
      match it.typ
      case ItemError => Err
      case ItemKey => Ok(m.(keys := Push(it.val, m.keys)))
      case ItemMapStart => Ok(m.(ctxs := Push(MapCtx(map[]), m.ctxs)))
      case ItemArrayStart => Ok(m.(ctxs := Push(ArrCtx([]), m.ctxs)))
      case ItemMapEnd => Close(m)
      case ItemArrayEnd => Close(m)
      case ItemInclude => Include(m, lib.file(it.val))
      case _ => Ok(m)
  }

  function Run(lib: Library, m: Machine, items: seq<Item>): Outcome
    decreases |items|
  {
    if items == [] then Ok(m)
    else
      match Apply(lib, m, items[0])
      case Ok(n) => Run(lib, n, items[1..])
      case other => other
  }

  function AndThen(lib: Library, o: Outcome, items: seq<Item>): Outcome {
    match o
    case Ok(m) => Run(lib, m, items)
    case other => other
  }

  lemma {:induction false} RunAppend(lib: Library, m: Machine, a: seq<Item>, b: seq<Item>)
    ensures Run(lib, m, a + b) == AndThen(lib, Run(lib, m, a), b)
    decreases |a|
  {
    if a == [] {
      assert a + b == b;
    } else {
      assert (a + b)[0] == a[0] && (a + b)[1..] == a[1..] + b;
      match Apply(lib, m, a[0])
      case Ok(n) => RunAppend(lib, n, a[1..], b);
      case _ =>
    }
  }

  lemma RunOne(lib: Library, m: Machine, it: Item)
    ensures Run(lib, m, [it]) == Apply(lib, m, it)
  {
    assert [it][1..] == [];
    match Apply(lib, m, it)
    case Ok(n) => assert Run(lib, n, [it][1..]) == Ok(n);
    case _ =>
  }

  // No item that can be taken makes the machine panic.

  /** The machine's stacks are at least those tracked: the contexts alike, the keys no fewer. */
  predicate Follows(m: Machine, t: Track) { Kinds(m.ctxs) == t.ctxs && Depth(m.keys) >= t.keys }

  lemma StoreFollows(m: Machine, t: Track, v: Value)
    requires Follows(m, t) && CanSet(t)
    ensures Store(m, v).Ok? && Follows(Store(m, v).machine, Set(t))
  {
  }

  lemma CloseFollows(m: Machine, t: Track, kind: Kind)
    requires Follows(m, t) && CanClose(t, kind)
    ensures Close(m).Ok? && Follows(Close(m).machine, Set(t.(ctxs := t.ctxs.rest)))
  {
    var c := m.ctxs.top;
    StoreFollows(m.(ctxs := m.ctxs.rest), t.(ctxs := t.ctxs.rest), if c.MapCtx? then Obj(c.fields) else Arr(c.elems));
  }

  lemma ScalarFollows(m: Machine, t: Track, s: Reading)
    requires Follows(m, t) && CanSet(t)
    ensures var r := StoreScalar(m, s); !r.Panics? && (r.Ok? ==> Follows(r.machine, Set(t)))
  {
    if s.Is? {
      StoreFollows(m, t, s.value);
    }
  }

  lemma ApplyFollows(lib: Library, m: Machine, t: Track, it: Item)
    requires Follows(m, t) && CanTake(t, it.typ)
    ensures var r := Apply(lib, m, it); !r.Panics? && (r.Ok? ==> Follows(r.machine, Take(t, it.typ)))
  {
    if Scalar(it.typ) {
      ScalarFollows(m, t, Convert(lib, Scope(m.ctxs), it));
    } else if it.typ.ItemMapEnd? {
      CloseFollows(m, t, MapKind);
    } else if it.typ.ItemArrayEnd? {
      CloseFollows(m, t, ArrayKind);
    }
  }

  function Types(items: seq<Item>): seq<ItemType> {
    seq(|items|, i requires 0 <= i < |items| => items[i].typ)
  }

  /** A stream every prefix of which can be taken never makes the parser panic, whatever the items hold. */
  lemma {:induction false} RunNeverPanics(lib: Library, items: seq<Item>)
    requires TakeAll(Types(items)).Some?
    ensures var r := Run(lib, EMPTY, items); !r.Panics? && (r.Ok? ==> Follows(r.machine, TakeAll(Types(items)).value))
    decreases |items|
  {
    if items != [] {
      var init, last := items[..|items| - 1], items[|items| - 1];
      assert Types(items)[..|items| - 1] == Types(init);
      RunNeverPanics(lib, init);
      assert items == init + [last];
      RunAppend(lib, EMPTY, init, [last]);
      match Run(lib, EMPTY, init) {
        case Ok(n) =>
          ApplyFollows(lib, n, TakeAll(Types(init)).value, last);
          RunOne(lib, n, last);
        case _ =>
      }
    }
  }
}
