/** Whole configurations as trees: the stack machine of the parser stores exactly what a tree means, where names
are looked up in the blocks around them, and leaves its stacks as it found them.
 */
module ConfTree {
  import opened Basics
  import opened ConfItems
  import opened ConfParse
  import Strings

  datatype Tree = Leaf(item: Item) | ArrayOf(trees: Trees) | MapOf(entries: Entries)
  datatype Trees = NoTrees | AddTree(first: Tree, others: Trees)

  /** An entry of a map; a `Bare` key has no value. */
  datatype Entries = NoEntries | AddEntry(key: string, val: Tree, more: Entries) | AddBare(key: string, more: Entries)

  predicate Sound(t: Tree) {
    match t
    case Leaf(it) => Scalar(it.typ)
    case ArrayOf(ts) => AllSound(ts)
    case MapOf(es) => EntriesSound(es)
  }

  predicate AllSound(ts: Trees) {
    match ts
    case NoTrees => true
    case AddTree(t, more) => Sound(t) && AllSound(more)
  }

  predicate EntriesSound(es: Entries) {
    match es
    case NoEntries => true
    case AddEntry(_, t, more) => Sound(t) && EntriesSound(more)
    case AddBare(_, more) => EntriesSound(more)
  }

  // The items of a tree, as the lexer sends them.

  function Flatten(t: Tree): seq<Item> {
    match t
    case Leaf(it) => [it]
    case ArrayOf(ts) => [Item(ItemArrayStart, "")] + (FlattenAll(ts) + [Item(ItemArrayEnd, "")])
    case MapOf(es) => [Item(ItemMapStart, "")] + (FlattenEntries(es) + [Item(ItemMapEnd, "")])
  }

  function FlattenAll(ts: Trees): seq<Item> {
    match ts
    case NoTrees => []
    case AddTree(t, more) => Flatten(t) + FlattenAll(more)
  }

  function FlattenEntries(es: Entries): seq<Item> {
    match es
    case NoEntries => []
    case AddEntry(k, t, more) => [Item(ItemKey, k)] + (Flatten(t) + FlattenEntries(more))
    case AddBare(k, more) => [Item(ItemKey, k)] + FlattenEntries(more)
  }

  // The meaning of a tree inside the maps `scope`.  `Nothing`: a key is left without a value.  An integer with an
  // unknown suffix is no element of an array and leaves a key without a value in a map.

  function Meaning(lib: Library, scope: Stack<map<string, Value>>, t: Tree): Reading
    requires Sound(t)
    decreases t
  {
    match t
    case Leaf(it) => Convert(lib, scope, it)
    case ArrayOf(ts) => ArrayMeaning(lib, scope, [], ts)
    case MapOf(es) => MapMeaning(lib, scope, map[], es)
  }

  function ArrayMeaning(lib: Library, scope: Stack<map<string, Value>>, a: seq<Value>, ts: Trees): Reading
    requires AllSound(ts)
    decreases ts
  {
    match ts
    case NoTrees => Is(Arr(a))
    case AddTree(t, more) =>
      match Meaning(lib, scope, t)
      case Is(v) => ArrayMeaning(lib, scope, a + [v], more)
      case Bad => Bad
      case Nothing => if t.Leaf? then ArrayMeaning(lib, scope, a, more) else Nothing
  }

  function MapMeaning(lib: Library, scope: Stack<map<string, Value>>, m: map<string, Value>, es: Entries): Reading
    requires EntriesSound(es)
    decreases es
  {
    match es
    case NoEntries => Is(Obj(m))
    case AddEntry(k, t, more) => (
      match Meaning(lib, Push(m, scope), t)
      case Is(v) => MapMeaning(lib, scope, m[k := v], more)
      case other => other
    )
    case AddBare(_, _) => Nothing
  }

  // The machine computes the meaning.

  /** From a machine that can store a value, the items of a tree store what the tree means, or end in an error. */
  lemma {:induction false} TreeRuns(lib: Library, m: Machine, t: Tree)
    requires Sound(t) && CanSet(Shape(m))
    ensures match Meaning(lib, Scope(m.ctxs), t)
            case Is(v) => Run(lib, m, Flatten(t)) == Store(m, v)
            case Bad => Run(lib, m, Flatten(t)) == Err
            case Nothing => t.Leaf? ==> Run(lib, m, Flatten(t)) == Ok(m)
    decreases t
  {
    match t
    case Leaf(it) => RunOne(lib, m, it);
    case ArrayOf(ts) =>
      var m1 := m.(ctxs := Push(ArrCtx([]), m.ctxs));
      ElementsRun(lib, m, [], ts);
      Bracketed(lib, m, m1, ItemArrayStart, FlattenAll(ts), ItemArrayEnd);
    case MapOf(es) =>
      var m1 := m.(ctxs := Push(MapCtx(map[]), m.ctxs));
      EntriesRun(lib, m, map[], es);
      Bracketed(lib, m, m1, ItemMapStart, FlattenEntries(es), ItemMapEnd);
  }

  lemma Bracketed(lib: Library, m: Machine, m1: Machine, open: ItemType, items: seq<Item>, close: ItemType)
    requires !Scalar(open) && Apply(lib, m, Item(open, "")) == Ok(m1) && (close.ItemArrayEnd? || close.ItemMapEnd?)
    ensures Run(lib, m, [Item(open, "")] + (items + [Item(close, "")])) == Closed(Run(lib, m1, items))
  {
    var last := [Item(close, "")];
    RunFirst(lib, m, Item(open, ""), items + last);
    RunAppend(lib, m1, items, last);
    match Run(lib, m1, items)
    case Ok(n) => RunOne(lib, n, Item(close, ""));
    case _ =>
  }

  function Closed(o: Outcome): Outcome {
    match o
    case Ok(m) => Close(m)
    case other => other
  }

  lemma RunFirst(lib: Library, m: Machine, it: Item, items: seq<Item>)
    ensures Run(lib, m, [it] + items) == AndThen(lib, Apply(lib, m, it), items)
  {
    assert ([it] + items)[1..] == items;
  }

  /** The machine inside an array begun in `m` that holds `a`. */
  function Within(m: Machine, c: Context): Machine { m.(ctxs := Push(c, m.ctxs)) }

  lemma {:induction false} ElementsRun(lib: Library, m: Machine, a: seq<Value>, ts: Trees)
    requires AllSound(ts)
    ensures match ArrayMeaning(lib, Scope(m.ctxs), a, ts)
            case Is(v) => v.Arr? && Run(lib, Within(m, ArrCtx(a)), FlattenAll(ts)) == Ok(Within(m, ArrCtx(v.elems)))
            case Bad => Run(lib, Within(m, ArrCtx(a)), FlattenAll(ts)) == Err
            case Nothing => true
    decreases ts
  {
    match ts
    case NoTrees =>
    case AddTree(t, more) =>
      var n := Within(m, ArrCtx(a));
      TreeRuns(lib, n, t);
      RunAppend(lib, n, Flatten(t), FlattenAll(more));
      match Meaning(lib, Scope(m.ctxs), t)
      case Is(v) => ElementsRun(lib, m, a + [v], more);
      case Bad =>
      case Nothing => if t.Leaf? { ElementsRun(lib, m, a, more); }
  }

  lemma {:induction false} EntriesRun(lib: Library, m: Machine, f: map<string, Value>, es: Entries)
    requires EntriesSound(es)
    ensures match MapMeaning(lib, Scope(m.ctxs), f, es)
            case Is(v) => v.Obj? && Run(lib, Within(m, MapCtx(f)), FlattenEntries(es)) == Ok(Within(m, MapCtx(v.fields)))
            case Bad => Run(lib, Within(m, MapCtx(f)), FlattenEntries(es)) == Err
            case Nothing => true
    decreases es
  {
    match es
    case NoEntries =>
    case AddEntry(k, t, more) =>
      var n := Within(m, MapCtx(f));
      var keyed := n.(keys := Push(k, n.keys));
      RunFirst(lib, n, Item(ItemKey, k), Flatten(t) + FlattenEntries(more));
      TreeRuns(lib, keyed, t);
      RunAppend(lib, keyed, Flatten(t), FlattenEntries(more));
      match Meaning(lib, Scope(n.ctxs), t) {
        case Is(v) => EntriesRun(lib, m, f[k := v], more);
        case _ =>
      }
    case AddBare(_, _) =>
  }

  // A key left without a value.

  /** A tree whose items go through leaves the contexts open as they were and takes at most one key. */
  lemma {:induction false} TreeFollows(lib: Library, m: Machine, t: Tree, k: Track)
    requires Sound(t) && Follows(m, k) && CanSet(k)
    ensures var r := Run(lib, m, Flatten(t)); !r.Panics? && (r.Ok? ==> Follows(r.machine, Set(k)))
    decreases t
  {
    match t
    case Leaf(it) =>
      RunOne(lib, m, it);
      ScalarFollows(m, k, Convert(lib, Scope(m.ctxs), it));
    case ArrayOf(ts) =>
      var m1, k1 := Within(m, ArrCtx([])), k.(ctxs := Push(ArrayKind, k.ctxs));
      ElementsFollow(lib, m1, ts, k1);
      Bracketed(lib, m, m1, ItemArrayStart, FlattenAll(ts), ItemArrayEnd);
      var r := Run(lib, m1, FlattenAll(ts));
      if r.Ok? {
        CloseFollows(r.machine, k1, ArrayKind);
      }
    case MapOf(es) =>
      var m1, k1 := Within(m, MapCtx(map[])), k.(ctxs := Push(MapKind, k.ctxs));
      EntriesFollow(lib, m1, es, k1);
      Bracketed(lib, m, m1, ItemMapStart, FlattenEntries(es), ItemMapEnd);
      var r := Run(lib, m1, FlattenEntries(es));
      if r.Ok? {
        CloseFollows(r.machine, k1, MapKind);
      }
  }

  lemma {:induction false} ElementsFollow(lib: Library, m: Machine, ts: Trees, k: Track)
    requires AllSound(ts) && Follows(m, k) && k.ctxs.Push? && k.ctxs.top.ArrayKind?
    ensures var r := Run(lib, m, FlattenAll(ts)); !r.Panics? && (r.Ok? ==> Follows(r.machine, k))
    decreases ts
  {
    match ts
    case NoTrees =>
    case AddTree(t, more) =>
      TreeFollows(lib, m, t, k);
      RunAppend(lib, m, Flatten(t), FlattenAll(more));
      var r := Run(lib, m, Flatten(t));
      if r.Ok? {
        ElementsFollow(lib, r.machine, more, k);
      }
  }

  lemma {:induction false} EntriesFollow(lib: Library, m: Machine, es: Entries, k: Track)
    requires EntriesSound(es) && Follows(m, k) && k.ctxs.Push? && k.ctxs.top.MapKind?
    ensures var r := Run(lib, m, FlattenEntries(es)); !r.Panics? && (r.Ok? ==> Follows(r.machine, k))
    decreases es
  {
    match es
    case NoEntries =>
    case AddEntry(key, t, more) =>
      var keyed := m.(keys := Push(key, m.keys));
      RunFirst(lib, m, Item(ItemKey, key), Flatten(t) + FlattenEntries(more));
      TreeFollows(lib, keyed, t, k.(keys := k.keys + 1));
      RunAppend(lib, keyed, Flatten(t), FlattenEntries(more));
      var r := Run(lib, keyed, Flatten(t));
      if r.Ok? {
        EntriesFollow(lib, r.machine, more, k);
      }
    case AddBare(key, more) =>
      RunFirst(lib, m, Item(ItemKey, key), FlattenEntries(more));
      EntriesFollow(lib, m.(keys := Push(key, m.keys)), more, k);
  }

  /** A tree with a key left without a value leaves one key too many, or ends in an error. */
  lemma {:induction false} TreeStrays(lib: Library, m: Machine, t: Tree, k: Track)
    requires Sound(t) && Follows(m, k) && CanSet(k) && (t.Leaf? ==> k.ctxs.top.MapKind?)
    requires Meaning(lib, Scope(m.ctxs), t).Nothing?
    ensures var r := Run(lib, m, Flatten(t)); r.Ok? ==> Follows(r.machine, Set(k).(keys := Set(k).keys + 1))
    decreases t
  {
    match t
    case Leaf(it) => RunOne(lib, m, it);
    case ArrayOf(ts) =>
      var m1, k1 := Within(m, ArrCtx([])), k.(ctxs := Push(ArrayKind, k.ctxs));
      ElementsStray(lib, m, [], ts, k1);
      Bracketed(lib, m, m1, ItemArrayStart, FlattenAll(ts), ItemArrayEnd);
      var r := Run(lib, m1, FlattenAll(ts));
      if r.Ok? {
        CloseFollows(r.machine, k1.(keys := k1.keys + 1), ArrayKind);
      }
    case MapOf(es) =>
      var m1, k1 := Within(m, MapCtx(map[])), k.(ctxs := Push(MapKind, k.ctxs));
      EntriesStray(lib, m, map[], es, k1);
      Bracketed(lib, m, m1, ItemMapStart, FlattenEntries(es), ItemMapEnd);
      var r := Run(lib, m1, FlattenEntries(es));
      if r.Ok? {
        CloseFollows(r.machine, k1.(keys := k1.keys + 1), MapKind);
      }
  }

  lemma {:induction false} ElementsStray(lib: Library, m: Machine, a: seq<Value>, ts: Trees, k: Track)
    requires AllSound(ts) && Follows(Within(m, ArrCtx(a)), k)
    requires ArrayMeaning(lib, Scope(m.ctxs), a, ts).Nothing?
    ensures var r := Run(lib, Within(m, ArrCtx(a)), FlattenAll(ts)); r.Ok? ==> Follows(r.machine, k.(keys := k.keys + 1))
    decreases ts
  {
    match ts
    case AddTree(t, more) =>
      var n := Within(m, ArrCtx(a));
      TreeRuns(lib, n, t);
      RunAppend(lib, n, Flatten(t), FlattenAll(more));
      match Meaning(lib, Scope(m.ctxs), t)
      case Is(v) => ElementsStray(lib, m, a + [v], more, k);
      case Nothing =>
        if t.Leaf? {
          ElementsStray(lib, m, a, more, k);
        } else {
          TreeStrays(lib, n, t, k);
          var r := Run(lib, n, Flatten(t));
          if r.Ok? {
            ElementsFollow(lib, r.machine, more, k.(keys := k.keys + 1));
          }
        }
  }

  lemma {:induction false} EntriesStray(lib: Library, m: Machine, f: map<string, Value>, es: Entries, k: Track)
    requires EntriesSound(es) && Follows(Within(m, MapCtx(f)), k)
    requires MapMeaning(lib, Scope(m.ctxs), f, es).Nothing?
    ensures var r := Run(lib, Within(m, MapCtx(f)), FlattenEntries(es));
            r.Ok? ==> Follows(r.machine, k.(keys := k.keys + 1))
    decreases es
  {
    var n := Within(m, MapCtx(f));
    match es
    case AddEntry(key, t, more) =>
      var keyed := n.(keys := Push(key, n.keys));
      RunFirst(lib, n, Item(ItemKey, key), Flatten(t) + FlattenEntries(more));
      TreeRuns(lib, keyed, t);
      RunAppend(lib, keyed, Flatten(t), FlattenEntries(more));
      match Meaning(lib, Scope(n.ctxs), t) {
        case Is(v) => EntriesStray(lib, m, f[key := v], more, k);
        case Nothing =>
          TreeStrays(lib, keyed, t, k.(keys := k.keys + 1));
          var r := Run(lib, keyed, Flatten(t));
          if r.Ok? {
            EntriesFollow(lib, r.machine, more, k.(keys := k.keys + 1));
          }
      }
    case AddBare(key, more) =>
      RunFirst(lib, n, Item(ItemKey, key), FlattenEntries(more));
      EntriesFollow(lib, n.(keys := Push(key, n.keys)), more, k.(keys := k.keys + 1));
  }

  /** A configuration: the parser ends with its meaning and no key left exactly when it has a meaning; where an item
      is bad it ends in an error; and where a key is left without a value it ends in an error or with a key left.
   */
  lemma Configuration(lib: Library, es: Entries)
    requires EntriesSound(es)
    ensures var r := Run(lib, EMPTY, FlattenEntries(es));
            match MapMeaning(lib, Empty, map[], es)
            case Is(v) => v.Obj? && r == Ok(Machine(Push(MapCtx(v.fields), Empty), Empty))
            case Bad => r == Err
            case Nothing => r == Err || (r.Ok? && r.machine.keys != Empty)
  {
    var bare := Machine(Empty, Empty);
    EntriesRun(lib, bare, map[], es);
    EntriesFollow(lib, EMPTY, es, START);
    if MapMeaning(lib, Empty, map[], es).Nothing? {
      EntriesStray(lib, bare, map[], es, START);
    }
  }

  /** No key without a value: every key has one, and no integer that is the value of a key has an unknown suffix. */
  predicate Tidy(t: Tree) {
    match t
    case Leaf(it) => !(it.typ.ItemInteger? && Integer(it.val).Nothing?)
    case ArrayOf(ts) => AllTidy(ts)
    case MapOf(es) => EntriesTidy(es)
  }

  predicate AllTidy(ts: Trees) {
    match ts
    case NoTrees => true
    case AddTree(t, more) => (t.Leaf? || Tidy(t)) && AllTidy(more)
  }

  predicate EntriesTidy(es: Entries) {
    match es
    case NoEntries => true
    case AddEntry(_, t, more) => Tidy(t) && EntriesTidy(more)
    case AddBare(_, _) => false
  }

  lemma {:induction false} TidyMeaning(lib: Library, scope: Stack<map<string, Value>>, t: Tree)
    requires Sound(t)
    ensures if Tidy(t) then !Meaning(lib, scope, t).Nothing? else !Meaning(lib, scope, t).Is?
    decreases t
  {
    match t
    case Leaf(_) =>
    case ArrayOf(ts) => TidyElements(lib, scope, [], ts);
    case MapOf(es) => TidyEntries(lib, scope, map[], es);
  }

  lemma {:induction false} TidyElements(lib: Library, scope: Stack<map<string, Value>>, a: seq<Value>, ts: Trees)
    requires AllSound(ts)
    ensures if AllTidy(ts) then !ArrayMeaning(lib, scope, a, ts).Nothing? else !ArrayMeaning(lib, scope, a, ts).Is?
    decreases ts
  {
    match ts
    case NoTrees =>
    case AddTree(t, more) =>
      TidyMeaning(lib, scope, t);
      match Meaning(lib, scope, t)
      case Is(v) => TidyElements(lib, scope, a + [v], more);
      case Bad =>
      case Nothing => TidyElements(lib, scope, a, more);
  }

  lemma {:induction false} TidyEntries(lib: Library, scope: Stack<map<string, Value>>, f: map<string, Value>, es: Entries)
    requires EntriesSound(es)
    ensures if EntriesTidy(es) then !MapMeaning(lib, scope, f, es).Nothing? else !MapMeaning(lib, scope, f, es).Is?
    decreases es
  {
    match es
    case NoEntries =>
    case AddEntry(k, t, more) =>
      TidyMeaning(lib, Push(f, scope), t);
      match Meaning(lib, Push(f, scope), t) {
        case Is(v) => TidyEntries(lib, scope, f[k := v], more);
        case _ =>
      }
    case AddBare(_, _) =>
  }

  /** When the parser accepts, no key is left, and so every value is under its own key, exactly when the
      configuration is tidy.
   */
  lemma LeftoverExactly(lib: Library, es: Entries)
    requires EntriesSound(es)
    ensures var r := Run(lib, EMPTY, FlattenEntries(es));
            r.Ok? ==> (r.machine.keys == Empty <==> EntriesTidy(es))
    ensures var r := Run(lib, EMPTY, FlattenEntries(es));
            r.Ok? && EntriesTidy(es) ==>
              var v := MapMeaning(lib, Empty, map[], es);
              v.Is? && v.value.Obj? && r.machine.ctxs == Push(MapCtx(v.value.fields), Empty)
  {
    Configuration(lib, es);
    TidyEntries(lib, Empty, map[], es);
  }

  /** The map of `a` is stored under `b`, and `a` is lost, though the parser accepts. */
  lemma LeftoverKey(lib: Library)
    ensures var odd := AddEntry("b", Leaf(Item(ItemInteger, "1kbb")), NoEntries);
            Run(lib, EMPTY, FlattenEntries(AddEntry("a", MapOf(odd), NoEntries))) ==
            Ok(Machine(Push(MapCtx(map["b" := Obj(map[])]), Empty), Push("a", Empty)))
  {
    var n := Item(ItemInteger, "1kbb");
    var odd := AddEntry("b", Leaf(n), NoEntries);
    var m0 := EMPTY.(keys := Push("a", Empty));
    var m1 := Within(m0, MapCtx(map[]));
    var m2 := m1.(keys := Push("b", m1.keys));
    assert Convert(lib, Scope(m2.ctxs), n).Nothing? by { UnknownSuffix(); }
    assert Run(lib, m1, FlattenEntries(odd)) == Ok(m2) by {
      RunFirst(lib, m1, Item(ItemKey, "b"), [n] + []);
      RunAppend(lib, m2, [n], []);
      RunOne(lib, m2, n);
    }
    Bracketed(lib, m0, m1, ItemMapStart, FlattenEntries(odd), ItemMapEnd);
    var es := Flatten(MapOf(odd));
    RunFirst(lib, EMPTY, Item(ItemKey, "a"), es + []);
    RunAppend(lib, m0, es, []);
  }

  lemma UnknownSuffix()
    ensures Integer("1kbb").Nothing?
  {
    var s := "1kbb";
    assert s[1..] == "kbb" && s[..1] == "1";
    assert Digits(s) == 1 by { assert Digits("kbb") == 0; }
    assert Decimal("1") == Some(1) by {
      assert "1"[..0] == "";
      assert Strings.Read("") == 0;
    }
    assert Strings.Lower(TrimSpace("kbb")) == "kbb";
  }
}
