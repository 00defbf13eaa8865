/** When a configuration that is accepted leaves a key on the parser's stack: for every stream of items that the lexer
can send, with comments, includes and braces, and whether or not it ends with maps and arrays still open.
 */
module ConfLeftover {
  import opened Basics
  import opened ConfItems
  import opened ConfParse
  import opened ConfParser

  /** An item that begins a value which is stored in the end. */
  predicate Stores(it: Item) {
    it.typ.ItemMapStart? || it.typ.ItemArrayStart? || (Scalar(it.typ) && !(it.typ.ItemInteger? && Integer(it.val).Nothing?))
  }

  /** Every key is followed by a value that is stored. */
  predicate AllStored(items: seq<Item>) {
    forall i :: 0 <= i < |items| && items[i].typ.ItemKey? ==> i + 1 < |items| && Stores(items[i + 1])
  }

  /** The keys that were followed by something else. */
  function Lost(items: seq<Item>): nat {
    if |items| < 2 then 0
    else
      var n := |items| - 1;
      Lost(items[..n]) + if items[n - 1].typ.ItemKey? && !Stores(items[n]) then 1 else 0
  }

  /** The open contexts that are values of a map. */
  function Pending(ctxs: Stack<Kind>): nat {
    match ctxs
    case Empty => 0
    case Push(_, Empty) => 0
    case Push(_, Push(kind, rest)) => Pending(Push(kind, rest)) + if kind.MapKind? then 1 else 0
  }

  /** The outermost context is a map. */
  predicate Rooted(ctxs: Stack<Kind>) {
    match ctxs
    case Empty => false
    case Push(kind, rest) => if rest == Empty then kind.MapKind? else Rooted(rest)
  }

  const TOP: Stack<Kind> := Push(MapKind, Empty)

  lemma {:induction false} NonePending(ctxs: Stack<Kind>)
    requires Rooted(ctxs)
    ensures Pending(ctxs) == 0 <==> ctxs == TOP
  {
    match ctxs
    case Push(_, Empty) =>
    case Push(_, Push(kind, rest)) =>
      NonePending(Push(kind, rest));
  }

  predicate EndsWithKey(items: seq<Item>) { items != [] && items[|items| - 1].typ.ItemKey? }

  lemma LostMore(items: seq<Item>, it: Item)
    ensures Lost(items + [it]) == Lost(items) + if EndsWithKey(items) && !Stores(it) then 1 else 0
  {
    assert (items + [it])[..|items|] == items;
  }

  /** Every key but the last item is followed by a value that is stored. */
  predicate StoredSoFar(items: seq<Item>) {
    forall i :: 0 <= i < |items| - 1 && items[i].typ.ItemKey? ==> Stores(items[i + 1])
  }

  lemma StoredMore(items: seq<Item>, it: Item)
    ensures StoredSoFar(items + [it]) <==> StoredSoFar(items) && (EndsWithKey(items) ==> Stores(it))
  {
    var more := items + [it];
    if StoredSoFar(more) {
      forall i | 0 <= i < |items| - 1 && items[i].typ.ItemKey?
        ensures Stores(items[i + 1])
      {
        assert more[i].typ.ItemKey? && more[i + 1] == items[i + 1];
      }
      if EndsWithKey(items) {
        assert more[|items| - 1].typ.ItemKey? && more[|items|] == it;
      }
    }
  }

  /** No key is lost exactly when each was followed by a value that is stored. */
  lemma {:induction false} LostNone(items: seq<Item>)
    ensures Lost(items) == 0 <==> StoredSoFar(items)
  {
    if |items| >= 2 {
      var init, it := items[..|items| - 1], items[|items| - 1];
      assert items == init + [it];
      LostNone(init);
      LostMore(init, it);
      StoredMore(init, it);
    }
  }

  /** The keys that wait: one for each open context in a map, one whose value is due, and those that were lost. */
  ghost predicate Balanced(m: Machine, t: Track, items: seq<Item>) {
    && Kinds(m.ctxs) == t.ctxs && Rooted(t.ctxs) && t.due == EndsWithKey(items)
    && (t.due ==> t.ctxs.top.MapKind?)
    && Depth(m.keys) == Pending(t.ctxs) + (if t.due then 1 else 0) + Lost(items)
  }

  lemma ScalarBalanced(lib: Library, m: Machine, t: Track, items: seq<Item>, it: Item)
    requires Balanced(m, t, items) && Scalar(it.typ) && CanTake(t, it.typ) && Apply(lib, m, it).Ok?
    ensures Balanced(Apply(lib, m, it).machine, Take(t, it.typ), items + [it])
  {
    LostMore(items, it);
    var r := Convert(lib, Scope(m.ctxs), it);
    assert r.Nothing? <==> !Stores(it);
  }

  lemma CloseBalanced(lib: Library, m: Machine, t: Track, items: seq<Item>, it: Item)
    requires Balanced(m, t, items) && (it.typ.ItemMapEnd? || it.typ.ItemArrayEnd?) && CanTake(t, it.typ) && Apply(lib, m, it).Ok?
    ensures Balanced(Apply(lib, m, it).machine, Take(t, it.typ), items + [it])
  {
    LostMore(items, it);
    assert t.ctxs.rest.Push? && Pending(t.ctxs) == Pending(t.ctxs.rest) + if t.ctxs.rest.top.MapKind? then 1 else 0;
    var c := m.ctxs.top;
    var m1 := m.(ctxs := m.ctxs.rest);
    assert Apply(lib, m, it) == Store(m1, if c.MapCtx? then Obj(c.fields) else Arr(c.elems));
    assert Kinds(m1.ctxs) == t.ctxs.rest;
  }

  lemma OpenBalanced(lib: Library, m: Machine, t: Track, items: seq<Item>, it: Item)
    requires Balanced(m, t, items) && !Scalar(it.typ) && !it.typ.ItemMapEnd? && !it.typ.ItemArrayEnd? && !it.typ.ItemEOF?
    requires CanTake(t, it.typ) && Apply(lib, m, it).Ok?
    ensures Balanced(Apply(lib, m, it).machine, Take(t, it.typ), items + [it])
  {
    LostMore(items, it);
    if it.typ.ItemMapStart? || it.typ.ItemArrayStart? {
      assert Pending(Take(t, it.typ).ctxs) == Pending(t.ctxs) + if t.ctxs.top.MapKind? then 1 else 0;
    }
  }

  lemma {:induction false} RunBalanced(lib: Library, items: seq<Item>)
    requires Open(items) && TakeAll(Types(items)).Some? && Run(lib, EMPTY, items).Ok?
    ensures Balanced(Run(lib, EMPTY, items).machine, TakeAll(Types(items)).value, items)
    decreases |items|
  {
    if items != [] {
      var init, it := items[..|items| - 1], items[|items| - 1];
      assert items == init + [it] && Types(items)[..|items| - 1] == Types(init);
      RunAppend(lib, EMPTY, init, [it]);
      RunBalanced(lib, init);
      var m, t := Run(lib, EMPTY, init).machine, TakeAll(Types(init)).value;
      RunOne(lib, m, it);
      if Scalar(it.typ) {
        ScalarBalanced(lib, m, t, init, it);
      } else if it.typ.ItemMapEnd? || it.typ.ItemArrayEnd? {
        CloseBalanced(lib, m, t, init, it);
      } else {
        OpenBalanced(lib, m, t, init, it);
      }
    }
  }

  /** For every stream that goes through: no key is left, and so every value is under its own key, if and only if all
      maps and arrays were closed and every key is followed by a value that is stored.
   */
  lemma LeftoverStream(lib: Library, items: seq<Item>)
    requires Open(items) && TakeAll(Types(items)).Some? && Run(lib, EMPTY, items).Ok?
    ensures Run(lib, EMPTY, items).machine.keys == Empty <==> TakeAll(Types(items)).value.ctxs == TOP && AllStored(items)
  {
    RunBalanced(lib, items);
    NonePending(TakeAll(Types(items)).value.ctxs);
    LostNone(items);
  }

  /** Parsing any text: when it is accepted, no key is left exactly under that condition on the items sent. */
  method ParseText(data: string, lib: Library, pedantic: bool) returns (ok: bool, left: Stack<string>, ghost items: seq<Item>)
    ensures TakeAll(Types(items)).Some?
    ensures ok ==> Run(lib, EMPTY, items).Ok? && Run(lib, EMPTY, items).machine.keys == left
    ensures ok ==> (left == Empty <==> TakeAll(Types(items)).value.ctxs == TOP && AllStored(items))
  {
    var p := new Parser(data, lib, pedantic);
    ok := p.Parse();
    left := p.keys;
    items := p.taken[..|p.taken| - 1];
    TakePrefix(Types(p.taken), |p.taken| - 1);
    assert Types(p.taken)[..|p.taken| - 1] == Types(items);
    if ok {
      EndTaken(lib, p.taken, items);
    }
  }

  /** The item that ends the input changes nothing. */
  lemma EndTaken(lib: Library, taken: seq<Item>, items: seq<Item>)
    requires taken != [] && items == taken[..|taken| - 1] && taken[|taken| - 1].typ.ItemEOF? && Open(items)
    requires TakeAll(Types(items)).Some? && Run(lib, EMPTY, taken).Ok?
    ensures Run(lib, EMPTY, items) == Run(lib, EMPTY, taken)
    ensures Run(lib, EMPTY, items).machine.keys == Empty <==> TakeAll(Types(items)).value.ctxs == TOP && AllStored(items)
  {
    var end := taken[|taken| - 1];
    assert taken == items + [end];
    RunAppend(lib, EMPTY, items, [end]);
    RunOne(lib, Run(lib, EMPTY, items).machine, end);
    LeftoverStream(lib, items);
  }
}
