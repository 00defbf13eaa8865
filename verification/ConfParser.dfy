/** The configuration parser (conf/parse.go) as an object that takes items from a lexer and updates its stacks. */
module ConfParser {
  import opened Basics
  import opened ConfItems
  import opened ConfParse
  import ConfLex
  import opened ConfLexSafety
  import opened ConfLexer
  import Strings

  lemma IncludeOne(f: map<string, Value>, m: map<string, Value>, todo: set<string>, k: string)
    requires k in todo && todo <= m.Keys
    ensures (f + (m - todo))[k := m[k]] == f + (m - (todo - {k}))
  {
  }

  /** A configuration may not end with a key, except a closing brace read as one. */
  predicate EndsInKey(items: seq<Item>) {
    |items| >= 2 && items[|items| - 2].typ.ItemKey? && items[|items| - 2].val != "}"
  }

  /** No item ends the input. */
  predicate Open(items: seq<Item>) { forall i :: 0 <= i < |items| ==> !items[i].typ.ItemEOF? }

  /** None but the last one does. */
  predicate OpenBefore(items: seq<Item>) { forall i :: 0 <= i < |items| - 1 ==> !items[i].typ.ItemEOF? }

  lemma OpenMore(items: seq<Item>, it: Item, prev: Item)
    requires Open(items) && (if items == [] then prev.typ.ItemError? else prev == items[|items| - 1])
    ensures var more := items + [it];
            && (it.typ.ItemEOF? || Open(more)) && OpenBefore(more)
            && (EndsInKey(more) <==> prev.typ.ItemKey? && prev.val != "}")
  {
  }

  lemma TakenOneMore(lib: Library, items: seq<Item>, m: Machine, t: Track, it: Item)
    requires TakeAll(Types(items)) == Some(t) && CanTake(t, it.typ) && Run(lib, EMPTY, items) == Ok(m)
    ensures TakeAll(Types(items + [it])) == Some(Take(t, it.typ))
    ensures Run(lib, EMPTY, items + [it]) == Apply(lib, m, it)
  {
    assert Types(items + [it]) == Types(items) + [it.typ];
    TakeOneMore(Types(items), t, it.typ);
    RunAppend(lib, EMPTY, items, [it]);
    RunOne(lib, m, it);
  }

  /** The texts of items on a stack. */
  function Names(items: Stack<Item>): Stack<string> {
    match items
    case Empty => Empty
    case Push(it, rest) => Push(it.val, Names(rest))
  }

  class Parser {
    const lx: Lexer
    const lib: Library
    const pedantic: bool
    var ctxs: Stack<Context>
    var keys: Stack<string>
    var ikeys: Stack<Item>
    ghost var taken: seq<Item>

    ghost function Contents(): Machine
      reads this
    {
      Machine(ctxs, keys)
    }

    /** In pedantic mode each key has its item beside it, for the place it stands at. */
    ghost predicate Paired()
      reads this
    {
      pedantic ==> Names(ikeys) == keys
    }

    /** The same but for the key last noted, whose item may be that of an included value. */
    ghost predicate PairedBelow()
      reads this
    {
      pedantic ==> keys.Push? && ikeys.Push? && Names(ikeys.rest) == keys.rest
    }

    /** The stacks fit what the lexer has sent, and are what the machine makes of it. */
    ghost predicate Inv()
      reads this, lx
    {
      && Paired()
      && lx.Inv() && taken == lx.sent
      && TakeAll(Types(taken)) == Some(lx.track)
      && Follows(Contents(), lx.track)
      && Run(lib, EMPTY, taken) == Ok(Contents())
    }

    constructor (data: string, lib: Library, pedantic: bool)
      ensures Inv() && !lx.state.Stop? && fresh(lx) && lx.input == data && this.lib == lib && taken == []
      ensures lx.f == ConfLex.Stepper(data)
    {
      lx := new Lexer(data);
      this.lib, this.pedantic := lib, pedantic;
      ctxs, keys, ikeys, taken := Push(MapCtx(map[]), Empty), Empty, Empty, [];
    }

    // The stacks.

    method PushContext(c: Context)
      modifies this`ctxs
      ensures ctxs == Push(c, old(ctxs))
    {
      ctxs := Push(c, ctxs);
    }

    /** The source panics with fewer than two contexts. */
    method PopContext() returns (c: Context)
      requires ctxs.Push? && ctxs.rest.Push?
      modifies this`ctxs
      ensures old(ctxs) == Push(c, ctxs)
    {
      c, ctxs := ctxs.top, ctxs.rest;
    }

    method PushKey(key: string)
      modifies this`keys
      ensures keys == Push(key, old(keys))
    {
      keys := Push(key, keys);
    }

    /** The source panics with no key. */
    method PopKey() returns (key: string)
      requires keys.Push?
      modifies this`keys
      ensures old(keys) == Push(key, keys)
    {
      key, keys := keys.top, keys.rest;
    }

    method PushItemKey(it: Item)
      modifies this`ikeys
      ensures ikeys == Push(it, old(ikeys))
    {
      ikeys := Push(it, ikeys);
    }

    /** The source panics with no item of a key. */
    method PopItemKey() returns (it: Item)
      requires ikeys.Push?
      modifies this`ikeys
      ensures old(ikeys) == Push(it, ikeys)
    {
      it, ikeys := ikeys.top, ikeys.rest;
    }

    /** A key goes on the stack, and in pedantic mode an item with it. */
    method NoteKey(key: string, it: Item)
      requires Paired()
      modifies this`keys, this`ikeys
      ensures PairedBelow() && (it.val == key ==> Paired()) && keys == Push(key, old(keys))
    {
      PushKey(key);
      if pedantic {
        PushItemKey(it);
      }
    }

    /** Stores a value in the innermost context; in a map it goes under the key on the stack, and in pedantic mode the item
        beside the key goes with it.
     */
    method SetValue(v: Value)
      requires CanSet(Shape(Contents())) && (Paired() || (ctxs.top.MapCtx? && PairedBelow()))
      modifies this`ctxs, this`keys, this`ikeys
      ensures Store(old(Contents()), v) == Ok(Contents()) && Paired()
    {
      match ctxs.top
      case ArrCtx(a) => ctxs := Push(ArrCtx(a + [v]), ctxs.rest);
      case MapCtx(f) =>
        var key := PopKey();
        if pedantic {
          var _ := PopItemKey();
        }
        ctxs := Push(MapCtx(f[key := v]), ctxs.rest);
    }

    // Items.

    /** Looks a variable up in the open maps, from the innermost outwards, and then in the environment. */
    method LookupVariable(name: string) returns (v: Option<Value>)
      ensures v == Variable(lib, Scope(ctxs), name)
    {
      if "2a$" <= name {
        return Some(Str("$" + name));
      }
      var rest := ctxs;
      while rest.Push?
        invariant Search(Scope(rest), name) == Search(Scope(ctxs), name)
        decreases rest
      {
        if rest.top.MapCtx? && name in rest.top.fields {
          return Some(rest.top.fields[name]);
        }
        rest := rest.rest;
      }
      v := lib.env(name);
    }

    method ReadInteger(s: string) returns (r: Reading)
      ensures r == Integer(s)
    {
      var lastDigit := 0;
      while lastDigit < |s| && (Strings.IsDigit(s[lastDigit]) || s[lastDigit] == '-')
        invariant 0 <= lastDigit <= |s| && Digits(s) == lastDigit + Digits(s[lastDigit..])
      {
        lastDigit := lastDigit + 1;
      }
      DigitsBound(s);
      var num := ParseInt(s[..lastDigit]);
      if num.None? {
        return Bad;
      }
      var k := Multiplier(Strings.Lower(TrimSpace(s[lastDigit..])));
      r := if k.None? then Nothing else Is(Int(Wrap(num.value * k.value)));
    }

    method ReadScalar(it: Item) returns (r: Reading)
      requires Scalar(it.typ)
      ensures r == Convert(lib, Scope(ctxs), it)
    {
      match it.typ
      case ItemString => r := Is(Str(it.val));
      case ItemInteger => r := ReadInteger(it.val);
      case ItemFloat => r := OrBad(lib.float(it.val));
      case ItemBool => r := Boolean(it.val);
      case ItemDatetime => r := OrBad(lib.date(it.val));
      case ItemVariable =>
        var v := LookupVariable(it.val);
        r := OrBad(v);
    }

    /** Stores a value under a key of its own. */
    method SetEntry(key: string, v: Value)
      requires ctxs.Push? && ctxs.top.MapCtx? && Paired()
      modifies this`ctxs, this`keys, this`ikeys
      ensures ctxs == Push(MapCtx(old(ctxs.top.fields)[key := v]), old(ctxs.rest)) && keys == old(keys) && Paired()
    {
      NoteKey(key, Item(ItemText, ""));
      SetValue(v);
    }

    /** Stores each entry of an included file under its own key, in any order. */
    method IncludeEntries(m: map<string, Value>)
      requires ctxs.Push? && ctxs.top.MapCtx? && Paired()
      modifies this`ctxs, this`keys, this`ikeys
      ensures Ok(Contents()) == Include(old(Contents()), Some(m)) && Paired()
    {
      ghost var f := ctxs.top.fields;
      var todo := m.Keys;
      while todo != {}
        invariant todo <= m.Keys && ctxs.Push? && ctxs.rest == old(ctxs.rest) && keys == old(keys)
        invariant ctxs.top == MapCtx(f + (m - todo)) && Paired()
        decreases |todo|
      {
        var k :| k in todo;
        SetEntry(k, m[k]);
        IncludeOne(f, m, todo, k);
        todo := todo - {k};
      }
      assert m - todo == m;
    }

    /** One item, which the stacks can take. */
    method ProcessItem(it: Item, ghost t: Track) returns (ok: bool)
      requires Follows(Contents(), t) && CanTake(t, it.typ) && Paired()
      modifies this`ctxs, this`keys, this`ikeys
      ensures Apply(lib, old(Contents()), it) == (if ok then Ok(Contents()) else Err) && Paired()
    {
      ok := true;
      match it.typ
      case ItemError => ok := false;
      case ItemKey => NoteKey(it.val, it);
      case ItemMapStart => PushContext(MapCtx(map[]));
      case ItemArrayStart => PushContext(ArrCtx([]));
      case ItemMapEnd =>
        assert Kinds(ctxs).rest == Kinds(ctxs.rest);
        var c := PopContext();
        SetValue(Obj(c.fields));
      case ItemArrayEnd =>
        assert Kinds(ctxs).rest == Kinds(ctxs.rest);
        var c := PopContext();
        SetValue(Arr(c.elems));
      case ItemInclude =>
        var file := lib.file(it.val);
        ok := file.Some?;
        if ok {
          IncludeEntries(file.value);
        }
      case ItemEOF =>
      case ItemText =>
      case ItemCommentStart =>
      case _ =>
        var r := ReadScalar(it);
        ok := !r.Bad?;
        if r.Is? {
          SetValue(r.value);
        }
    }

    /** Takes one item from the lexer. */
    method Advance() returns (it: Item, ok: bool)
      requires Inv() && !lx.state.Stop?
      modifies this, lx
      ensures taken == old(taken) + [it] && TakeAll(Types(taken)) == Some(lx.track) && lx.Inv() && taken == lx.sent
      ensures if ok then Inv() else Run(lib, EMPTY, taken) == Err
      ensures ok ==> lx.state.Stop? == it.typ.ItemEOF?
      ensures lx.state.Stop? || Ahead(lx.input, old(lx.Config()), lx.Config())
    {
      ghost var m, t := Contents(), lx.track;
      it := lx.NextItem();
      TakenOneMore(lib, taken, m, t, it);
      ApplyFollows(lib, m, t, it);
      taken := taken + [it];
      ok := true;
      if !it.typ.ItemEOF? {
        ok := ProcessItem(it, t);
      }
    }

    /** Reads the whole input.  For every input it ends, no stack runs empty, and it accepts exactly when the items
        sent go through to the end of the input; the stacks are then what the machine makes of them.
     */
    method Parse() returns (ok: bool)
      requires Inv() && !lx.state.Stop? && taken == []
      modifies this, lx
      ensures taken != [] && TakeAll(Types(taken)).Some? && !Run(lib, EMPTY, taken).Panics?
      ensures ok <==> Run(lib, EMPTY, taken).Ok? && taken[|taken| - 1].typ.ItemEOF? && !EndsInKey(taken)
      ensures ok ==> Run(lib, EMPTY, taken) == Ok(Contents())
      ensures ConfLex.Lexed(lx.f, lx.steps) == ConfLex.Trace(lx.Config(), taken)
      ensures Run(lib, EMPTY, taken).Ok? ==> lx.state.Stop?
      ensures OpenBefore(taken)
    {
      var accepted, prev := ReadItems();
      ok := accepted && !(prev.typ.ItemKey? && prev.val != "}");
    }

    /** What holds between two items: none so far ends the input, and `prev` is the last. */
    ghost predicate Between(prev: Item)
      reads this
    {
      Open(taken) && if taken == [] then prev.typ.ItemError? else prev == taken[|taken| - 1]
    }

    /** One more item; `prev` is the one before it. */
    method TakeOne(prev: Item) returns (it: Item, accepted: bool)
      requires Inv() && !lx.state.Stop? && Between(prev)
      modifies this, lx
      ensures taken != [] && TakeAll(Types(taken)).Some? && lx.Inv() && taken == lx.sent && OpenBefore(taken)
      ensures if accepted then Inv() && taken[|taken| - 1] == it else Run(lib, EMPTY, taken) == Err
      ensures EndsInKey(taken) <==> prev.typ.ItemKey? && prev.val != "}"
      ensures accepted && it.typ.ItemEOF? ==> lx.state.Stop?
      ensures accepted && !it.typ.ItemEOF? ==>
                !lx.state.Stop? && Between(it) && Ahead(lx.input, old(lx.Config()), lx.Config())
    {
      ghost var before := taken;
      it, accepted := Advance();
      OpenMore(before, it, prev);
    }

    /** Takes items up to the end of the input or the first that is refused; `prev` is the last one before it. */
    method ReadItems() returns (accepted: bool, prev: Item)
      requires Inv() && !lx.state.Stop? && taken == []
      modifies this, lx
      ensures taken != [] && TakeAll(Types(taken)).Some? && lx.Inv() && taken == lx.sent && OpenBefore(taken)
      ensures if accepted then Inv() && lx.state.Stop? && taken[|taken| - 1].typ.ItemEOF? else Run(lib, EMPTY, taken) == Err
      ensures EndsInKey(taken) <==> prev.typ.ItemKey? && prev.val != "}"
    {
      prev := Item(ItemError, "");
      while true
        invariant Inv() && !lx.state.Stop? && Between(prev)
        decreases |lx.input| - lx.pos, Credit(lx.input, lx.Config())
      {
        var it;
        it, accepted := TakeOne(prev);
        if !accepted || it.typ.ItemEOF? {
          return;
        }
        prev := it;
      }
    }
  }
}
