/** The items a configuration lexer hands to its parser, and what they do to the parser's stacks (conf/). */
module ConfItems {
  import opened Basics

  datatype ItemType =
    | ItemError | ItemEOF | ItemKey | ItemText | ItemString | ItemBool | ItemInteger | ItemFloat | ItemDatetime
    | ItemArrayStart | ItemArrayEnd | ItemMapStart | ItemMapEnd | ItemCommentStart | ItemVariable | ItemInclude

  datatype Item = Item(typ: ItemType, val: string)

  /** A stack, top first. */
  datatype Stack<T> = Empty | Push(top: T, rest: Stack<T>)

  datatype Kind = MapKind | ArrayKind

  /** The kinds of the open contexts, a number of keys sure to be on the key stack, and whether a key was sent whose
      value is due.
   */
  datatype Track = Track(ctxs: Stack<Kind>, keys: nat, due: bool)

  predicate Scalar(typ: ItemType) {
    typ.ItemString? || typ.ItemBool? || typ.ItemInteger? || typ.ItemFloat? || typ.ItemDatetime? || typ.ItemVariable?
  }

  /** A value can be stored: the innermost context is an array, or a key is there for it. */
  predicate CanSet(t: Track) { t.ctxs.Push? && (t.ctxs.top.ArrayKind? || t.keys > 0) }

  function Set(t: Track): Track
    requires CanSet(t)
  {
    if t.ctxs.top.ArrayKind? then t else t.(keys := t.keys - 1)
  }

  /** The innermost context, of this kind and not the outermost one, can be closed and stored. */
  predicate CanClose(t: Track, kind: Kind) {
    t.ctxs.Push? && t.ctxs.top == kind && CanSet(t.(ctxs := t.ctxs.rest))
  }

  /** A value comes after its key, or in an array. */
  predicate Expected(t: Track) { t.ctxs.Push? && t.due == t.ctxs.top.MapKind? }

  /** In a map, and no value is due. */
  predicate Between(t: Track) { t.ctxs.Push? && t.ctxs.top.MapKind? && !t.due }

  /** An item of this type has its place here, and the parser can take it without running out of contexts or keys. */
  predicate CanTake(t: Track, typ: ItemType) {
    match typ
    case ItemError => true
    case ItemEOF => true
    case ItemKey => Between(t)
    case ItemInclude => Between(t)
    case ItemText => !t.due
    case ItemCommentStart => !t.due
    case ItemMapStart => Expected(t)
    case ItemArrayStart => Expected(t)
    case ItemMapEnd => CanClose(t, MapKind)
    case ItemArrayEnd => CanClose(t, ArrayKind) && !t.due
    case _ => CanSet(t) && Expected(t)
  }

  function Take(t: Track, typ: ItemType): Track
    requires CanTake(t, typ)
  {
    if typ.ItemKey? then t.(keys := t.keys + 1, due := true)
    else if typ.ItemMapStart? then t.(ctxs := Push(MapKind, t.ctxs), due := false)
    else if typ.ItemArrayStart? then t.(ctxs := Push(ArrayKind, t.ctxs), due := false)
    else if typ.ItemMapEnd? || typ.ItemArrayEnd? then Set(t.(ctxs := t.ctxs.rest)).(due := false)
    else if Scalar(typ) then Set(t).(due := false)
    else t
  }

  const START: Track := Track(Push(MapKind, Empty), 0, false)

  /** The stacks after a stream of items, or nothing if one of them could not be taken. */
  function TakeAll(log: seq<ItemType>): Option<Track> {
    if log == [] then Some(START)
    else
      match TakeAll(log[..|log| - 1])
      case None => None
      case Some(t) => if CanTake(t, log[|log| - 1]) then Some(Take(t, log[|log| - 1])) else None
  }

  lemma TakeOneMore(log: seq<ItemType>, t: Track, typ: ItemType)
    requires TakeAll(log) == Some(t) && CanTake(t, typ)
    ensures TakeAll(log + [typ]) == Some(Take(t, typ))
  {
    assert (log + [typ])[..|log|] == log;
  }

  /** A stream that can be taken can be taken item by item. */
  lemma {:induction false} TakePrefix(log: seq<ItemType>, n: nat)
    requires n <= |log| && TakeAll(log).Some?
    ensures TakeAll(log[..n]).Some?
  {
    if n < |log| {
      TakePrefix(log[..|log| - 1], n);
      assert log[..|log| - 1][..n] == log[..n];
    } else {
      assert log[..n] == log;
    }
  }
}
