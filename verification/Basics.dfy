/** Values that may be missing, 64-bit numbers and facts about sequences. */
module Basics {

  datatype Option<T> = None | Some(value: T)

  const MAX_INT: int := 0x7FFF_FFFF_FFFF_FFFF

  /** Signed arithmetic wraps around at 64 bits. */
  function Wrap(x: int): (r: int)
    ensures -MAX_INT - 1 <= r <= MAX_INT && (-MAX_INT - 1 <= x <= MAX_INT ==> r == x)
  {
    (x + MAX_INT + 1) % (2 * (MAX_INT + 1)) - MAX_INT - 1
  }

  lemma Assoc<T>(a: seq<T>, b: seq<T>, c: seq<T>)
    ensures (a + b) + c == a + (b + c)
  {
  }

  lemma Unit<T>(a: seq<T>)
    ensures a + [] == a
  {
  }

  lemma OneMore<T>(s: seq<T>, i: nat)
    requires i < |s|
    ensures s[..i + 1] == s[..i] + [s[i]]
  {
  }

  lemma HeadIn<T>(s: seq<T>)
    ensures s == [] || s[0] in s
  {
  }

  /** No element is there twice. */
  ghost predicate Distinct<T(!new)>(q: seq<T>) {
    forall i, j :: 0 <= i < j < |q| ==> q[i] != q[j]
  }

  /** The sequence with the element at `i`, if there is one, taken out. */
  function Cut<T>(q: seq<T>, i: nat): seq<T>
    requires i <= |q|
  {
    if i == |q| then q else q[..i] + q[i + 1..]
  }
}
