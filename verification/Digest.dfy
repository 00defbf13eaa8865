/** Digests of 32 bytes and their exclusive or, over the entries of an index. */
module Digest {

  type Hash = h: seq<bv8> | |h| == 32 witness seq(32, _ => 0)

  function Zero(): Hash { seq(32, _ => 0) }

  function Xor(a: Hash, b: Hash): Hash { seq(32, i requires 0 <= i < 32 => a[i] ^ b[i]) }

  lemma XorComm(a: Hash, b: Hash)
    ensures Xor(a, b) == Xor(b, a)
  {
  }

  lemma XorAssoc(a: Hash, b: Hash, c: Hash)
    ensures Xor(Xor(a, b), c) == Xor(a, Xor(b, c))
  {
  }

  lemma XorSelf(a: Hash, b: Hash)
    ensures Xor(a, Xor(a, b)) == b && Xor(a, Zero()) == a
  {
  }

  /** Adds a hash in place, byte by byte. */
  method XorAssign(left: Hash, right: Hash) returns (r: Hash)
    ensures r == Xor(left, right)
  {
    r := left;
    for i := 0 to 32
      invariant forall k :: 0 <= k < 32 ==> r[k] == if k < i then left[k] ^ right[k] else left[k]
    {
      r := r[i := r[i] ^ right[i]];
    }
  }
}
