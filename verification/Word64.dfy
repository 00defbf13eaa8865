/** A 64-bit word as its bits, least significant first. */
module Word64 {

  type Word = w: seq<bool> | |w| == 64 witness seq(64, _ => false)

  function Zero(): Word { seq(64, _ => false) }

  function Ones(): Word { seq(64, _ => true) }

  function One(): Word { seq(64, i => i == 0) }

  predicate HasBit(w: Word, i: int)
    requires 0 <= i < 64
  {
    w[i]
  }

  function Or(a: Word, b: Word): Word { seq(64, i requires 0 <= i < 64 => a[i] || b[i]) }

  function And(a: Word, b: Word): Word { seq(64, i requires 0 <= i < 64 => a[i] && b[i]) }

  function Not(a: Word): Word { seq(64, i requires 0 <= i < 64 => !a[i]) }

  /** Left shift; bits pushed past the top are lost, and a shift by 64 or more gives zero. */
  function Shl(a: Word, n: nat): Word { seq(64, i requires 0 <= i < 64 => i >= n && a[i - n]) }
}
