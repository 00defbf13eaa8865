/** Decimal numerals, splitting at a character, and lower case. */
module Strings {

  function Digit(d: nat): char
    requires d < 10
  {
    (d + '0' as int) as char
  }

  predicate IsDigit(c: char) { '0' <= c <= '9' }

  predicate AllDigits(s: string) { forall i :: 0 <= i < |s| ==> IsDigit(s[i]) }

  function Decimal(n: nat): (s: string)
    ensures s != [] && AllDigits(s)
  {
    if n < 10 then [Digit(n)] else Decimal(n / 10) + [Digit(n % 10)]
  }

  /** The number that digits stand for. */
  function Read(s: string): nat
    requires AllDigits(s)
  {
    if s == [] then 0 else 10 * Read(s[..|s| - 1]) + (s[|s| - 1] as int - '0' as int)
  }

  lemma {:induction false} ReadDecimal(n: nat)
    ensures Read(Decimal(n)) == n
  {
    var s := Decimal(n);
    if n < 10 {
      assert s[..0] == [];
    } else {
      ReadDecimal(n / 10);
      assert s[..|s| - 1] == Decimal(n / 10);
    }
  }

  function Lower(s: string): string {
    seq(|s|, i requires 0 <= i < |s| => if 'A' <= s[i] <= 'Z' then (s[i] as int + 32) as char else s[i])
  }

  /** The pieces of a string between separators. */
  function Split(s: string, sep: char): seq<string> { SplitFrom(s, sep, 0, 0) }

  /** The pieces from `start`, where the characters up to `i` hold no separator. */
  function SplitFrom(s: string, sep: char, start: nat, i: nat): (pieces: seq<string>)
    requires start <= i <= |s|
    ensures pieces != []
    decreases |s| - i
  {
    if i == |s| then [s[start..]]
    else if s[i] == sep then [s[start..i]] + SplitFrom(s, sep, i + 1, i + 1)
    else SplitFrom(s, sep, start, i + 1)
  }

  /** Pieces, each after a separator. */
  function Tail(sep: char, ts: seq<string>): string {
    if ts == [] then "" else [sep] + (ts[0] + Tail(sep, ts[1..]))
  }

  predicate Without(sep: char, ts: seq<string>) { forall i :: 0 <= i < |ts| ==> sep !in ts[i] }

  /** Splitting undoes joining. */
  lemma SplitJoined(sep: char, t: string, ts: seq<string>)
    requires sep !in t && Without(sep, ts)
    ensures Split(t + Tail(sep, ts), sep) == [t] + ts
  {
    assert t + Tail(sep, ts) == "" + (t + Tail(sep, ts));
    SplitTail(t + Tail(sep, ts), sep, "", t, ts, 0);
  }

  lemma {:induction false} SplitTail(s: string, sep: char, pre: string, t: string, ts: seq<string>, i: nat)
    requires sep !in t && Without(sep, ts) && s == pre + (t + Tail(sep, ts)) && |pre| <= i <= |pre| + |t|
    ensures SplitFrom(s, sep, |pre|, i) == [t] + ts
    decreases |ts|, |pre| + |t| - i
  {
    if i < |pre| + |t| {
      assert s[i] == t[i - |pre|];
      SplitTail(s, sep, pre, t, ts, i + 1);
    } else {
      assert s[|pre|..i] == t;
      if ts != [] {
        var next := pre + t + [sep];
        assert s == next + (ts[0] + Tail(sep, ts[1..]));
        SplitTail(s, sep, next, ts[0], ts[1..], i + 1);
      } else {
        assert s == pre + t;
      }
    }
  }

  lemma {:induction false} TailFree(sep: char, ts: seq<string>, c: char)
    requires c != sep && Without(c, ts)
    ensures c !in Tail(sep, ts)
  {
    if ts != [] {
      TailFree(sep, ts[1..], c);
    }
  }

  function Join(sep: char, ts: seq<string>): string
    requires ts != []
  {
    ts[0] + Tail(sep, ts[1..])
  }

  /** Joining undoes splitting, and no piece holds the separator. */
  lemma JoinSplit(s: string, sep: char)
    ensures Join(sep, Split(s, sep)) == s && Without(sep, Split(s, sep))
  {
    JoinFrom(s, sep, 0, 0);
    assert s[0..] == s;
  }

  lemma {:induction false} JoinFrom(s: string, sep: char, start: nat, i: nat)
    requires start <= i <= |s| && sep !in s[start..i]
    ensures Join(sep, SplitFrom(s, sep, start, i)) == s[start..] && Without(sep, SplitFrom(s, sep, start, i))
    decreases |s| - i
  {
    if i < |s| {
      if s[i] == sep {
        JoinFrom(s, sep, i + 1, i + 1);
        var rest := SplitFrom(s, sep, i + 1, i + 1);
        assert SplitFrom(s, sep, start, i) == [s[start..i]] + rest && ([s[start..i]] + rest)[1..] == rest;
        assert s[start..] == s[start..i] + ([sep] + s[i + 1..]);
      } else {
        assert s[start..i + 1] == s[start..i] + [s[i]];
        JoinFrom(s, sep, start, i + 1);
      }
    } else {
      assert s[start..] == s[start..i];
    }
  }
}
