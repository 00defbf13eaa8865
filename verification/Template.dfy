/** Expansion of permission templates (server/auth.go): an odometer over the lists of values of a template, and the
guard that bounds how many subjects it may make.
 */
module Template {
  import opened Basics
  import Strings

  const MAX_EXPANSIONS: nat := 4096

  function Product(sizes: seq<nat>): nat {
    if sizes == [] then 1 else sizes[0] * Product(sizes[1..])
  }

  /** Digits in a mixed radix, the most significant first. */
  predicate Within(n: seq<nat>, sizes: seq<nat>) {
    |n| == |sizes| && forall j :: 0 <= j < |n| ==> n[j] < sizes[j]
  }

  function Rank(sizes: seq<nat>, n: seq<nat>): nat
    requires |n| == |sizes|
  {
    if n == [] then 0 else n[0] * Product(sizes[1..]) + Rank(sizes[1..], n[1..])
  }

  /** Lexicographically before. */
  predicate Before(n: seq<nat>, m: seq<nat>)
    requires |n| == |m|
  {
    n != [] && (n[0] < m[0] || (n[0] == m[0] && Before(n[1..], m[1..])))
  }

  lemma {:induction false} RankBound(sizes: seq<nat>, n: seq<nat>)
    requires Within(n, sizes)
    ensures Rank(sizes, n) < Product(sizes)
  {
    if n != [] {
      RankBound(sizes[1..], n[1..]);
      MulStep(n[0], sizes[0], Product(sizes[1..]));
    }
  }

  lemma MulStep(x: nat, y: nat, p: nat)
    requires x < y
    ensures x * p + p <= y * p
  {
    assert y * p == x * p + p + (y - x - 1) * p;
  }

  /** Ranks follow the lexicographic order, so no two combinations share a rank. */
  lemma {:induction false} RankOrder(sizes: seq<nat>, n: seq<nat>, m: seq<nat>)
    requires Within(n, sizes) && Within(m, sizes)
    ensures Before(n, m) <==> Rank(sizes, n) < Rank(sizes, m)
    ensures n == m <==> Rank(sizes, n) == Rank(sizes, m)
  {
    if n != [] {
      var p := Product(sizes[1..]);
      RankOrder(sizes[1..], n[1..], m[1..]);
      RankBound(sizes[1..], n[1..]);
      RankBound(sizes[1..], m[1..]);
      assert n == [n[0]] + n[1..] && m == [m[0]] + m[1..];
      if n[0] < m[0] {
        MulStep(n[0], m[0], p);
      } else if m[0] < n[0] {
        MulStep(m[0], n[0], p);
      }
    }
  }

  // The odometer.

  /** The next digits, and whether they went all the way round. */
  function Advance(sizes: seq<nat>, n: seq<nat>): (r: (bool, seq<nat>))
    requires |n| == |sizes|
    ensures |r.1| == |n|
  {
    if n == [] then (true, [])
    else
      var (carry, rest) := Advance(sizes[1..], n[1..]);
      if !carry then (false, [n[0]] + rest)
      else if n[0] + 1 < sizes[0] then (false, [n[0] + 1] + rest)
      else (true, [0] + rest)
  }

  function Zeros(k: nat): (z: seq<nat>)
    ensures |z| == k && forall j :: 0 <= j < k ==> z[j] == 0
  {
    seq(k, _ => 0)
  }

  lemma {:induction false} ZeroRank(sizes: seq<nat>)
    ensures Rank(sizes, Zeros(|sizes|)) == 0
  {
    if sizes != [] {
      assert Zeros(|sizes|)[1..] == Zeros(|sizes| - 1);
      ZeroRank(sizes[1..]);
    }
  }

  /** Advancing goes to the next rank, or from the last one back to the first. */
  lemma {:induction false} AdvanceRank(sizes: seq<nat>, n: seq<nat>)
    requires Within(n, sizes)
    ensures var (carry, m) := Advance(sizes, n);
            && Within(m, sizes)
            && if carry then Rank(sizes, n) + 1 == Product(sizes) && m == Zeros(|n|)
               else Rank(sizes, m) == Rank(sizes, n) + 1
  {
    if n != [] {
      var p := Product(sizes[1..]);
      AdvanceRank(sizes[1..], n[1..]);
      var (carry, rest) := Advance(sizes[1..], n[1..]);
      var m := Advance(sizes, n).1;
      assert m[1..] == rest;
      if carry {
        ZeroRank(sizes[1..]);
        assert (n[0] + 1) * p == n[0] * p + p;
        if n[0] + 1 >= sizes[0] {
          assert sizes[0] == n[0] + 1;
          assert m == Zeros(|n|);
        }
      }
    }
  }

  /** The combination that digits choose. */
  function Pick(a: seq<seq<string>>, n: seq<nat>): seq<string>
    requires |n| == |a| && forall j :: 0 <= j < |a| ==> n[j] < |a[j]|
  {
    seq(|a|, j requires 0 <= j < |a| => a[j][n[j]])
  }

  function Sizes(a: seq<seq<string>>): seq<nat> {
    seq(|a|, j requires 0 <= j < |a| => |a[j]|)
  }

  /** The digits of a rank. */
  function Digits(sizes: seq<nat>, k: nat): (n: seq<nat>)
    requires k < Product(sizes)
    ensures Within(n, sizes) && Rank(sizes, n) == k
  {
    if sizes == [] then []
    else
      var p := Product(sizes[1..]);
      DivBound(k, sizes[0], p);
      var n := [k / p] + Digits(sizes[1..], k % p);
      assert n[1..] == Digits(sizes[1..], k % p);
      n
  }

  lemma DivBound(k: nat, s: nat, p: nat)
    requires k < s * p
    ensures p > 0 && 0 <= k / p < s && 0 <= k % p < p && (k / p) * p + k % p == k
  {
    assert p != 0 by {
      if p == 0 {
        assert false;
      }
    }
    if k / p >= s {
      MulLeast(s, k / p, p);
    }
  }

  lemma MulLeast(s: nat, q: nat, p: nat)
    requires s <= q
    ensures s * p <= q * p
  {
    assert q * p == s * p + (q - s) * p;
  }

  /** Advances the digits in place. */
  method Turn(n: array<nat>, a: seq<seq<string>>)
    requires Within(n[..], Sizes(a))
    modifies n
    ensures n[..] == Advance(Sizes(a), old(n[..])).1
  {
    ghost var was, sizes := n[..], Sizes(a);
    ghost var tail: seq<nat> := [];
    var j := |a| - 1;
    while j >= 0
      invariant -1 <= j < |a| && n[..] == was[..j + 1] + tail
      invariant Advance(sizes[j + 1..], was[j + 1..]) == (true, tail)
    {
      CarryAt(sizes, was, j, tail);
      n[j] := n[j] + 1;
      Splice(was, j, n[j], tail);
      if n[j] < |a[j]| {
        NoCarry(sizes, was, j, [n[j]] + tail);
        return;
      }
      n[j] := 0;
      Splice(was, j, 0, tail);
      tail := [0] + tail;
      j := j - 1;
    }
    assert sizes[0..] == sizes && was[0..] == was && was[..0] + tail == tail;
  }

  lemma Splice(s: seq<nat>, j: nat, x: nat, tail: seq<nat>)
    requires j < |s|
    ensures (s[..j + 1] + tail)[j := x] == s[..j] + ([x] + tail)
    ensures (s[..j] + ([x] + tail))[j := 0] == s[..j] + ([0] + tail)
  {
  }

  lemma CarryAt(sizes: seq<nat>, n: seq<nat>, j: nat, tail: seq<nat>)
    requires |n| == |sizes| && j < |n| && Advance(sizes[j + 1..], n[j + 1..]) == (true, tail)
    ensures Advance(sizes[j..], n[j..]) == if n[j] + 1 < sizes[j] then (false, [n[j] + 1] + tail) else (true, [0] + tail)
  {
    AdvanceAt(sizes, n, j);
  }

  lemma AdvanceAt(sizes: seq<nat>, n: seq<nat>, j: nat)
    requires |n| == |sizes| && j < |n|
    ensures sizes[j..][1..] == sizes[j + 1..] && n[j..][1..] == n[j + 1..]
    ensures sizes[j..][0] == sizes[j] && n[j..][0] == n[j]
  {
  }

  lemma {:induction false} NoCarry(sizes: seq<nat>, n: seq<nat>, j: nat, end: seq<nat>)
    requires |n| == |sizes| && j <= |n| && Advance(sizes[j..], n[j..]) == (false, end)
    ensures Advance(sizes, n) == (false, n[..j] + end)
    decreases j
  {
    if j == 0 {
      assert sizes[0..] == sizes && n[0..] == n && n[..0] + end == end;
    } else {
      AdvanceAt(sizes, n, j - 1);
      NoCarry(sizes, n, j - 1, [n[j - 1]] + end);
      assert n[..j - 1] + ([n[j - 1]] + end) == n[..j] + end;
    }
  }

  method CountCombinations(a: seq<seq<string>>) returns (c: nat)
    ensures c == Product(Sizes(a))
  {
    c := 1;
    for i := 0 to |a|
      invariant c * Product(Sizes(a)[i..]) == Product(Sizes(a))
    {
      ghost var rest := Product(Sizes(a)[i + 1..]);
      assert Sizes(a)[i..][1..] == Sizes(a)[i + 1..];
      assert c * (|a[i]| * rest) == c * |a[i]| * rest;
      c := c * |a[i]|;
    }
  }

  /** Every combination once, the k-th one being that of the digits of k. */
  method CartesianProduct(a: seq<seq<string>>) returns (p: seq<seq<string>>)
    ensures |p| == Product(Sizes(a))
    ensures forall k :: 0 <= k < |p| ==> p[k] == Pick(a, Digits(Sizes(a), k))
  {
    ghost var sizes := Sizes(a);
    p := [];
    var c := CountCombinations(a);
    if c == 0 {
      return;
    }
    var n := new nat[|a|](_ => 0);
    assert n[..] == Zeros(|a|);
    ZeroRank(sizes);
    PositiveSizes(sizes);
    while |p| < c
      invariant |p| <= c && Within(n[..], sizes) && (|p| < c ==> Rank(sizes, n[..]) == |p|)
      invariant forall k :: 0 <= k < |p| ==> p[k] == Pick(a, Digits(sizes, k))
    {
      NextDigits(sizes, n[..], |p|);
      var pi := ReadOff(a, n);
      p := p + [pi];
      Turn(n, a);
    }
  }

  lemma NextDigits(sizes: seq<nat>, n: seq<nat>, k: nat)
    requires Within(n, sizes) && k < Product(sizes) && Rank(sizes, n) == k
    ensures Digits(sizes, k) == n
    ensures var m := Advance(sizes, n).1; Within(m, sizes) && (k + 1 < Product(sizes) ==> Rank(sizes, m) == k + 1)
  {
    RankOrder(sizes, n, Digits(sizes, k));
    AdvanceRank(sizes, n);
  }

  /** The combination the digits stand at. */
  method ReadOff(a: seq<seq<string>>, n: array<nat>) returns (pi: seq<string>)
    requires Within(n[..], Sizes(a))
    ensures pi == Pick(a, n[..])
  {
    pi := [];
    for j := 0 to |a|
      invariant |pi| == j && forall i :: 0 <= i < j ==> pi[i] == a[i][n[i]]
    {
      assert n[..][j] < Sizes(a)[j];
      pi := pi + [a[j][n[j]]];
    }
  }

  lemma {:induction false} PositiveSizes(sizes: seq<nat>)
    requires Product(sizes) > 0
    ensures Within(Zeros(|sizes|), sizes)
  {
    if sizes != [] {
      assert sizes[0] > 0 && Product(sizes[1..]) > 0;
      PositiveSizes(sizes[1..]);
      forall j | 0 <= j < |sizes|
        ensures sizes[j] > 0
      {
        if j > 0 {
          assert sizes[j] == sizes[1..][j - 1];
        }
      }
    }
  }

  /** Each combination of values is there exactly once, and the combinations come in lexicographic order. */
  lemma OnceInOrder(sizes: seq<nat>)
    ensures forall n :: Within(n, sizes) ==> Rank(sizes, n) < Product(sizes) && Digits(sizes, Rank(sizes, n)) == n
    ensures forall i, k :: 0 <= i < k < Product(sizes) ==> Before(Digits(sizes, i), Digits(sizes, k))
  {
    forall n | Within(n, sizes)
      ensures Rank(sizes, n) < Product(sizes) && Digits(sizes, Rank(sizes, n)) == n
    {
      RankBound(sizes, n);
      RankOrder(sizes, n, Digits(sizes, Rank(sizes, n)));
    }
    forall i, k | 0 <= i < k < Product(sizes)
      ensures Before(Digits(sizes, i), Digits(sizes, k))
    {
      RankOrder(sizes, Digits(sizes, i), Digits(sizes, k));
    }
  }

  // The guard.

  /** The sizes before the first zero. */
  function Leading(sizes: seq<nat>): seq<nat> {
    if sizes == [] || sizes[0] == 0 then [] else [sizes[0]] + Leading(sizes[1..])
  }

  lemma LeadingStep(sizes: seq<nat>, i: nat)
    requires i < |sizes| && sizes[i] > 0
    ensures Product(Leading(sizes[i..])) == sizes[i] * Product(Leading(sizes[i + 1..]))
  {
    assert sizes[i..][1..] == sizes[i + 1..];
    assert Leading(sizes[i..])[1..] == Leading(sizes[i + 1..]);
  }

  lemma {:induction false} LeadingPositive(sizes: seq<nat>)
    ensures Product(Leading(sizes)) > 0
  {
    if sizes != [] && sizes[0] > 0 {
      LeadingPositive(sizes[1..]);
      assert sizes[0..] == sizes;
      LeadingStep(sizes, 0);
    }
  }

  lemma Exceeds(c: nat, s: nat, lead: nat)
    requires s > 0 && lead > 0 && c > MAX_EXPANSIONS / s
    ensures c * s > MAX_EXPANSIONS && c * (s * lead) > MAX_EXPANSIONS
  {
    var q := MAX_EXPANSIONS / s;
    MulLeast(q + 1, c, s);
    assert (q + 1) * s == q * s + s > MAX_EXPANSIONS;
    assert c * (s * lead) == c * s * lead;
    MulLeast(1, lead, c * s);
  }

  lemma Fits(c: nat, s: nat)
    requires s > 0 && 0 < c <= MAX_EXPANSIONS / s
    ensures 0 < c * s <= MAX_EXPANSIONS
  {
    MulLeast(c, MAX_EXPANSIONS / s, s);
    MulLeast(1, c, s);
  }

  /** What is counted after the first lists. */
  predicate Counted(sizes: seq<nat>, i: nat, count: nat)
    requires i <= |sizes|
  {
    && count * Product(sizes[i..]) == Product(sizes)
    && count * Product(Leading(sizes[i..])) == Product(Leading(sizes))
  }

  lemma MulAssoc(x: nat, y: nat, z: nat)
    ensures x * (y * z) == (x * y) * z
  {
  }

  lemma CountStep(sizes: seq<nat>, i: nat, count: nat)
    requires i < |sizes| && sizes[i] > 0 && Counted(sizes, i, count)
    ensures Counted(sizes, i + 1, count * sizes[i])
    ensures count > MAX_EXPANSIONS / sizes[i] ==> Product(Leading(sizes)) > MAX_EXPANSIONS
  {
    var s, all, lead := sizes[i], Product(sizes[i + 1..]), Product(Leading(sizes[i + 1..]));
    assert Product(sizes[i..]) == s * all by {
      assert sizes[i..][1..] == sizes[i + 1..];
    }
    assert Product(Leading(sizes[i..])) == s * lead by { LeadingStep(sizes, i); }
    MulAssoc(count, s, all);
    MulAssoc(count, s, lead);
    if count > MAX_EXPANSIONS / s {
      LeadingPositive(sizes[i + 1..]);
      Exceeds(count, s, lead);
    }
  }

  lemma CountStop(sizes: seq<nat>, i: nat, count: nat)
    requires i < |sizes| && sizes[i] == 0 && Counted(sizes, i, count)
    ensures Product(sizes) == 0 && Product(Leading(sizes)) == count
  {
    assert Leading(sizes[i..]) == [];
  }

  /** Bounds the number of combinations by divisions, so that the running product never passes the limit.  It
      accepts exactly when the combinations fit beside what is there already, provided the lists before the first
      empty one do not pass the limit by themselves.
   */
  method Expansions(a: seq<seq<string>>, emitted: nat) returns (ok: bool, count: nat)
    ensures ok <==> Product(Leading(Sizes(a))) <= MAX_EXPANSIONS && Product(Sizes(a)) + emitted <= MAX_EXPANSIONS
    ensures ok ==> count == Product(Sizes(a))
    ensures count <= MAX_EXPANSIONS
  {
    ghost var sizes := Sizes(a);
    count := 1;
    assert sizes[0..] == sizes;
    var i := 0;
    while i < |a|
      invariant i <= |a| && 0 < count <= MAX_EXPANSIONS && Counted(sizes, i, count)
    {
      var s := |a[i]|;
      if s == 0 {
        CountStop(sizes, i, count);
        count := 0;
        break;
      }
      CountStep(sizes, i, count);
      if count > MAX_EXPANSIONS / s {
        return false, 0;
      }
      Fits(count, s);
      count := count * s;
      i := i + 1;
    }
    assert count == Product(sizes) && Product(Leading(sizes)) <= MAX_EXPANSIONS by {
      if count > 0 {
        assert sizes[i..] == [] && Leading([]) == [];
      }
    }
    ok := emitted <= MAX_EXPANSIONS - count;
  }

  /** Without empty lists the guard accepts exactly when everything fits. */
  lemma {:induction false} NoEmptyList(sizes: seq<nat>)
    requires forall j :: 0 <= j < |sizes| ==> sizes[j] > 0
    ensures Leading(sizes) == sizes
  {
    if sizes != [] {
      NoEmptyList(sizes[1..]);
    }
  }

  lemma {:induction false} PositiveProduct(sizes: seq<nat>)
    requires forall j :: 0 <= j < |sizes| ==> sizes[j] > 0
    ensures Product(sizes) > 0
  {
    if sizes != [] {
      PositiveProduct(sizes[1..]);
    }
  }

  // The lists of values.

  /** What a template asks for. */
  datatype Op = Name | Subject | AccountName | AccountSubject | Tag(name: string) | AccountTag(name: string) | Undefined

  /** What the user's token and the account say. */
  datatype Facts = Facts(name: string, subject: string, tags: seq<string>, accountName: string, account: string, accountTags: seq<string>)

  /** The values of the tags that begin with a prefix. */
  function Tagged(tags: seq<string>, prefix: string): seq<string> {
    if tags == [] then []
    else
      var last := tags[|tags| - 1];
      Tagged(tags[..|tags| - 1], prefix) + if prefix <= last then [last[|prefix|..]] else []
  }

  /** The values a template stands for, if any: an undefined tag is an error if `strict`, and a blank otherwise. */
  function ValuesFor(op: Op, facts: Facts, strict: bool): (r: Option<seq<string>>)
    ensures r.Some? ==> r.value != []
  {
    match op
    case Name => Some([facts.name])
    case Subject => Some([facts.subject])
    case AccountName => Some([facts.accountName])
    case AccountSubject => Some([facts.account])
    case Tag(name) => TagValues(Tagged(facts.tags, Strings.Lower(name) + ":"), strict)
    case AccountTag(name) => TagValues(Tagged(facts.accountTags, Strings.Lower(name) + ":"), strict)
    case Undefined => None
  }

  function TagValues(values: seq<string>, strict: bool): (r: Option<seq<string>>)
    ensures r.Some? ==> r.value != []
  {
    if values != [] then Some(values) else if strict then None else Some([" "])
  }

  lemma {:induction false} TaggedExactly(tags: seq<string>, prefix: string, v: string)
    ensures v in Tagged(tags, prefix) <==> prefix + v in tags
    decreases |tags|
  {
    if tags != [] {
      var init, last := tags[..|tags| - 1], tags[|tags| - 1];
      TaggedExactly(init, prefix, v);
      assert tags == init + [last];
      if prefix <= last {
        assert last == prefix + last[|prefix|..];
        assert prefix + v == last ==> last[|prefix|..] == v;
      } else {
        assert prefix <= prefix + v;
      }
    }
  }

  /** A tag template of any case stands for what comes after its name and a colon in the tags of the user, or of the account;
      where no tag has the name it is an error, or a blank.
   */
  lemma TagsExactly(facts: Facts, name: string, strict: bool, v: string)
    ensures var key := Strings.Lower(name) + ":";
            && (match ValuesFor(Tag(name), facts, strict)
                case None => strict && key + v !in facts.tags
                case Some(values) => v in values <==> key + v in facts.tags || (values == [" "] && v == " "))
            && (match ValuesFor(AccountTag(name), facts, strict)
                case None => strict && key + v !in facts.accountTags
                case Some(values) => v in values <==> key + v in facts.accountTags || (values == [" "] && v == " "))
  {
    TaggedExactly(facts.tags, Strings.Lower(name) + ":", v);
    TaggedExactly(facts.accountTags, Strings.Lower(name) + ":", v);
  }

  method CollectTags(tags: seq<string>, prefix: string) returns (values: seq<string>)
    ensures values == Tagged(tags, prefix)
  {
    values := [];
    for i := 0 to |tags|
      invariant values == Tagged(tags[..i], prefix)
    {
      OneMore(tags, i);
      assert tags[..i + 1][..i] == tags[..i];
      if prefix <= tags[i] {
        values := values + [tags[i][|prefix|..]];
      }
    }
    assert tags[..|tags|] == tags;
  }

  method ListValues(op: Op, facts: Facts, strict: bool) returns (r: Option<seq<string>>)
    ensures r == ValuesFor(op, facts, strict)
  {
    match op
    case Name => r := Some([facts.name]);
    case Subject => r := Some([facts.subject]);
    case AccountName => r := Some([facts.accountName]);
    case AccountSubject => r := Some([facts.account]);
    case Tag(name) =>
      var values := CollectTags(facts.tags, Strings.Lower(name) + ":");
      r := TagValues(values, strict);
    case AccountTag(name) =>
      var values := CollectTags(facts.accountTags, Strings.Lower(name) + ":");
      r := TagValues(values, strict);
    case Undefined => r := None;
  }

  predicate Defined(ops: seq<Op>, facts: Facts, strict: bool) {
    forall i :: 0 <= i < |ops| ==> ValuesFor(ops[i], facts, strict).Some?
  }

  function Values(ops: seq<Op>, facts: Facts, strict: bool): seq<seq<string>>
    requires Defined(ops, facts, strict)
  {
    seq(|ops|, i requires 0 <= i < |ops| => ValuesFor(ops[i], facts, strict).value)
  }

  /** The lists for the templates of a subject: an error exactly when one of them has no values. */
  method CollectValues(ops: seq<Op>, facts: Facts, strict: bool) returns (r: Option<seq<seq<string>>>)
    ensures r == if Defined(ops, facts, strict) then Some(Values(ops, facts, strict)) else None
  {
    var values := [];
    for i := 0 to |ops|
      invariant |values| == i && forall j :: 0 <= j < i ==> Some(values[j]) == ValuesFor(ops[j], facts, strict)
    {
      var list := ListValues(ops[i], facts, strict);
      if list.None? {
        return None;
      }
      values := values + [list.value];
    }
    assert values == Values(ops, facts, strict);
    r := Some(values);
  }

  datatype Expansion = BadTemplate | TooMany | Expanded(combinations: seq<seq<string>>)

  predicate IsTag(op: Op) { op.Tag? || op.AccountTag? }

  /** Some template is a tag, so that there may be several combinations. */
  predicate HasTags(ops: seq<Op>) { exists i :: 0 <= i < |ops| && IsTag(ops[i]) }

  method FindTags(ops: seq<Op>) returns (hasTags: bool)
    ensures hasTags == HasTags(ops)
  {
    hasTags := false;
    for i := 0 to |ops|
      invariant hasTags == HasTags(ops[..i])
    {
      OneMore(ops, i);
      if IsTag(ops[i]) {
        hasTags := true;
        assert IsTag(ops[..i + 1][i]);
      }
      assert forall j :: 0 <= j < i ==> ops[..i][j] == ops[..i + 1][j];
    }
    assert ops[..|ops|] == ops;
  }

  /** Without tags each list has one value, so there is one combination. */
  lemma {:induction false} OneEach(ops: seq<Op>, facts: Facts, strict: bool)
    requires Defined(ops, facts, strict) && !HasTags(ops)
    ensures var a := Values(ops, facts, strict);
            (forall i :: 0 <= i < |a| ==> |a[i]| == 1) && Product(Sizes(a)) == 1 && Digits(Sizes(a), 0) == Zeros(|a|)
  {
    var a := Values(ops, facts, strict);
    forall i | 0 <= i < |a|
      ensures |a[i]| == 1
    {
      assert !IsTag(ops[i]);
    }
    OnesProduct(Sizes(a));
  }

  lemma {:induction false} OnesProduct(sizes: seq<nat>)
    requires forall i :: 0 <= i < |sizes| ==> sizes[i] == 1
    ensures Product(sizes) == 1 && Digits(sizes, 0) == Zeros(|sizes|)
  {
    if sizes != [] {
      OnesProduct(sizes[1..]);
    }
  }

  /** The first value of each list. */
  method FirstValues(a: seq<seq<string>>) returns (r: seq<string>)
    requires forall i :: 0 <= i < |a| ==> a[i] != []
    ensures |r| == |a| && forall i :: 0 <= i < |a| ==> r[i] == a[i][0]
  {
    r := [];
    for i := 0 to |a|
      invariant |r| == i && forall j :: 0 <= j < i ==> r[j] == a[j][0]
    {
      r := r + [a[i][0]];
    }
  }

  /** Expands the templates of a subject.  It is refused exactly when a template has no values, or one is a tag and the
      combinations do not fit beside what is there already; otherwise there is at least one, and each is there once,
      in order.
   */
  method ExpandTemplate(ops: seq<Op>, facts: Facts, strict: bool, emitted: nat) returns (r: Expansion)
    ensures r.BadTemplate? <==> !Defined(ops, facts, strict)
    ensures Defined(ops, facts, strict) ==>
              var a := Values(ops, facts, strict);
              && (r.TooMany? <==> HasTags(ops) && Product(Sizes(a)) + emitted > MAX_EXPANSIONS)
              && (r.Expanded? ==>
                    && 0 < |r.combinations| == Product(Sizes(a))
                    && forall k :: 0 <= k < |r.combinations| ==> r.combinations[k] == Pick(a, Digits(Sizes(a), k)))
  {
    var values := CollectValues(ops, facts, strict);
    if values.None? {
      return BadTemplate;
    }
    var hasTags := FindTags(ops);
    if !hasTags {
      OneEach(ops, facts, strict);
      var first := FirstValues(values.value);
      assert first == Pick(values.value, Zeros(|values.value|));
      return Expanded([first]);
    }
    NoEmptyList(Sizes(values.value));
    PositiveProduct(Sizes(values.value));
    var ok, _ := Expansions(values.value, emitted);
    if !ok {
      return TooMany;
    }
    var combinations := CartesianProduct(values.value);
    r := Expanded(combinations);
  }
}
