/** Weighted subject mappings (server/accounts.go): destinations with weights out of a hundred, kept as running sums
in bytes, and the choice of one by a draw below a hundred.

Whether a subject may be a source is given by `legal`, and whether it may be a destination of the source by `valid`.
 */
module WeightedMapping {
  import opened Basics
  import Strings
  import opened SubjectTokens

  type Byte = n: nat | n < 256

  datatype MapDest = MapDest(subject: string, weight: Byte, cluster: string)

  datatype Dest = Dest(subject: string, weight: nat)

  datatype Mapping = Mapping(dests: seq<Dest>, cdests: map<string, seq<Dest>>)

  /** Addition of bytes wraps around. */
  function Add(x: Byte, y: Byte): Byte { (x + y) % 256 }

  // What a mapping should be.

  /** The destinations for a cluster, in the order given. */
  function Listed(dests: seq<MapDest>, cluster: string): seq<Dest> {
    if dests == [] then []
    else
      var d := dests[|dests| - 1];
      var before := Listed(dests[..|dests| - 1], cluster);
      if d.cluster == cluster then before + [Dest(d.subject, d.weight)] else before
  }

  /** The weight of the first entries. */
  function Prefix(ds: seq<Dest>, i: nat): nat
    requires i <= |ds|
  {
    if i == 0 then 0 else Prefix(ds, i - 1) + ds[i - 1].weight
  }

  function Total(ds: seq<Dest>): nat { Prefix(ds, |ds|) }

  lemma {:induction false} PrefixSame(a: seq<Dest>, b: seq<Dest>, i: nat)
    requires i <= |a| && i <= |b| && a[..i] == b[..i]
    ensures Prefix(a, i) == Prefix(b, i)
    decreases i
  {
    if i > 0 {
      assert a[i - 1] == a[..i][i - 1] == b[..i][i - 1] == b[i - 1];
      assert a[..i - 1] == a[..i][..i - 1] == b[..i][..i - 1] == b[..i - 1];
      PrefixSame(a, b, i - 1);
    }
  }

  lemma {:induction false} PrefixRises(ds: seq<Dest>, i: nat, j: nat)
    requires i <= j <= |ds|
    ensures Prefix(ds, i) <= Prefix(ds, j)
    decreases j
  {
    if i < j {
      PrefixRises(ds, i, j - 1);
    }
  }

  lemma TotalAppend(ds: seq<Dest>, d: Dest)
    ensures Total(ds + [d]) == Total(ds) + d.weight
  {
    PrefixSame(ds + [d], ds, |ds|);
  }

  predicate Named(dests: seq<MapDest>, subject: string) {
    exists i :: 0 <= i < |dests| && dests[i].subject == subject
  }

  ghost predicate Acceptable(dests: seq<MapDest>, valid: string -> bool) {
    && (forall i, j :: 0 <= i < j < |dests| ==> dests[i].subject != dests[j].subject)
    && (forall i :: 0 <= i < |dests| ==> dests[i].weight <= 100 && valid(dests[i].subject))
    && (forall c :: Total(Listed(dests, c)) <= 100)
  }

  /** The destinations with `fill` added for what is missing of a hundred, unless the source is listed. */
  function Filled(fill: string, listed: bool, ds: seq<Dest>): seq<Dest>
    requires Total(ds) <= 100
  {
    if Total(ds) != 100 && !listed then ds + [Dest(fill, 100 - Total(ds))] else ds
  }

  /** Some list has to be filled up. */
  ghost predicate NeedsFill(src: string, dests: seq<MapDest>) {
    !Named(dests, src) && exists c :: (c == "" || InCluster(dests, c)) && Total(Listed(dests, c)) != 100
  }

  /** A kept list holds running sums. */
  function Sums(ds: seq<Dest>): seq<Dest> {
    seq(|ds|, i requires 0 <= i < |ds| => Dest(ds[i].subject, Prefix(ds, i + 1)))
  }

  predicate Ascending(ds: seq<Dest>) {
    forall i, j :: 0 <= i < j < |ds| ==> ds[i].weight <= ds[j].weight
  }

  /** A kept list holds the running sums of exactly these destinations, in an ascending order of weight. */
  ghost predicate Keeps(kept: seq<Dest>, ds: seq<Dest>) {
    exists order :: IsOrder(order, ds) && Total(order) <= 100 && kept == Sums(order)
  }

  predicate IsOrder(order: seq<Dest>, ds: seq<Dest>) { multiset(order) == multiset(ds) && Ascending(order) }

  // Choosing.

  /** The first entry whose running sum is above the draw. */
  function Choose(kept: seq<Dest>, w: nat): Option<nat> {
    ChooseFrom(kept, w, 0)
  }

  function ChooseFrom(kept: seq<Dest>, w: nat, i: nat): Option<nat>
    decreases |kept| - i
  {
    if i >= |kept| then None else if w < kept[i].weight then Some(i) else ChooseFrom(kept, w, i + 1)
  }

  lemma {:induction false} ChooseExactly(ds: seq<Dest>, w: nat, i: nat, from: nat)
    requires from <= i < |ds| && Prefix(ds, from) <= w
    ensures ChooseFrom(Sums(ds), w, from) == Some(i) <==> Prefix(ds, i) <= w < Prefix(ds, i + 1)
    decreases |ds| - from
  {
    if w < Prefix(ds, from + 1) {
      if from < i {
        PrefixRises(ds, from + 1, i);
      }
    } else if from < i {
      ChooseExactly(ds, w, i, from + 1);
    } else {
      ChooseLater(Sums(ds), w, from + 1);
    }
  }

  lemma {:induction false} ChooseLater(kept: seq<Dest>, w: nat, from: nat)
    ensures ChooseFrom(kept, w, from).Some? ==> from <= ChooseFrom(kept, w, from).value < |kept|
    decreases |kept| - from
  {
    if from < |kept| {
      ChooseLater(kept, w, from + 1);
    }
  }

  /** The draws that choose an entry. */
  function Draws(kept: seq<Dest>, i: nat): set<nat> {
    set w: nat | w < 100 && Choose(kept, w) == Some(i)
  }

  /** Exactly as many of the hundred draws choose an entry as its own weight. */
  lemma DrawsExact(ds: seq<Dest>, i: nat)
    requires Total(ds) <= 100 && i < |ds|
    ensures |Draws(Sums(ds), i)| == ds[i].weight
  {
    var lo, hi := Prefix(ds, i), Prefix(ds, i + 1);
    PrefixRises(ds, i + 1, |ds|);
    forall w: nat | w < 100
      ensures Choose(Sums(ds), w) == Some(i) <==> lo <= w < hi
    {
      ChooseExactly(ds, w, i, 0);
    }
    assert Draws(Sums(ds), i) == Interval(lo, hi);
  }

  function Interval(lo: nat, hi: nat): (s: set<nat>)
    requires lo <= hi
    ensures |s| == hi - lo && forall w :: w in s <==> lo <= w < hi
    decreases hi
  {
    if lo == hi then {} else Interval(lo, hi - 1) + {hi - 1}
  }

  /** Draws below the total choose something, and no others do. */
  lemma {:induction false} NoneDropped(ds: seq<Dest>, w: nat, from: nat)
    requires from <= |ds| && Prefix(ds, from) <= w
    ensures ChooseFrom(Sums(ds), w, from).Some? <==> w < Total(ds)
    decreases |ds| - from
  {
    if from < |ds| {
      PrefixRises(ds, from + 1, |ds|);
      if Prefix(ds, from + 1) <= w {
        NoneDropped(ds, w, from + 1);
      }
    }
  }

  // Orders.

  lemma {:induction false} PrefixWithout(ds: seq<Dest>, i: nat, k: nat)
    requires i <= k < |ds|
    ensures Prefix(ds, k + 1) == Prefix(ds[..i] + ds[i + 1..], k) + ds[i].weight
    decreases k
  {
    var less := ds[..i] + ds[i + 1..];
    if i == k {
      PrefixSame(ds, less, i);
    } else {
      PrefixWithout(ds, i, k - 1);
    }
  }

  /** The total does not depend on the order. */
  lemma {:induction false} TotalOrder(a: seq<Dest>, b: seq<Dest>)
    requires multiset(a) == multiset(b)
    ensures Total(a) == Total(b)
    decreases |a|
  {
    if a == [] {
      assert |multiset(b)| == 0;
      assert b == [];
    } else {
      var n := |a| - 1;
      Without(a, n);
      assert a[..n] + a[n + 1..] == a[..n];
      assert a[n] in multiset(b);
      var i :| 0 <= i < |b| && b[i] == a[n];
      Without(b, i);
      TotalOrder(a[..n], b[..i] + b[i + 1..]);
      PrefixWithout(b, i, |b| - 1);
      PrefixSame(a, a[..n], n);
    }
  }

  lemma Without<T>(s: seq<T>, i: nat)
    requires i < |s|
    ensures multiset(s[..i] + s[i + 1..]) == multiset(s) - multiset{s[i]}
    ensures multiset(s) == multiset(s[..i] + s[i + 1..]) + multiset{s[i]}
  {
    assert s == s[..i] + [s[i]] + s[i + 1..];
  }

  predicate Distinct(ds: seq<Dest>) {
    forall i, j :: 0 <= i < j < |ds| ==> ds[i].subject != ds[j].subject
  }

  /** The weight that the first entries give to a subject. */
  function Share(ds: seq<Dest>, x: string, i: nat): nat
    requires i <= |ds|
  {
    if i == 0 then 0 else Share(ds, x, i - 1) + if ds[i - 1].subject == x then ds[i - 1].weight else 0
  }

  function Weight(ds: seq<Dest>, x: string): nat { Share(ds, x, |ds|) }

  lemma {:induction false} ShareSame(a: seq<Dest>, b: seq<Dest>, x: string, i: nat)
    requires i <= |a| && i <= |b| && a[..i] == b[..i]
    ensures Share(a, x, i) == Share(b, x, i)
    decreases i
  {
    if i > 0 {
      assert a[i - 1] == a[..i][i - 1] == b[..i][i - 1] == b[i - 1];
      assert a[..i - 1] == a[..i][..i - 1] == b[..i][..i - 1] == b[..i - 1];
      ShareSame(a, b, x, i - 1);
    }
  }

  lemma {:induction false} ShareWithout(ds: seq<Dest>, x: string, i: nat, k: nat)
    requires i <= k < |ds|
    ensures Share(ds, x, k + 1) == Share(ds[..i] + ds[i + 1..], x, k) + if ds[i].subject == x then ds[i].weight else 0
    decreases k
  {
    var less := ds[..i] + ds[i + 1..];
    if i == k {
      ShareSame(ds, less, x, i);
    } else {
      ShareWithout(ds, x, i, k - 1);
    }
  }

  /** The weight of a subject does not depend on the order. */
  lemma {:induction false} WeightOrder(a: seq<Dest>, b: seq<Dest>, x: string)
    requires multiset(a) == multiset(b)
    ensures Weight(a, x) == Weight(b, x)
    decreases |a|
  {
    if a == [] {
      assert |multiset(b)| == 0;
      assert b == [];
    } else {
      var n := |a| - 1;
      Without(a, n);
      assert a[..n] + a[n + 1..] == a[..n];
      assert a[n] in multiset(b);
      var i :| 0 <= i < |b| && b[i] == a[n];
      Without(b, i);
      WeightOrder(a[..n], b[..i] + b[i + 1..], x);
      ShareWithout(b, x, i, |b| - 1);
      ShareSame(a, a[..n], x, n);
    }
  }

  /** A subject that is named once has the weight given with it, and one that is not named has none. */
  lemma {:induction false} ShareOnce(ds: seq<Dest>, x: string, k: nat, i: nat)
    requires Distinct(ds) && i <= |ds| && (k < |ds| ==> ds[k].subject == x) && (k >= |ds| ==> forall j :: 0 <= j < |ds| ==> ds[j].subject != x)
    ensures Share(ds, x, i) == if k < i then ds[k].weight else 0
    decreases i
  {
    if i > 0 {
      ShareOnce(ds, x, k, i - 1);
    }
  }

  lemma {:induction false} ListedFrom(dests: seq<MapDest>, c: string, k: nat)
    requires k < |Listed(dests, c)|
    ensures exists i :: 0 <= i < |dests| && dests[i].subject == Listed(dests, c)[k].subject
    decreases |dests|
  {
    var n := |dests| - 1;
    if k < |Listed(dests[..n], c)| {
      ListedFrom(dests[..n], c, k);
      var i :| 0 <= i < n && dests[..n][i].subject == Listed(dests[..n], c)[k].subject;
      assert dests[i].subject == Listed(dests, c)[k].subject;
    } else {
      assert dests[n].subject == Listed(dests, c)[k].subject;
    }
  }

  lemma {:induction false} ListedDistinct(dests: seq<MapDest>, c: string)
    requires forall i, j :: 0 <= i < j < |dests| ==> dests[i].subject != dests[j].subject
    ensures Distinct(Listed(dests, c))
    decreases |dests|
  {
    if dests != [] {
      var n := |dests| - 1;
      var before := Listed(dests[..n], c);
      ListedDistinct(dests[..n], c);
      forall k | 0 <= k < |before|
        ensures before[k].subject != dests[n].subject
      {
        ListedFrom(dests[..n], c, k);
      }
    }
  }

  // The main results.

  /** The draws that lead to a subject. */
  function DrawsTo(kept: seq<Dest>, subject: string): set<nat> {
    set w: nat | w < 100 && Leads(kept, w, subject)
  }

  predicate Leads(kept: seq<Dest>, w: nat, subject: string) {
    var i := Choose(kept, w);
    i.Some? && i.value < |kept| && kept[i.value].subject == subject
  }

  /** The draws below the running sum of the first `n` entries that lead to a subject. */
  function DrawsBelow(ds: seq<Dest>, x: string, n: nat): set<nat>
    requires n <= |ds|
  {
    set w: nat | w < Prefix(ds, n) && Leads(Sums(ds), w, x)
  }

  lemma DrawsNext(ds: seq<Dest>, x: string, n: nat)
    requires n < |ds|
    ensures DrawsBelow(ds, x, n + 1) == DrawsBelow(ds, x, n) + if ds[n].subject == x then Interval(Prefix(ds, n), Prefix(ds, n + 1)) else {}
  {
    forall w: nat | Prefix(ds, n) <= w < Prefix(ds, n + 1)
      ensures Leads(Sums(ds), w, x) <==> ds[n].subject == x
    {
      ChooseExactly(ds, w, n, 0);
    }
  }

  lemma {:induction false} CountBelow(ds: seq<Dest>, x: string, n: nat)
    requires n <= |ds|
    ensures |DrawsBelow(ds, x, n)| == Share(ds, x, n)
    decreases n
  {
    if n > 0 {
      CountBelow(ds, x, n - 1);
      DrawsNext(ds, x, n - 1);
      if ds[n - 1].subject == x {
        Apart(DrawsBelow(ds, x, n - 1), Interval(Prefix(ds, n - 1), Prefix(ds, n)));
      } else {
        assert DrawsBelow(ds, x, n) == DrawsBelow(ds, x, n - 1);
      }
    } else {
      assert DrawsBelow(ds, x, 0) == {};
    }
  }

  lemma Apart(a: set<nat>, b: set<nat>)
    requires forall x :: x in a ==> x !in b
    ensures |a + b| == |a| + |b|
  {
    assert a * b == {};
  }

  /** Exactly as many of the hundred draws lead to a subject as the list that was sorted and summed up gives it. */
  lemma DrawsFair(fill: string, listed: bool, ds: seq<Dest>, kept: seq<Dest>, x: string)
    requires Total(ds) <= 100 && Keeps(kept, Filled(fill, listed, ds))
    ensures |DrawsTo(kept, x)| == Weight(Filled(fill, listed, ds), x)
  {
    var order :| IsOrder(order, Filled(fill, listed, ds)) && Total(order) <= 100 && kept == Sums(order);
    WeightOrder(order, Filled(fill, listed, ds), x);
    CountBelow(order, x, |order|);
    forall w: nat | Leads(kept, w, x)
      ensures w < Total(order)
    {
      NoneDropped(order, w, 0);
    }
    assert DrawsTo(kept, x) == DrawsBelow(order, x, |order|);
  }

  lemma FilledWeight(fill: string, listed: bool, ds: seq<Dest>, x: string)
    requires Total(ds) <= 100
    ensures Weight(Filled(fill, listed, ds), x) == Weight(ds, x) + if x == fill && !listed then 100 - Total(ds) else 0
  {
    ShareSame(ds + [Dest(fill, 100 - Total(ds))], ds, x, |ds|);
  }

  /** A destination that is listed for a cluster gets exactly the draws its weight says if and only if it is not the one
      filled in for the source; and with a source that has no partial wildcard it always does.
   */
  lemma FairExactly(src: string, dests: seq<MapDest>, c: string, kept: seq<Dest>, valid: string -> bool, i: nat)
    requires Acceptable(dests, valid) && Kept(src, dests, c, kept) && i < |Listed(dests, c)|
    ensures var ds := Listed(dests, c);
            |DrawsTo(kept, ds[i].subject)| == ds[i].weight <==>
            ds[i].subject != Tokenize(src) || Named(dests, src) || Total(ds) == 100
    ensures !Partial(src) ==> |DrawsTo(kept, Listed(dests, c)[i].subject)| == Listed(dests, c)[i].weight
  {
    var ds := Listed(dests, c);
    var x := ds[i].subject;
    DrawsFair(Tokenize(src), Named(dests, src), ds, kept, x);
    FilledWeight(Tokenize(src), Named(dests, src), ds, x);
    ListedDistinct(dests, c);
    ShareOnce(ds, x, i, |ds|);
    TokenizeSame(src);
    ListedFrom(dests, c, i);
  }

  /** The source as it is written for a destination gets what is missing of a hundred, beside what it may be given. */
  lemma SourceGetsRest(src: string, dests: seq<MapDest>, c: string, kept: seq<Dest>)
    requires Kept(src, dests, c, kept) && !Named(dests, src)
    ensures var ds := Listed(dests, c); |DrawsTo(kept, Tokenize(src))| == Weight(ds, Tokenize(src)) + 100 - Total(ds)
  {
    DrawsFair(Tokenize(src), false, Listed(dests, c), kept, Tokenize(src));
    FilledWeight(Tokenize(src), false, Listed(dests, c), Tokenize(src));
  }

  /** A source with a wildcard that is listed for a share of thirty gets all hundred draws. */
  lemma SourceGetsAll(kept: seq<Dest>)
    requires Kept("foo.*", [MapDest("foo.$1", 30, "")], "", kept)
    ensures |DrawsTo(kept, "foo.$1")| == 100
  {
    var dests := [MapDest("foo.$1", 30, "")];
    FooStar();
    assert Listed(dests, "") == [Dest("foo.$1", 30)] by {
      assert dests[..0] == [];
    }
    assert Share([Dest("foo.$1", 30)], "foo.$1", 0) == 0;
    assert Weight([Dest("foo.$1", 30)], "foo.$1") == 30;
    assert Prefix([Dest("foo.$1", 30)], 0) == 0;
    assert "foo.$1"[4] != "foo.*"[4];
    SourceGetsRest("foo.*", dests, "", kept);
  }

  lemma FooStar()
    ensures Tokenize("foo.*") == "foo.$1"
  {
    assert "foo.*" == "foo" + Strings.Tail('.', ["*"]) by {
      assert Strings.Tail('.', ["*"]) == ".*" by {
        assert ["*"][1..] == [];
      }
    }
    Strings.SplitJoined('.', "foo", ["*"]);
    var ts := ["foo"] + ["*"];
    assert ts[1..] == ["*"] && ["*"][1..] == [];
    assert Marked([], 2) == [];
    assert Strings.Decimal(1) == "1";
    assert Marked(["*"], 1) == ["$" + "1"];
    assert "$" + "1" == "$1" && |"foo"| != |"*"|;
    assert Marked(ts, 1) == ["foo"] + ["$1"] == ["foo", "$1"];
    assert Strings.Tail('.', ["$1"]) == ".$1" by {
      assert ["$1"][1..] == [];
    }
    assert ["foo", "$1"][1..] == ["$1"];
  }

  /** A draw goes nowhere exactly when the source is listed and the draw is not below the total. */
  lemma DropsExactly(fill: string, listed: bool, ds: seq<Dest>, kept: seq<Dest>, w: nat)
    requires Total(ds) <= 100 && Keeps(kept, Filled(fill, listed, ds)) && w < 100
    ensures Choose(kept, w).None? <==> listed && Total(ds) <= w
  {
    var order :| IsOrder(order, Filled(fill, listed, ds)) && Total(order) <= 100 && kept == Sums(order);
    TotalOrder(order, Filled(fill, listed, ds));
    FilledTotal(fill, listed, ds);
    NoneDropped(order, w, 0);
  }

  /** So draws are lost exactly when the source is listed as it stands and the weights do not reach a hundred; to list it as
      it is written for a destination loses none.
   */
  lemma LossExactly(src: string, dests: seq<MapDest>, c: string, kept: seq<Dest>)
    requires Kept(src, dests, c, kept)
    ensures (exists w: nat :: w < 100 && Choose(kept, w).None?) <==> Named(dests, src) && Total(Listed(dests, c)) < 100
  {
    var ds := Listed(dests, c);
    forall w: nat | w < 100
      ensures Choose(kept, w).None? <==> Named(dests, src) && Total(ds) <= w
    {
      DropsExactly(Tokenize(src), Named(dests, src), ds, kept, w);
    }
    if Named(dests, src) && Total(ds) < 100 {
      assert Choose(kept, Total(ds)).None?;
    }
  }

  lemma FilledTotal(fill: string, listed: bool, ds: seq<Dest>)
    requires Total(ds) <= 100
    ensures Total(Filled(fill, listed, ds)) == if listed then Total(ds) else 100
  {
    TotalAppend(ds, Dest(fill, 100 - Total(ds)));
  }

  // The code.

  method SortByWeight(ds: seq<Dest>) returns (s: seq<Dest>)
    ensures multiset(s) == multiset(ds) && Ascending(s)
  {
    s := [];
    for i := 0 to |ds|
      invariant multiset(s) == multiset(ds[..i]) && Ascending(s)
    {
      assert ds[..i + 1] == ds[..i] + [ds[i]];
      s := InsertByWeight(s, ds[i]);
    }
    assert ds[..|ds|] == ds;
  }

  method InsertByWeight(s: seq<Dest>, d: Dest) returns (r: seq<Dest>)
    requires Ascending(s)
    ensures multiset(r) == multiset(s) + multiset{d} && Ascending(r)
  {
    var j := |s|;
    while j > 0 && s[j - 1].weight > d.weight
      invariant 0 <= j <= |s| && forall k :: j <= k < |s| ==> d.weight < s[k].weight
    {
      j := j - 1;
    }
    InsertKeeps(s, d, j);
    r := s[..j] + [d] + s[j..];
  }

  lemma InsertKeeps(s: seq<Dest>, d: Dest, j: nat)
    requires j <= |s| && Ascending(s) && (j > 0 ==> s[j - 1].weight <= d.weight)
    requires forall k :: j <= k < |s| ==> d.weight < s[k].weight
    ensures multiset(s[..j] + [d] + s[j..]) == multiset(s) + multiset{d}
    ensures Ascending(s[..j] + [d] + s[j..])
  {
    var r := s[..j] + [d] + s[j..];
    assert multiset(r) == multiset(s) + multiset{d} by {
      Without(r, j);
      assert r[..j] + r[j + 1..] == s;
    }
    AscendingAround(s[..j], d, s[j..]);
  }

  lemma AscendingAround(a: seq<Dest>, d: Dest, b: seq<Dest>)
    requires Ascending(a) && Ascending(b)
    requires forall k :: 0 <= k < |a| ==> a[k].weight <= d.weight
    requires forall k :: 0 <= k < |b| ==> d.weight <= b[k].weight
    ensures Ascending(a + [d] + b)
  {
  }

  /** Replaces weights by running sums, in bytes. */
  method Accumulate(ds: seq<Dest>) returns (kept: seq<Dest>)
    requires Total(ds) <= 100
    ensures kept == Sums(ds)
  {
    kept := [];
    var lw: Byte := 0;
    for i := 0 to |ds|
      invariant |kept| == i && lw == Prefix(ds, i)
      invariant forall k :: 0 <= k < i ==> kept[k] == Sums(ds)[k]
    {
      PrefixRises(ds, i + 1, |ds|);
      lw := Add(ds[i].weight, lw);
      kept := kept + [Dest(ds[i].subject, lw)];
    }
  }

  method SumWeights(ds: seq<Dest>) returns (ltw: Byte)
    requires Total(ds) <= 100
    ensures ltw == Total(ds)
  {
    ltw := 0;
    for i := 0 to |ds|
      invariant ltw == Prefix(ds, i)
    {
      PrefixRises(ds, i + 1, |ds|);
      ltw := Add(ltw, ds[i].weight);
    }
  }

  /** Fills a list up, unless the source is listed, sorts it and sums it up; an error if the source is no destination. */
  method ProcessDestinations(src: string, listed: bool, ds: seq<Dest>, valid: string -> bool) returns (kept: Option<seq<Dest>>)
    requires Total(ds) <= 100
    ensures kept.None? <==> !listed && Total(ds) != 100 && !valid(Tokenize(src))
    ensures kept.Some? ==> Keeps(kept.value, Filled(Tokenize(src), listed, ds))
  {
    var ltw := SumWeights(ds);
    var all := ds;
    TokenizeSame(src);
    if ltw != 100 && !listed {
      var dest := src;
      if Partial(src) {
        dest := TransformTokenize(src);
      }
      if !valid(dest) {
        return None;
      }
      all := ds + [Dest(dest, 100 - ltw)];
    }
    var sorted := SortByWeight(all);
    FilledTotal(Tokenize(src), listed, ds);
    TotalOrder(all, sorted);
    var sums := Accumulate(sorted);
    kept := Some(sums);
  }

  /** The list that serves a cluster: its own, or the main one. */
  function ListFor(m: Mapping, cluster: string): seq<Dest> {
    if cluster in m.cdests then m.cdests[cluster] else m.dests
  }

  function Picked(kept: seq<Dest>, i: Option<nat>): Option<Dest> {
    if i.Some? && i.value < |kept| then Some(kept[i.value]) else None
  }

  /** The destination for a draw: a scan for the first running sum above it, with a shortcut for a single full
      entry.
   */
  method SelectMapped(m: Mapping, cluster: string, w: nat) returns (d: Option<Dest>)
    requires w < 100
    ensures d == Picked(ListFor(m, cluster), Choose(ListFor(m, cluster), w))
  {
    var kept := m.dests;
    if m.cdests != map[] && cluster in m.cdests {
      kept := m.cdests[cluster];
    }
    if |kept| == 1 && kept[0].weight == 100 {
      return Some(kept[0]);
    }
    for i := 0 to |kept|
      invariant Choose(kept, w) == ChooseFrom(kept, w, i)
    {
      if w < kept[i].weight {
        return Some(kept[i]);
      }
    }
    d := None;
  }

  // Reading the destinations: totals by cluster, and destinations by cluster.

  ghost predicate Totals(dests: seq<MapDest>, tw: map<string, Byte>) {
    forall c :: Total(Listed(dests, c)) == (if c in tw then tw[c] else 0) <= 100
  }

  ghost predicate Lists(dests: seq<MapDest>, m: Mapping) {
    && m.dests == Listed(dests, "")
    && (forall c :: c in m.cdests <==> c != "" && InCluster(dests, c))
    && (forall c :: c != "" ==> Listed(dests, c) == (if c in m.cdests then m.cdests[c] else []))
  }

  function Counted(tw: map<string, Byte>, d: MapDest): map<string, Byte> {
    tw[d.cluster := Add(if d.cluster in tw then tw[d.cluster] else 0, d.weight)]
  }

  function Added(m: Mapping, d: MapDest): Mapping {
    var entry := [Dest(d.subject, d.weight)];
    if d.cluster == "" then m.(dests := m.dests + entry)
    else m.(cdests := m.cdests[d.cluster := (if d.cluster in m.cdests then m.cdests[d.cluster] else []) + entry])
  }

  lemma TotalsMore(dests: seq<MapDest>, d: MapDest, tw: map<string, Byte>)
    requires Totals(dests, tw) && d.weight <= 100
    ensures Counted(tw, d)[d.cluster] == Total(Listed(dests + [d], d.cluster))
    ensures Counted(tw, d)[d.cluster] <= 100 ==> Totals(dests + [d], Counted(tw, d))
  {
    assert Total(Listed(dests, d.cluster)) <= 100;
    forall c
      ensures Total(Listed(dests + [d], c)) == Total(Listed(dests, c)) + if d.cluster == c then d.weight else 0
    {
      ListedMore(dests, d, c);
    }
  }

  lemma ListsMore(dests: seq<MapDest>, d: MapDest, m: Mapping)
    requires Lists(dests, m)
    ensures Lists(dests + [d], Added(m, d))
  {
    var more, m1 := dests + [d], Added(m, d);
    ListedMore(dests, d, "");
    forall c | c != ""
      ensures Listed(more, c) == (if c in m1.cdests then m1.cdests[c] else [])
    {
      ListedMore(dests, d, c);
    }
    forall c
      ensures c in m1.cdests <==> c != "" && InCluster(more, c)
    {
      ClusterMore(dests, d, c);
    }
  }

  predicate InCluster(dests: seq<MapDest>, c: string) {
    exists i :: 0 <= i < |dests| && dests[i].cluster == c
  }

  lemma ClusterMore(dests: seq<MapDest>, d: MapDest, c: string)
    ensures InCluster(dests + [d], c) <==> InCluster(dests, c) || d.cluster == c
  {
    var more := dests + [d];
    assert more[|dests|] == d;
    if InCluster(dests, c) {
      var i :| 0 <= i < |dests| && dests[i].cluster == c;
      assert more[i].cluster == c;
    }
  }

  lemma ListedMore(dests: seq<MapDest>, d: MapDest, c: string)
    ensures Listed(dests + [d], c) == if d.cluster == c then Listed(dests, c) + [Dest(d.subject, d.weight)] else Listed(dests, c)
    ensures Total(Listed(dests + [d], c)) == Total(Listed(dests, c)) + if d.cluster == c then d.weight else 0
  {
    assert (dests + [d])[..|dests|] == dests;
    TotalAppend(Listed(dests, c), Dest(d.subject, d.weight));
  }

  lemma {:induction false} ListedPrefix(dests: seq<MapDest>, i: nat, c: string)
    requires i <= |dests|
    ensures Total(Listed(dests[..i], c)) <= Total(Listed(dests, c))
    decreases |dests| - i
  {
    if i < |dests| {
      ListedPrefix(dests, i + 1, c);
      assert dests[..i + 1] == dests[..i] + [dests[i]];
      ListedMore(dests[..i], dests[i], c);
    } else {
      assert dests[..i] == dests;
    }
  }

  /** A list kept for a cluster. */
  ghost predicate Kept(src: string, dests: seq<MapDest>, c: string, kept: seq<Dest>) {
    var ds := Listed(dests, c);
    Total(ds) <= 100 && Keeps(kept, Filled(Tokenize(src), Named(dests, src), ds))
  }

  lemma AcceptableMore(dests: seq<MapDest>, d: MapDest, valid: string -> bool)
    requires Acceptable(dests, valid) && !Named(dests, d.subject) && d.weight <= 100 && valid(d.subject)
    requires Total(Listed(dests + [d], d.cluster)) <= 100
    ensures Acceptable(dests + [d], valid)
  {
    forall c
      ensures Total(Listed(dests + [d], c)) <= 100
    {
      ListedMore(dests, d, c);
    }
  }

  lemma Refused(dests: seq<MapDest>, i: nat, valid: string -> bool)
    requires i < |dests|
    requires || Named(dests[..i], dests[i].subject) || dests[i].weight > 100 || !valid(dests[i].subject)
             || Total(Listed(dests[..i + 1], dests[i].cluster)) > 100
    ensures !Acceptable(dests, valid)
  {
    ListedPrefix(dests, i + 1, dests[i].cluster);
  }

  lemma NamedMore(dests: seq<MapDest>, d: MapDest, x: string)
    ensures Named(dests + [d], x) <==> Named(dests, x) || d.subject == x
  {
    var more := dests + [d];
    assert more[|dests|] == d;
    if Named(dests, x) {
      var i :| 0 <= i < |dests| && dests[i].subject == x;
      assert more[i].subject == x;
    }
  }

  /** Adds a mapping: refused for a bad or repeated subject, a weight above a hundred, a cluster whose weights total more
      than a hundred, or a source that would have to be filled in and may not be a destination; otherwise each list
      kept holds what it should.
   */
  method AddWeightedMappings(src: string, dests: seq<MapDest>, legal: string -> bool, valid: string -> bool)
    returns (r: Option<Mapping>)
    ensures r.Some? <==> legal(src) && Acceptable(dests, valid) && (NeedsFill(src, dests) ==> valid(Tokenize(src)))
    ensures r.Some? ==> forall c :: c in r.value.cdests <==> c != "" && InCluster(dests, c)
    ensures r.Some? ==> Kept(src, dests, "", r.value.dests)
    ensures r.Some? ==> forall c :: c in r.value.cdests ==> Kept(src, dests, c, r.value.cdests[c])
  {
    if !legal(src) {
      return None;
    }
    var m := ReadDestinations(dests, valid);
    if m.None? {
      return None;
    }
    r := ProcessLists(src, dests, m.value, valid);
  }

  /** A list is complete, or may be filled up. */
  predicate Fillable(src: string, dests: seq<MapDest>, c: string, valid: string -> bool) {
    Named(dests, src) || Total(Listed(dests, c)) == 100 || valid(Tokenize(src))
  }

  method ProcessLists(src: string, dests: seq<MapDest>, m: Mapping, valid: string -> bool) returns (r: Option<Mapping>)
    requires Acceptable(dests, valid) && Lists(dests, m)
    ensures r.Some? <==> (NeedsFill(src, dests) ==> valid(Tokenize(src)))
    ensures r.Some? ==> r.value.cdests.Keys == m.cdests.Keys && Kept(src, dests, "", r.value.dests)
    ensures r.Some? ==> forall c :: c in r.value.cdests ==> Kept(src, dests, c, r.value.cdests[c])
  {
    AllFillable(src, dests, m, valid);
    var main := ProcessDestinations(src, Named(dests, src), m.dests, valid);
    if main.None? {
      return None;
    }
    var cdests := ProcessClusters(src, dests, m, valid);
    if cdests.None? {
      return None;
    }
    r := Some(Mapping(main.value, cdests.value));
  }

  method ProcessClusters(src: string, dests: seq<MapDest>, m: Mapping, valid: string -> bool)
    returns (r: Option<map<string, seq<Dest>>>)
    requires Acceptable(dests, valid) && Lists(dests, m)
    ensures r.Some? <==> forall c :: c in m.cdests ==> Fillable(src, dests, c, valid)
    ensures r.Some? ==> r.value.Keys == m.cdests.Keys && forall c :: c in r.value ==> Kept(src, dests, c, r.value[c])
  {
    var cdests := map[];
    var todo := m.cdests.Keys;
    while todo != {}
      invariant todo <= m.cdests.Keys && cdests.Keys == m.cdests.Keys - todo
      invariant forall c :: c in cdests ==> Kept(src, dests, c, cdests[c]) && Fillable(src, dests, c, valid)
    {
      var c :| c in todo;
      assert Listed(dests, c) == m.cdests[c];
      var kept := ProcessDestinations(src, Named(dests, src), m.cdests[c], valid);
      if kept.None? {
        assert !Fillable(src, dests, c, valid);
        return None;
      }
      cdests := cdests[c := kept.value];
      todo := todo - {c};
    }
    r := Some(cdests);
  }

  lemma AllFillable(src: string, dests: seq<MapDest>, m: Mapping, valid: string -> bool)
    requires Lists(dests, m)
    ensures (NeedsFill(src, dests) ==> valid(Tokenize(src))) <==>
            Fillable(src, dests, "", valid) && forall c :: c in m.cdests ==> Fillable(src, dests, c, valid)
  {
    if NeedsFill(src, dests) && !valid(Tokenize(src)) {
      var c :| (c == "" || InCluster(dests, c)) && Total(Listed(dests, c)) != 100;
      assert !Fillable(src, dests, c, valid);
    }
  }

  method ReadDestinations(dests: seq<MapDest>, valid: string -> bool) returns (m: Option<Mapping>)
    ensures m.Some? <==> Acceptable(dests, valid)
    ensures m.Some? ==> Lists(dests, m.value)
  {
    var built := Mapping([], map[]);
    var tw: map<string, Byte> := map[];
    var seen: set<string> := {};
    ghost var done: seq<MapDest> := [];
    for i := 0 to |dests|
      invariant done == dests[..i] && Acceptable(done, valid)
      invariant Totals(done, tw) && Lists(done, built) && Seen(done, seen)
    {
      var d := dests[i];
      OneMore(dests, i);
      if d.subject in seen || d.weight > 100 {
        Refused(dests, i, valid);
        return None;
      }
      SeenMore(done, d, seen);
      seen := seen + {d.subject};
      TotalsMore(done, d, tw);
      tw := Counted(tw, d);
      if tw[d.cluster] > 100 || !valid(d.subject) {
        Refused(dests, i, valid);
        return None;
      }
      AcceptableMore(done, d, valid);
      ListsMore(done, d, built);
      built, done := Added(built, d), done + [d];
    }
    assert dests[..|dests|] == dests;
    m := Some(built);
  }

  ghost predicate Seen(dests: seq<MapDest>, seen: set<string>) { forall x :: x in seen <==> Named(dests, x) }

  lemma SeenMore(dests: seq<MapDest>, d: MapDest, seen: set<string>)
    requires Seen(dests, seen)
    ensures Seen(dests + [d], seen + {d.subject})
  {
    forall x
      ensures Named(dests + [d], x) <==> Named(dests, x) || d.subject == x
    {
      NamedMore(dests, d, x);
    }
  }

}
