/** The queue of pull requests of a consumer, as a sequence of requests (server/consumer.go). */
module WaitQueueSpec {
  import opened Basics

  const MAX_INT32: int := 0x7FFF_FFFF

  /** `left` is what is still to be delivered on the request, `done` what was. */
  datatype Req = Req(reply: string, group: Option<int>, left: int, done: int)

  function Priority(r: Req): int { if r.group.None? then MAX_INT32 else r.group.value }

  /** The place of a new request of priority `p`: before the first request of a larger number. */
  function Place(q: seq<Req>, p: int): (i: nat)
    ensures i <= |q|
    ensures forall j :: 0 <= j < i ==> Priority(q[j]) <= p
    ensures i < |q| ==> Priority(q[i]) > p
  {
    if q == [] || Priority(q[0]) > p then 0 else Place(q[1..], p) + 1
  }

  function Insert(q: seq<Req>, r: Req): seq<Req> {
    var i := Place(q, Priority(r));
    q[..i] + [r] + q[i..]
  }

  function Served(r: Req): Req { r.(left := r.left - 1, done := r.done + 1) }

  /** Serves the head once, and puts it back behind the requests of its priority while it has more to get. */
  function PopAndRequeue(q: seq<Req>): seq<Req>
    requires q != []
  {
    var r := Served(q[0]);
    if r.left <= 0 then q[1..]
    else if |q| == 1 then [r]
    else Insert(q[1..], r)
  }

  /** Serves the head once, and puts it at the end of the queue while it has more to get. */
  function Pop(q: seq<Req>): seq<Req>
    requires q != []
  {
    var r := Served(q[0]);
    if r.left <= 0 then q[1..] else q[1..] + [r]
  }

  ghost predicate Sorted(q: seq<Req>) {
    forall i, j :: 0 <= i < j < |q| ==> Priority(q[i]) <= Priority(q[j])
  }

  /** Inserting leaves the requests already there in their order, the new one among them. */
  lemma InsertAt(q: seq<Req>, r: Req, j: nat)
    requires j <= |q|
    ensures var i := Place(q, Priority(r));
            |Insert(q, r)| == |q| + 1 && Insert(q, r)[j] == if j < i then q[j] else if j == i then r else q[j - 1]
  {
  }

  /** The new request is behind those of its priority and ahead of those of a larger number. */
  lemma InsertFifo(q: seq<Req>, r: Req, j: nat)
    requires Sorted(q) && j < |q|
    ensures j < Place(q, Priority(r)) <==> Priority(q[j]) <= Priority(r)
  {
  }

  lemma InsertSorted(q: seq<Req>, r: Req)
    requires Sorted(q)
    ensures Sorted(Insert(q, r))
  {
    var p := Insert(q, r);
    forall i, j | 0 <= i < j < |p|
      ensures Priority(p[i]) <= Priority(p[j])
    {
      InsertAt(q, r, i);
      InsertAt(q, r, j);
      if i < |q| { InsertFifo(q, r, i); }
      if 0 < j { InsertFifo(q, r, j - 1); }
    }
  }

  lemma InsertContents(q: seq<Req>, r: Req)
    ensures multiset(Insert(q, r)) == multiset(q) + multiset{r}
  {
    var i := Place(q, Priority(r));
    assert q == q[..i] + q[i..];
  }

  /** A pop keeps the order; the requests other than the head stay, and the head stays, served once more,
      unless that was its last delivery.
   */
  lemma PopAndRequeueKeeps(q: seq<Req>)
    requires q != [] && Sorted(q)
    ensures var r := Served(q[0]);
            && Sorted(PopAndRequeue(q))
            && multiset(PopAndRequeue(q)) == multiset(q[1..]) + (if r.left > 0 then multiset{r} else multiset{})
  {
    InsertSorted(q[1..], Served(q[0]));
    InsertContents(q[1..], Served(q[0]));
  }

  /** The first `k` requests are all those of the best priority. */
  ghost predicate Front(q: seq<Req>, k: nat) {
    && 1 <= k <= |q|
    && (forall i :: 0 <= i < k ==> Priority(q[i]) == Priority(q[0]))
    && forall i :: k <= i < |q| ==> Priority(q[i]) > Priority(q[0])
  }

  lemma PlaceUnique(q: seq<Req>, p: int, i: nat)
    requires i <= |q| && (forall j :: 0 <= j < i ==> Priority(q[j]) <= p) && (i < |q| ==> Priority(q[i]) > p)
    ensures Place(q, p) == i
  {
  }

  /** Of requests that were each served once: those that have more to get, in their order. */
  function Again(q: seq<Req>): seq<Req> {
    if q == [] then [] else (if q[0].left > 1 then [Served(q[0])] else []) + Again(q[1..])
  }

  ghost predicate AllAt(q: seq<Req>, p: int) { forall i :: 0 <= i < |q| ==> Priority(q[i]) == p }

  ghost predicate AllAfter(q: seq<Req>, p: int) { forall i :: 0 <= i < |q| ==> Priority(q[i]) > p }

  lemma InsertBetween(a: seq<Req>, r: Req, c: seq<Req>)
    requires AllAt(a, Priority(r)) && AllAfter(c, Priority(r))
    ensures Insert(a + c, r) == a + [r] + c
  {
    PlaceUnique(a + c, Priority(r), |a|);
    assert (a + c)[..|a|] == a && (a + c)[|a|..] == c;
  }

  /** A head goes behind the other requests of its priority, ahead of all others, or leaves on its last delivery. */
  lemma PopMoves(h: Req, a: seq<Req>, c: seq<Req>)
    requires AllAt(a, Priority(h)) && AllAfter(c, Priority(h))
    ensures PopAndRequeue([h] + a + c) == a + (if h.left > 1 then [Served(h)] else []) + c
  {
    assert ([h] + a + c)[1..] == a + c;
    assert Priority(Served(h)) == Priority(h);
    InsertBetween(a, Served(h), c);
    if a + c == [] {
      assert a == [] && c == [];
    }
  }

  /** The heads served by `m` pops, and the queue after them. */
  function ServeMany(q: seq<Req>, m: nat): (seq<Req>, seq<Req>)
    decreases m
  {
    if m == 0 || q == [] then ([], q)
    else
      var (heads, rest) := ServeMany(PopAndRequeue(q), m - 1);
      ([q[0]] + heads, rest)
  }

  lemma HeadOff<T>(a: seq<T>, b: seq<T>, c: seq<T>)
    requires a != []
    ensures [a[0]] + a[1..] == a && a + b + c == [a[0]] + (a[1..] + b) + c && (a + b + c)[0] == a[0]
  {
  }

  lemma GroupOf(a: seq<Req>, b: seq<Req>, more: seq<Req>, p: int)
    requires a != [] && AllAt(a, p) && AllAt(b, p) && (more == [] || more == [Served(a[0])])
    ensures AllAt(b + more, p) && AllAt(a[1..] + b, p)
  {
    assert Priority(Served(a[0])) == Priority(a[0]);
  }

  lemma ServeOne(q: seq<Req>, m: nat, heads: seq<Req>, rest: seq<Req>)
    requires q != [] && m > 0 && ServeMany(PopAndRequeue(q), m - 1) == (heads, rest)
    ensures ServeMany(q, m) == ([q[0]] + heads, rest)
  {
  }

  /** With requests `a` and `b` of the best priority ahead of `c`, as many pops as there are in `a` serve exactly
      those in `a`.
   */
  lemma {:induction false} ServeGroup(a: seq<Req>, b: seq<Req>, c: seq<Req>, p: int)
    requires AllAt(a, p) && AllAt(b, p) && AllAfter(c, p)
    ensures ServeMany(a + b + c, |a|) == (a, b + Again(a) + c)
    decreases |a|
  {
    if a == [] {
      assert a + b + c == b + c == b + Again(a) + c;
    } else {
      var h, more := a[0], if a[0].left > 1 then [Served(a[0])] else [];
      GroupOf(a, b, more, p);
      PopMoves(h, a[1..] + b, c);
      HeadOff(a, b, c);
      assert PopAndRequeue(a + b + c) == a[1..] + (b + more) + c by { Assoc(a[1..], b, more); }
      ServeGroup(a[1..], b + more, c, p);
      Assoc(b, more, Again(a[1..]));
      ServeOne(a + b + c, |a|, a[1..], b + Again(a) + c);
    }
  }

  /** Round robin: for every `m` up to the number `k` of requests of the best priority, `m` pops serve the first `m` of
      them exactly once each, in order; behind the others of the group then stand those of them that have more to get,
      in their order, and after them everything else as it was.
   */
  lemma RoundRobin(q: seq<Req>, k: nat, m: nat)
    requires Front(q, k) && m <= k
    ensures ServeMany(q, m) == (q[..m], q[m..k] + Again(q[..m]) + q[k..])
  {
    assert q == q[..m] + q[m..k] + q[k..];
    ServeGroup(q[..m], q[m..k], q[k..], Priority(q[0]));
  }

  /** Where all have more to get, a whole round leaves the queue in the order it had. */
  lemma {:induction false} AgainAll(q: seq<Req>)
    requires forall i :: 0 <= i < |q| ==> q[i].left > 1
    ensures |Again(q)| == |q| && forall i :: 0 <= i < |q| ==> Again(q)[i] == Served(q[i])
  {
    if q != [] {
      AgainAll(q[1..]);
    }
  }

  // What requests get in all.

  /** What is still to be delivered on all requests, or on those of one reply subject. */
  function Owed(q: seq<Req>, only: Option<string>): int {
    if q == [] then 0
    else (if only.None? || q[0].reply == only.value then q[0].left else 0) + Owed(q[1..], only)
  }

  /** How many of these are of one reply subject. */
  function Count(q: seq<Req>, reply: string): nat {
    if q == [] then 0 else (if q[0].reply == reply then 1 else 0) + Count(q[1..], reply)
  }

  predicate AllOpen(q: seq<Req>) { forall i :: 0 <= i < |q| ==> q[i].left >= 1 }

  lemma {:induction false} OwedBoth(a: seq<Req>, b: seq<Req>, only: Option<string>)
    ensures Owed(a + b, only) == Owed(a, only) + Owed(b, only)
  {
    if a == [] {
      assert a + b == b;
    } else {
      OwedBoth(a[1..], b, only);
      assert (a + b)[1..] == a[1..] + b;
    }
  }

  lemma InsertOwed(q: seq<Req>, r: Req, only: Option<string>)
    ensures Owed(Insert(q, r), only) == Owed(q, only) + Owed([r], only)
  {
    var i := Place(q, Priority(r));
    assert q == q[..i] + q[i..];
    OwedBoth(q[..i], q[i..], only);
    OwedBoth(q[..i], [r], only);
    OwedBoth(q[..i] + [r], q[i..], only);
  }

  /** A pop takes exactly one delivery off what is owed, and off its own request. */
  lemma PopOwed(q: seq<Req>, only: Option<string>)
    requires q != [] && AllOpen(q)
    ensures AllOpen(PopAndRequeue(q))
    ensures Owed(PopAndRequeue(q), only) == Owed(q, only) - if only.None? || q[0].reply == only.value then 1 else 0
  {
    var r := Served(q[0]);
    InsertOwed(q[1..], r, only);
    assert [r][1..] == [] && (|q| == 1 ==> q[1..] == []);
  }

  lemma {:induction false} OwedSomething(q: seq<Req>)
    requires AllOpen(q)
    ensures Owed(q, None) >= |q|
  {
    if q != [] {
      OwedSomething(q[1..]);
    }
  }

  lemma CountMore(h: Req, q: seq<Req>, reply: string)
    ensures Count([h] + q, reply) == (if h.reply == reply then 1 else 0) + Count(q, reply)
  {
    assert ([h] + q)[1..] == q;
  }

  lemma {:induction false} ServeOwed(q: seq<Req>, m: nat, reply: string)
    requires AllOpen(q) && m <= Owed(q, None)
    ensures var (heads, rest) := ServeMany(q, m);
            && |heads| == m && AllOpen(rest) && Owed(rest, None) == Owed(q, None) - m
            && Count(heads, reply) == Owed(q, Some(reply)) - Owed(rest, Some(reply))
    decreases m
  {
    if m > 0 {
      PopOwed(q, None);
      PopOwed(q, Some(reply));
      ServeOwed(PopAndRequeue(q), m - 1, reply);
      var (heads, rest) := ServeMany(PopAndRequeue(q), m - 1);
      ServeOne(q, m, heads, rest);
      CountMore(q[0], heads, reply);
    }
  }

  /** Every request gets exactly what it asked for: as many pops as are owed in all empty the queue, whatever the priorities,
      and serve each reply subject as often as was owed to it.
   */
  lemma ServedInFull(q: seq<Req>, reply: string)
    requires AllOpen(q)
    ensures Owed(q, None) >= 0
    ensures var (heads, rest) := ServeMany(q, Owed(q, None)); rest == [] && Count(heads, reply) == Owed(q, Some(reply))
  {
    OwedSomething(q);
    ServeOwed(q, Owed(q, None), reply);
    OwedSomething(ServeMany(q, Owed(q, None)).1);
  }

  /** A request without a priority goes behind all others, as priorities have 31 bits. */
  lemma UngroupedLast(q: seq<Req>, r: Req)
    requires r.group.None? && forall i :: 0 <= i < |q| && q[i].group.Some? ==> q[i].group.value <= 0x7FFF_FFFF
    ensures Insert(q, r) == q + [r]
  {
    assert Place(q, Priority(r)) == |q|;
  }
}
