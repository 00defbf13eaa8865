/** What the pass over the pending entries does, whatever order the map is walked in. */
module ConsumerExpiry {
  import opened ConsumerState
  import opened ConsumerSafety

  /** The pass drops `k`: its wait is over, it is not queued, and its deliveries are used up. */
  predicate Spent(c: Config, s: State, due: set<nat>, k: nat) {
    k in due && k !in s.rdqi && c.maxDeliver > 0 && DeliveryCount(s, k) >= c.maxDeliver
  }

  /** What the pass does with `k` depends on its own entry, count and place in the queue only. */
  ghost predicate Alike(s: State, r: State, k: nat) {
    && (k in r.pending <==> k in s.pending)
    && (k in s.pending ==> r.pending[k] == s.pending[k])
    && (k in r.rdqi <==> k in s.rdqi)
    && Redeliveries(r, k) == Redeliveries(s, k)
  }

  /** What is left of `k` after the pass has come by. */
  ghost predicate Passed(c: Config, s: State, r: State, first: nat, due: set<nat>, k: nat) {
    && (k in r.pending <==> k in s.pending && k >= first && !Spent(c, s, due, k))
    && (k in r.pending ==> r.pending[k] == s.pending[k])
    && (k in r.rdqi <==> k in s.rdqi && k in r.pending)
  }

  lemma ForgetAlike(s: State, k: nat, j: nat)
    requires Queued(s) && j != k
    ensures Alike(s, Forget(s, k), j)
  {
    RemoveQueuedKeeps(s.(pending := s.pending - {k}, rdc := s.rdc - {k}), k);
  }

  lemma CheckOneAlike(c: Config, s: State, expired: seq<nat>, k: nat, first: nat, due: set<nat>, j: nat)
    requires Queued(s) && j != k
    ensures var (s1, e1) := CheckOne(c, s, expired, k, first, due);
            Alike(s, s1, j) && (j in e1 <==> j in expired)
  {
    ForgetAlike(s, k, j);
    InsertKeeps(expired, k);
  }

  lemma CheckOneExactly(c: Config, s: State, expired: seq<nat>, order: seq<nat>, first: nat, due: set<nat>)
    requires order != [] && Mid(s, expired, order, first)
    ensures var k := order[0]; var (s1, e1) := CheckOne(c, s, expired, k, first, due);
            Passed(c, s, s1, first, due, k) && (k in e1 <==> k in s1.pending && k in due && k !in s.rdqi)
  {
    var k := order[0];
    assert k in order;
    RemoveQueuedKeeps(s.(pending := s.pending - {k}, rdc := s.rdc - {k}), k);
    InsertKeeps(expired, k);
  }

  /** What an entry that is alike becomes, it becomes from the first state too. */
  lemma PassedAlike(c: Config, s: State, m: State, r: State, first: nat, due: set<nat>, k: nat)
    requires Alike(s, m, k) && Passed(c, m, r, first, due, k)
    ensures Passed(c, s, r, first, due, k)
  {
  }

  lemma AlikeTwice(s: State, m: State, r: State, k: nat)
    requires Alike(s, m, k) && Alike(m, r, k)
    ensures Alike(s, r, k)
  {
  }

  lemma PassedStays(c: Config, s: State, m: State, r: State, first: nat, due: set<nat>, k: nat)
    requires Passed(c, s, m, first, due, k) && Alike(m, r, k)
    ensures Passed(c, s, r, first, due, k)
  {
  }

  /** An entry the rest of the walk does not come to. */
  lemma {:induction false} NotReached(c: Config, s: State, expired: seq<nat>, order: seq<nat>, first: nat, due: set<nat>, k: nat)
    requires Mid(s, expired, order, first) && k !in order
    ensures var (r, e) := CheckEach(c, s, expired, order, first, due);
            Alike(s, r, k) && (k in e <==> k in expired)
    decreases |order|
  {
    if order != [] {
      assert order == [order[0]] + order[1..];
      CheckOneAlike(c, s, expired, order[0], first, due, k);
      CheckOneKeeps(c, s, expired, order, first, due);
      var (s1, e1) := CheckOne(c, s, expired, order[0], first, due);
      NotReached(c, s1, e1, order[1..], first, due, k);
      var (r, e) := CheckEach(c, s1, e1, order[1..], first, due);
      AlikeTwice(s, s1, r, k);
    }
  }

  lemma {:induction false} Reached(c: Config, s: State, expired: seq<nat>, order: seq<nat>, first: nat, due: set<nat>, k: nat)
    requires Mid(s, expired, order, first) && k in order
    ensures var (r, e) := CheckEach(c, s, expired, order, first, due);
            Passed(c, s, r, first, due, k) && (k in e <==> k in r.pending && k in due && k !in s.rdqi)
    decreases |order|
  {
    assert order == [order[0]] + order[1..];
    CheckOneKeeps(c, s, expired, order, first, due);
    var (s1, e1) := CheckOne(c, s, expired, order[0], first, due);
    var (r, e) := CheckEach(c, s1, e1, order[1..], first, due);
    if k == order[0] {
      CheckOneExactly(c, s, expired, order, first, due);
      NotReached(c, s1, e1, order[1..], first, due, k);
      PassedStays(c, s, s1, r, first, due, k);
    } else {
      CheckOneAlike(c, s, expired, order[0], first, due, k);
      Reached(c, s1, e1, order[1..], first, due, k);
      PassedAlike(c, s, s1, r, first, due, k);
    }
  }

  /** In whatever order pending is walked, the pass drops exactly what the stream no longer holds and what is
      due with its deliveries used up; and it queues exactly what is due of the rest, beside what was queued.
   */
  lemma PassExactly(c: Config, s: State, order: seq<nat>, first: nat, due: set<nat>, k: nat)
    requires Inv(s) && Walks(order, s)
    ensures var r := CheckPending(c, s, order, first, due);
            && (k in r.pending <==> k in s.pending && k >= first && !Spent(c, s, due, k))
            && (k in r.pending ==> r.pending[k] == s.pending[k])
            && (k in r.rdq <==> k in r.pending && (k in s.rdq || k in due))
  {
    if k in order {
      Reached(c, s, [], order, first, due, k);
    } else {
      NotReached(c, s, [], order, first, due, k);
    }
    CheckPendingKeeps(c, s, order, first, due);
    var (s1, e) := CheckEach(c, s, [], order, first, due);
    assert k in Enqueue(s1, e).rdqi <==> k in s1.rdqi || k in e;
    CheckEachKeeps(c, s, [], order, first, due);
  }

  /** What the pass drops with its deliveries used up keeps a redelivery on record. */
  lemma {:induction false} SpentReached(c: Config, s: State, expired: seq<nat>, order: seq<nat>, first: nat, due: set<nat>, k: nat)
    requires Mid(s, expired, order, first) && k in order && k in s.pending && k >= first && Spent(c, s, due, k)
    ensures Redeliveries(CheckEach(c, s, expired, order, first, due).0, k) >= 1
    decreases |order|
  {
    assert order == [order[0]] + order[1..];
    CheckOneKeeps(c, s, expired, order, first, due);
    var (s1, e1) := CheckOne(c, s, expired, order[0], first, due);
    if k == order[0] {
      assert Redeliveries(s1, k) >= 1;
      NotReached(c, s1, e1, order[1..], first, due, k);
    } else {
      CheckOneAlike(c, s, expired, order[0], first, due, k);
      SpentReached(c, s1, e1, order[1..], first, due, k);
    }
  }

  lemma SpentOnRecord(c: Config, s: State, order: seq<nat>, first: nat, due: set<nat>, k: nat)
    requires Inv(s) && Walks(order, s) && k in s.pending && k >= first && Spent(c, s, due, k)
    ensures k in CheckPending(c, s, order, first, due).rdc
  {
    SpentReached(c, s, [], order, first, due, k);
  }

  // The floors.

  /** The floors do not go back. */
  predicate Rises(s: State, r: State) { s.asflr <= r.asflr && s.adflr <= r.adflr && r.sseq == s.sseq && r.dseq == s.dseq }

  lemma TakeRises(s: State, k: nat, first: nat)
    requires MidFloors(s, first) && Ordered(s) && k in s.pending && k >= first
    ensures Rises(s, TakePending(s, k))
  {
    var s1 := s.(pending := s.pending - {k});
    if s1.pending != map[] && s.pending[k] == s.adflr + 1 {
      var n := FirstPending(s1.pending, k + 1, s.sseq);
      if n.Some? {
        assert s.pending[k] < s.pending[n.value];
      }
    }
  }

  lemma CheckOneRises(c: Config, s: State, expired: seq<nat>, order: seq<nat>, first: nat, due: set<nat>)
    requires order != [] && Mid(s, expired, order, first)
    ensures var k, r := order[0], CheckOne(c, s, expired, order[0], first, due).0;
            Rises(s, r) && (k in s.pending && k < first ==> k <= r.asflr && s.pending[k] <= r.adflr)
  {
    var k := order[0];
    if k in s.pending {
      if k < first || k <= s.asflr {
        ForgetKeeps(s, k);
      } else {
        TakeRises(s, k, first);
      }
    }
  }

  lemma {:induction false} CheckEachRises(c: Config, s: State, expired: seq<nat>, order: seq<nat>, first: nat, due: set<nat>, k: nat)
    requires Mid(s, expired, order, first)
    ensures var r := CheckEach(c, s, expired, order, first, due).0;
            Rises(s, r) && (k in order && k in s.pending && k < first ==> k <= r.asflr && s.pending[k] <= r.adflr)
    decreases |order|
  {
    if order != [] {
      assert order == [order[0]] + order[1..];
      CheckOneRises(c, s, expired, order, first, due);
      CheckOneKeeps(c, s, expired, order, first, due);
      var (s1, e1) := CheckOne(c, s, expired, order[0], first, due);
      if k != order[0] {
        CheckOneAlike(c, s, expired, order[0], first, due, k);
      }
      CheckEachRises(c, s1, e1, order[1..], first, due, k);
    }
  }

  /** In whatever order pending is walked, no floor goes back, both pass everything the stream no longer holds, and both are at
      the top, with nothing queued, once nothing is pending.
   */
  lemma PassFloors(c: Config, s: State, order: seq<nat>, first: nat, due: set<nat>, k: nat)
    requires Inv(s) && Walks(order, s)
    ensures var r := CheckPending(c, s, order, first, due);
            && Rises(s, r)
            && (k in s.pending && k < first ==> k <= r.asflr && s.pending[k] <= r.adflr)
            && (r.pending == map[] ==> r.asflr == r.sseq - 1 && r.adflr == r.dseq - 1 && r.rdq == [])
  {
    CheckEachRises(c, s, [], order, first, due, k);
    CheckEachKeeps(c, s, [], order, first, due);
  }

  // In order.

  ghost predicate Ascending(q: seq<nat>) { forall i, j :: 0 <= i < j < |q| ==> q[i] < q[j] }

  lemma {:induction false} InsertAscending(q: seq<nat>, k: nat)
    requires Ascending(q) && k !in q
    ensures Ascending(Insert(q, k)) && forall j :: j in Insert(q, k) <==> j in q || j == k
  {
    if q == [] || k <= q[0] {
      assert forall i :: 0 <= i < |q| ==> q[i] >= q[0];
    } else {
      assert q == [q[0]] + q[1..];
      assert forall j :: j in q[1..] ==> q[0] < j;
      InsertAscending(q[1..], k);
      ConsAscending(q[0], Insert(q[1..], k));
    }
  }

  lemma ConsAscending(k: nat, q: seq<nat>)
    requires Ascending(q) && forall j :: j in q ==> k < j
    ensures Ascending([k] + q)
  {
    assert forall i :: 1 <= i < |[k] + q| ==> ([k] + q)[i] == q[i - 1] && q[i - 1] in q;
  }

  lemma {:induction false} CheckEachAscending(c: Config, s: State, expired: seq<nat>, order: seq<nat>, first: nat, due: set<nat>)
    requires Mid(s, expired, order, first) && Ascending(expired)
    ensures Ascending(CheckEach(c, s, expired, order, first, due).1)
    decreases |order|
  {
    if order != [] {
      var k := order[0];
      assert order == [k] + order[1..];
      assert k in order;
      if k !in expired {
        InsertAscending(expired, k);
      }
      CheckOneKeeps(c, s, expired, order, first, due);
      var (s1, e1) := CheckOne(c, s, expired, k, first, due);
      CheckEachAscending(c, s1, e1, order[1..], first, due);
    }
  }

  /** What the walk leaves in the queue was there, and what it gathers was not. */
  lemma OldAndNew(c: Config, s: State, order: seq<nat>, first: nat, due: set<nat>, k: nat)
    requires Inv(s) && Walks(order, s)
    ensures var (s1, e) := CheckEach(c, s, [], order, first, due);
            (k in s1.rdqi ==> k in s.rdq) && (k in e ==> k !in s.rdq)
  {
    if k in order {
      Reached(c, s, [], order, first, due, k);
    } else {
      NotReached(c, s, [], order, first, due, k);
    }
  }

  /** In whatever order pending is walked, what the pass puts in the queue goes behind what is there, and in ascending order. */
  lemma PassInOrder(c: Config, s: State, order: seq<nat>, first: nat, due: set<nat>, i: nat, j: nat)
    requires Inv(s) && Walks(order, s) && i < j < |CheckPending(c, s, order, first, due).rdq|
    ensures var q := CheckPending(c, s, order, first, due).rdq;
            q[i] !in s.rdq ==> q[j] !in s.rdq && q[i] < q[j]
  {
    var (s1, e) := CheckEach(c, s, [], order, first, due);
    CheckEachAscending(c, s, [], order, first, due);
    CheckEachKeeps(c, s, [], order, first, due);
    var q := CheckPending(c, s, order, first, due).rdq;
    assert q == s1.rdq + e;
    if i < |s1.rdq| {
      assert q[i] in s1.rdq;
      OldAndNew(c, s, order, first, due, q[i]);
    } else {
      assert q[j] in e;
      OldAndNew(c, s, order, first, due, q[j]);
    }
  }

  /** A negative acknowledgement of an unsettled delivery above the floor puts its message in line, at the end, or
      takes it out of the line when it is to be delayed; any other is ignored.
   */
  lemma NakExactly(s: State, k: nat, d: nat, delayed: bool)
    requires Inv(s)
    ensures var r := Nak(s, k, d, delayed);
            && r == s.(rdq := r.rdq, rdqi := r.rdqi)
            && if s.adflr < d <= s.dseq && k in s.pending
               then (forall j :: j in r.rdq <==> if j == k then !delayed else j in s.rdq) && (!delayed ==> s.rdq <= r.rdq)
               else r == s
  {
    RemoveQueuedKeeps(s, k);
  }
}
