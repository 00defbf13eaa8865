/** What every step of an AckExplicit consumer keeps, and what follows for whole runs. */
module ConsumerSafety {
  import opened Basics
  import opened ConsumerState

  /** No unsettled delivery lies at or below a floor. */
  ghost predicate Floors(s: State) {
    && s.adflr < s.dseq
    && s.asflr < s.sseq
    && forall k :: k in s.pending ==> s.asflr < k < s.sseq && s.adflr < s.pending[k] < s.dseq
  }

  /** Delivery sequences grow with stream sequences. */
  ghost predicate Ordered(s: State) {
    forall j, k :: j in s.pending && k in s.pending && j < k ==> s.pending[j] < s.pending[k]
  }

  /** The redelivery queue holds pending entries once each, and its index is its contents. */
  ghost predicate Queued(s: State) {
    && Distinct(s.rdq)
    && (forall k :: k in s.rdqi <==> k in s.rdq)
    && forall k :: k in s.rdq ==> k in s.pending
  }

  ghost predicate Inv(s: State) {
    Floors(s) && Ordered(s) && Queued(s)
  }

  /** An entry sits right above the delivery floor, or nothing is pending and the floor is at the top. */
  ghost predicate Tight(s: State) {
    if s.pending == map[] then s.adflr == s.dseq - 1
    else exists k :: k in s.pending && s.pending[k] == s.adflr + 1
  }

  // Single steps.

  lemma RemoveQueuedKeeps(s: State, k: nat)
    requires Distinct(s.rdq) && (forall j :: j in s.rdqi <==> j in s.rdq)
    ensures var r := RemoveQueued(s, k);
            && Distinct(r.rdq) && (forall j :: j in r.rdqi <==> j in r.rdq)
            && (forall j :: j in r.rdq <==> j in s.rdq && j != k)
  {
    if k in s.rdqi {
      CutDistinct(s.rdq, IndexOf(s.rdq, k));
    }
  }

  lemma CutDistinct(q: seq<nat>, i: nat)
    requires Distinct(q) && i < |q|
    ensures var r := q[..i] + q[i + 1..]; Distinct(r) && forall j :: j in r <==> j in q && j != q[i]
  {
    var r := q[..i] + q[i + 1..];
    assert q == q[..i] + [q[i]] + q[i + 1..];
    assert forall n :: 0 <= n < |r| ==> r[n] == if n < i then q[n] else q[n + 1];
  }

  lemma MoveKeeps(s: State, k: nat)
    requires Floors(s) && Ordered(s) && k in s.pending
    ensures var r := TakePending(s, k);
            Floors(r) && Ordered(r)
  {
    MidTake(s, k, 0);
  }

  lemma AckOneKeeps(s: State, k: nat)
    requires Inv(s)
    ensures Inv(AckOne(s, k))
  {
    if k < s.sseq {
      if k in s.pending {
        MoveKeeps(s, k);
      }
      var s1 := TakePending(s, k);
      RemoveQueuedKeeps(s1.(rdc := s1.rdc - {k}), k);
    }
  }

  lemma AckOneQueued(s: State, k: nat)
    requires Queued(s)
    ensures Queued(AckOne(s, k))
  {
    if k < s.sseq {
      var s1 := TakePending(s, k);
      RemoveQueuedKeeps(s1.(rdc := s1.rdc - {k}), k);
    }
  }

  lemma AckOneFrame(s: State, k: nat)
    ensures var r := AckOne(s, k);
            && r.sseq == s.sseq && r.dseq == s.dseq && |r.rdq| <= |s.rdq|
            && r.pending == (if k < s.sseq then s.pending - {k} else s.pending)
            && r.rdc == (if k < s.sseq then s.rdc - {k} else s.rdc)
  {
  }

  lemma NakKeeps(s: State, k: nat, d: nat, delayed: bool)
    requires Inv(s)
    ensures Inv(Nak(s, k, d, delayed))
  {
    RemoveQueuedKeeps(s, k);
  }

  // The expiry pass.

  /** The floors part of the invariant while the pass is under way: entries below `first`
      may be stranded at or below a floor until the pass reaches them.
   */
  ghost predicate MidFloors(s: State, first: nat) {
    && s.adflr < s.dseq
    && s.asflr < s.sseq
    && (forall k :: k in s.pending ==> k < s.sseq && s.pending[k] < s.dseq)
    && (forall k :: k in s.pending && k >= first ==> s.asflr < k && s.adflr < s.pending[k])
  }

  ghost predicate MidQueue(s: State, expired: seq<nat>, order: seq<nat>) {
    && Distinct(order)
    && Distinct(expired)
    && forall k :: k in expired ==> k in s.pending && k !in s.rdq && k !in order
  }

  ghost predicate Mid(s: State, expired: seq<nat>, order: seq<nat>, first: nat) {
    && MidFloors(s, first) && Ordered(s) && Queued(s) && MidQueue(s, expired, order)
    && forall k :: k in s.pending ==> k in order || k >= first
  }

  lemma MidTake(s: State, k: nat, first: nat)
    requires MidFloors(s, first) && Ordered(s) && k in s.pending && k >= first
    ensures var r := TakePending(s, k);
            MidFloors(r, first)
  {
    var s1 := s.(pending := s.pending - {k});
    if s1.pending != map[] && s.pending[k] == s.adflr + 1 {
      assert forall j :: j in s1.pending && j >= first ==> k < j;
      var n := FirstPending(s1.pending, k + 1, s.sseq);
      if n.Some? {
        assert s.pending[k] < s.pending[n.value];
        assert forall j :: j in s1.pending && j >= first ==> n.value <= j;
      }
    }
  }

  lemma ForgetKeeps(s: State, k: nat)
    requires Queued(s)
    ensures var r := Forget(s, k);
            && Queued(r) && r.rdq == RemoveQueued(s, k).rdq && (forall j :: j in r.rdq ==> j in s.rdq)
            && r == s.(pending := s.pending - {k}, rdc := s.rdc - {k}, rdq := r.rdq, rdqi := r.rdqi)
  {
    RemoveQueuedKeeps(s, k);
    RemoveQueuedKeeps(s.(pending := s.pending - {k}, rdc := s.rdc - {k}), k);
  }

  lemma ConsDistinct(k: nat, q: seq<nat>)
    requires k !in q
    ensures Distinct(q) ==> Distinct([k] + q)
  {
    assert forall i :: 1 <= i < |[k] + q| ==> ([k] + q)[i] == q[i - 1];
  }

  lemma InsertKeeps(q: seq<nat>, k: nat)
    ensures forall j :: j in Insert(q, k) <==> j in q || j == k
    ensures Distinct(q) && k !in q ==> Distinct(Insert(q, k))
  {
    if q == [] || k <= q[0] {
      if k !in q {
        ConsDistinct(k, q);
      }
    } else {
      InsertKeeps(q[1..], k);
      assert q == [q[0]] + q[1..];
      if Distinct(q) && k !in q {
        ConsDistinct(q[0], Insert(q[1..], k));
      }
    }
  }

  lemma CheckOneKeeps(c: Config, s: State, expired: seq<nat>, order: seq<nat>, first: nat, due: set<nat>)
    requires order != [] && Mid(s, expired, order, first)
    ensures var (s1, e1) := CheckOne(c, s, expired, order[0], first, due);
            Mid(s1, e1, order[1..], first)
  {
    var k := order[0];
    assert order == [k] + order[1..];
    if k in s.pending {
      if k < first || k <= s.asflr {
        ForgetKeeps(s, k);
      } else if k in due && k !in s.rdqi {
        if HasMaxDeliveries(c, s, k).0 {
          MidTake(s, k, first);
        } else {
          InsertKeeps(expired, k);
        }
      }
    }
  }

  lemma {:induction false} CheckEachKeeps(c: Config, s: State, expired: seq<nat>, order: seq<nat>, first: nat, due: set<nat>)
    requires Mid(s, expired, order, first)
    ensures var (s1, e1) := CheckEach(c, s, expired, order, first, due);
            Mid(s1, e1, [], first)
    decreases |order|
  {
    if order != [] {
      CheckOneKeeps(c, s, expired, order, first, due);
      var (s1, e1) := CheckOne(c, s, expired, order[0], first, due);
      CheckEachKeeps(c, s1, e1, order[1..], first, due);
    }
  }

  /** `order` is one of the orders in which the pending map can be walked. */
  ghost predicate Walks(order: seq<nat>, s: State) {
    Distinct(order) && forall k :: k in order <==> k in s.pending
  }

  /** Some order of the elements of a set. */
  ghost function AnyOrder(ks: set<nat>): (order: seq<nat>)
    ensures Distinct(order) && forall k :: k in order <==> k in ks
  {
    if ks == {} then [] else
      var k :| k in ks;
      var rest := AnyOrder(ks - {k});
      ConsDistinct(k, rest);
      [k] + rest
  }

  lemma EnqueueKeeps(s: State, ks: seq<nat>)
    requires Queued(s) && Distinct(ks)
    requires forall k :: k in ks ==> k in s.pending && k !in s.rdq
    ensures Queued(Enqueue(s, ks))
  {
    var q := s.rdq + ks;
    forall i, j | 0 <= i < j < |q|
      ensures q[i] != q[j]
    {
      if i < |s.rdq| <= j {
        assert q[i] in s.rdq && q[j] in ks;
      }
    }
  }

  lemma CheckPendingKeeps(c: Config, s: State, order: seq<nat>, first: nat, due: set<nat>)
    requires Inv(s) && Walks(order, s)
    ensures Inv(CheckPending(c, s, order, first, due))
  {
    CheckEachKeeps(c, s, [], order, first, due);
    var (s1, expired) := CheckEach(c, s, [], order, first, due);
    EnqueueKeeps(s1, expired);
  }

  // Delivery.

  lemma PoppedQueued(s: State, n: nat)
    requires Queued(s) && s.rdq != []
    ensures var r := Popped(s).(rdc := s.rdc[s.rdq[0] := n]);
            Queued(r) && s.rdq[0] in r.pending && s.rdq[0] !in r.rdq
  {
    assert s.rdq == [s.rdq[0]] + s.rdq[1..];
  }

  lemma PoppedKeeps(s: State, n: nat)
    requires Inv(s) && s.rdq != []
    ensures var r := Popped(s).(rdc := s.rdc[s.rdq[0] := n]);
            Inv(r) && s.rdq[0] in r.pending && s.rdq[0] !in r.rdq
  {
    PoppedQueued(s, n);
  }

  ghost predicate Picked(s: State, n: Next) {
    && Inv(n.state) && n.state.sseq == s.sseq && n.state.dseq == s.dseq
    && (n.msg.Some? ==> n.msg.value.key in n.state.pending && n.msg.value.key !in n.state.rdq && n.msg.value.dc >= 2)
  }

  /** The head, taken off the queue with a new count, is dropped. */
  lemma HeadDropKeeps(s: State, n: nat, r: Next)
    requires Inv(s) && s.rdq != [] && r == Next(TakePending(Popped(s).(rdc := s.rdc[s.rdq[0] := n]), s.rdq[0]), None)
    ensures Picked(s, r)
  {
    PoppedKeeps(s, n);
    MoveKeeps(Popped(s).(rdc := s.rdc[s.rdq[0] := n]), s.rdq[0]);
  }

  /** It is settled, as the stream no longer holds it. */
  lemma HeadGoneKeeps(s: State, n: nat, r: Next)
    requires Inv(s) && s.rdq != [] && r == Next(AckOne(Popped(s).(rdc := s.rdc[s.rdq[0] := n]), s.rdq[0]), None)
    ensures Picked(s, r)
  {
    PoppedKeeps(s, n);
    AckOneKeeps(Popped(s).(rdc := s.rdc[s.rdq[0] := n]), s.rdq[0]);
  }

  /** It is picked. */
  lemma HeadPickKeeps(s: State, n: nat, r: Next)
    requires Inv(s) && s.rdq != [] && r.msg.Some? && r.msg.value.key == s.rdq[0] && r.msg.value.dc >= 2
    requires r.state == Popped(s).(rdc := s.rdc[s.rdq[0] := n])
    ensures Picked(s, r)
  {
    PoppedKeeps(s, n);
  }

  lemma RedeliverHeadKeeps(c: Config, s: State, gone: set<nat>)
    requires c.policy.AckExplicit? && Inv(s) && s.rdq != []
    ensures Picked(s, RedeliverHead(c, s, gone))
  {
    var k, n, d := s.rdq[0], RedeliverHead(c, s, gone), Redeliveries(s, s.rdq[0]);
    if c.maxDeliver > 0 && d + 2 > c.maxDeliver {
      HeadDropKeeps(s, d + 1, n);
    } else if k in gone {
      assert k in s.rdq && k in Popped(s).pending;
      assert s.rdc[k := d + 1][k := d] == s.rdc[k := d];
      HeadGoneKeeps(s, d, n);
    } else {
      HeadPickKeeps(s, d + 1, n);
    }
  }

  lemma {:induction false} NextRedeliveryKeeps(c: Config, s: State, gone: set<nat>)
    requires c.policy.AckExplicit? && Inv(s)
    ensures Picked(s, NextRedelivery(c, s, gone))
    decreases |s.rdq|
  {
    if s.rdq != [] {
      RedeliverHeadKeeps(c, s, gone);
      var n := RedeliverHead(c, s, gone);
      if n.msg.None? {
        NextRedeliveryKeeps(c, n.state, gone);
      }
    }
  }

  /** One turn of the delivery loop: pick a message, then hand it out if a request is waiting. */
  function DeliverNext(c: Config, s: State, st: Store, waiter: bool): State {
    HandOut(NextMsg(c, s, st), waiter)
  }

  function HandOut(n: Next, waiter: bool): State {
    match n.msg
    case None => n.state
    case Some(m) => if waiter then Deliver(n.state, m.key) else PutBack(n.state, m)
  }

  /** What the pick leaves: either a queued entry, still pending, or the last sequence below `sseq`. */
  lemma NextMsgKeeps(c: Config, s: State, st: Store)
    requires c.policy.AckExplicit? && Inv(s)
    ensures var n := NextMsg(c, s, st);
            && Inv(n.state)
            && (n.msg.Some? ==>
                  if n.msg.value.dc == 1
                  then n.msg.value.key == n.state.sseq - 1 >= s.sseq && (forall k :: k in n.state.pending ==> k < s.sseq) && n.state.asflr < s.sseq
                  else Picked(s, n))
  {
    NextRedeliveryKeeps(c, s, set k | k in s.rdqi && k !in st.live);
  }

  lemma PutBackKeeps(s: State, m: Msg)
    requires Inv(s)
    requires if m.dc == 1
             then m.key == s.sseq - 1 && s.asflr < m.key && (forall k :: k in s.pending ==> k < m.key)
             else m.key in s.pending && m.key !in s.rdq
    ensures var r := PutBack(s, m);
            Inv(r) && if m.dc == 1 then r == s.(sseq := m.key) else r.sseq == s.sseq && r.rdq == s.rdq + [m.key]
  {
    if m.dc != 1 {
      EnqueueKeeps(s.(rdc := s.rdc[m.key := Decrement(Redeliveries(s, m.key))]), [m.key]);
    }
  }

  lemma DeliverNextKeeps(c: Config, s: State, st: Store, waiter: bool)
    requires c.policy.AckExplicit? && Inv(s)
    ensures Inv(DeliverNext(c, s, st, waiter))
  {
    NextMsgKeeps(c, s, st);
    var n := NextMsg(c, s, st);
    if n.msg.Some? && !waiter {
      PutBackKeeps(n.state, n.msg.value);
    }
  }

  // Purge.

  lemma PurgeEndKeeps(s: State)
    requires Floors(s) && Ordered(s)
    requires (forall k :: k in s.rdq ==> k < s.sseq) && (s.rdq == [] ==> s.rdqi == {})
    ensures var r := PurgeEnd(s);
            Inv(r) && r.rdq == [] && r.pending == s.pending && r.sseq == s.sseq && r.dseq == s.dseq
  {
    FilterNone(s.rdq, s.sseq);
  }

  lemma FilterNone(q: seq<nat>, low: nat)
    requires forall k :: k in q ==> k < low
    ensures Filter(q, low) == []
  {
    if q != [] {
      assert q[0] in q && forall k :: k in q[1..] ==> k in q;
      FilterNone(q[1..], low);
    }
  }
}
