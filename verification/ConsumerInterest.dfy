/** When a purge can lead to a message being given up: the stream is told that it may drop it, though it was handed out
and nobody settled it.
 */
module ConsumerInterest {
  import opened Basics
  import opened ConsumerState
  import opened ConsumerSafety
  import opened ConsumerPurge
  import opened ConsumerMachine
  import opened ConsumerAccounts
  import opened ConsumerRuns

  // What is left of the invariant after any purge.

  /** Delivery sequences are in order, and a delivery from `first` on that is above the delivery floor is above the stream
      floor.
   */
  ghost predicate Weak(s: State, first: nat) {
    && Ordered(s) && s.adflr < s.dseq && s.asflr < s.sseq
    && (forall k :: k in s.pending ==> k < s.sseq && s.pending[k] < s.dseq)
    && forall k :: k in s.pending && first <= k && s.adflr < s.pending[k] ==> s.asflr < k
  }

  /** No settlement can move the floors: neither a pending entry nor the next one comes right above the delivery floor. */
  ghost predicate Stuck(s: State) { s.adflr + 1 < s.dseq && forall k :: k in s.pending ==> s.pending[k] != s.adflr + 1 }

  /** If the delivery floor has passed `j`, its redelivery is on record, or the stream floor has not passed it and will not. */
  ghost predicate Safe(s: State, j: nat) {
    j in s.pending && s.pending[j] <= s.adflr && j !in s.rdc ==> s.asflr < j && Stuck(s)
  }

  // Steps.

  /** Moving the floors for `k`, which came right above the delivery floor, past the entries up to the next one. */
  lemma NextWeak(s: State, k: nat, n: nat, first: nat)
    requires Weak(s, first) && k in s.pending && s.pending[k] == s.adflr + 1 && first <= k < n
    requires n in s.pending && forall j :: k < j < n ==> j !in s.pending
    ensures var r := s.(pending := s.pending - {k}, adflr := s.pending[n] - 1, asflr := n - 1);
            && Weak(r, first) && s.adflr <= r.adflr
            && forall j :: j in r.pending && first <= j && r.pending[j] <= r.adflr ==> s.pending[j] <= s.adflr
  {
    assert s.pending[k] < s.pending[n];
    assert forall j :: j in s.pending && n < j ==> s.pending[n] < s.pending[j];
    assert forall j :: j in s.pending && j != k && s.adflr < s.pending[j] ==> k < j;
    assert forall j :: j in s.pending && j != k && s.adflr < s.pending[j] ==> n <= j;
  }

  lemma TakeWeak(s: State, k: nat, first: nat)
    requires Weak(s, first) && k in s.pending && first <= k
    ensures var r := TakePending(s, k);
            && Weak(r, first) && s.adflr <= r.adflr
            && forall j :: j in r.pending && first <= j && r.pending[j] <= r.adflr ==> s.pending[j] <= s.adflr
  {
    var s1 := s.(pending := s.pending - {k});
    if s1.pending != map[] && s.pending[k] == s.adflr + 1 {
      var n := FirstPending(s1.pending, k + 1, s.sseq);
      if n.Some? {
        assert TakePending(s, k) == s1.(adflr := s.pending[n.value] - 1, asflr := n.value - 1);
        assert forall j :: k < j < n.value ==> j !in s1.pending;
        assert forall j :: j in s.pending ==> j == k || j in s1.pending;
        NextWeak(s, k, n.value, first);
      } else {
        assert forall j :: j in s1.pending && s.adflr < s.pending[j] ==> k < j;
        assert TakePending(s, k) == s1.(adflr := s.pending[k], asflr := k);
      }
    }
  }

  lemma TakeSafe(s: State, k: nat, first: nat, j: nat)
    requires Weak(s, first) && k in s.pending && first <= k && first <= j && Safe(s, j)
    ensures Safe(TakePending(s, k), j)
  {
    TakeWeak(s, k, first);
    var r := TakePending(s, k);
    if j in r.pending && r.pending[j] <= r.adflr && j !in r.rdc {
      assert j in s.pending && s.pending[j] <= s.adflr && Stuck(s);
      assert r == s.(pending := s.pending - {k});
    }
  }

  lemma DropSafe(s: State, k: nat, j: nat)
    requires Weak(s, 0) && Safe(s, j)
    ensures Weak(TakePending(s, k), 0) && Safe(TakePending(s, k), j)
  {
    if k in s.pending {
      TakeWeak(s, k, 0);
      TakeSafe(s, k, 0, j);
    }
  }

  lemma AckSafe(s: State, k: nat, j: nat)
    requires Weak(s, 0) && Safe(s, j)
    ensures Weak(AckOne(s, k), 0) && Safe(AckOne(s, k), j)
  {
    if k < s.sseq {
      DropSafe(s, k, j);
      var s1 := TakePending(s, k);
      assert AckOne(s, k) == s1.(rdc := s1.rdc - {k}, rdq := AckOne(s, k).rdq, rdqi := AckOne(s, k).rdqi);
    }
  }

  /** Entries below `first` are still to be visited. */
  ghost predicate ToVisit(s: State, order: seq<nat>, first: nat) {
    forall k :: k in s.pending && k < first ==> k in order
  }

  lemma CheckOneSafe(c: Config, s: State, expired: seq<nat>, order: seq<nat>, first: nat, due: set<nat>, j: nat)
    requires order != [] && Weak(s, first) && ToVisit(s, order, first) && (first <= j ==> Safe(s, j))
    ensures var r := CheckOne(c, s, expired, order[0], first, due).0;
            Weak(r, first) && ToVisit(r, order[1..], first) && (first <= j ==> Safe(r, j))
  {
    var k := order[0];
    assert order == [k] + order[1..];
    if k in s.pending {
      if k < first || k <= s.asflr {
        ForgetSafe(s, k, first, j);
      } else if k in due && k !in s.rdqi && HasMaxDeliveries(c, s, k).0 {
        TakeWeak(s, k, first);
        if first <= j {
          TakeSafe(s, k, first, j);
        }
      }
    }
  }

  /** An entry that the stream has outrun is dropped. */
  lemma ForgetSafe(s: State, k: nat, first: nat, j: nat)
    requires Weak(s, first) && k in s.pending && (k < first || k <= s.asflr) && (first <= j ==> Safe(s, j))
    ensures var r := Forget(s, k).(asflr := Max(s.asflr, k), adflr := Max(s.adflr, s.pending[k]));
            && Weak(r, first) && (first <= j ==> Safe(r, j)) && r.pending == s.pending - {k}
  {
    assert Forget(s, k) == s.(pending := s.pending - {k}, rdc := s.rdc - {k}, rdq := Forget(s, k).rdq, rdqi := Forget(s, k).rdqi);
    if first <= k {
      assert s.pending[k] <= s.adflr;
    } else {
      assert forall i :: i in s.pending && first <= i ==> s.pending[k] < s.pending[i];
    }
  }

  lemma {:induction false} CheckEachSafe(c: Config, s: State, expired: seq<nat>, order: seq<nat>, first: nat, due: set<nat>, j: nat)
    requires Weak(s, first) && ToVisit(s, order, first) && (first <= j ==> Safe(s, j))
    ensures var r := CheckEach(c, s, expired, order, first, due).0;
            Weak(r, first) && ToVisit(r, [], first) && (first <= j ==> Safe(r, j))
    decreases |order|
  {
    if order != [] {
      CheckOneSafe(c, s, expired, order, first, due, j);
      var (s1, e1) := CheckOne(c, s, expired, order[0], first, due);
      CheckEachSafe(c, s1, e1, order[1..], first, due, j);
    }
  }

  lemma CheckPendingSafe(c: Config, s: State, order: seq<nat>, first: nat, due: set<nat>, j: nat)
    requires Weak(s, 0) && Walks(order, s) && Safe(s, j)
    ensures var r := CheckPending(c, s, order, first, due); Weak(r, 0) && Safe(r, j)
  {
    CheckEachSafe(c, s, [], order, first, due, j);
  }

  /** What the walk of a purge from below leaves. */
  lemma DroppedSafe(s: State, s1: State, first: nat, gone: set<nat>, order: seq<nat>, r: State, j: nat)
    requires Weak(s, 0) && Walks(order, s) && s.asflr < first && DropsBelow(s, first, gone) && Safe(s, j)
    requires s1 == s.(sseq := Max(s.sseq, first), asflr := first - 1) && Dropped(s1, gone, order, r)
    ensures Weak(r, 0) && Safe(r, j)
  {
    assert forall k :: k in r.pending ==> first <= k;
    if j in r.pending && r.adflr != s.adflr {
      var k: nat :| k in s1.pending && k in order && Drops(s1, gone, k) && s1.pending[k] == r.adflr;
      assert k < j;
    }
  }

  lemma PurgeEndSafe(s: State, j: nat)
    requires Weak(s, 0) && Safe(s, j)
    ensures Weak(PurgeEnd(s), 0) && Safe(PurgeEnd(s), j)
  {
  }

  lemma PurgeSafe(s: State, first: nat, gone: set<nat>, order: seq<nat>, j: nat)
    requires Weak(s, 0) && Walks(order, s) && FromBelow(s, first, gone) && Safe(s, j)
    ensures var r := Purge(s, first, gone, order); Weak(r, 0) && Safe(r, j)
  {
    if s.asflr < first {
      var s1 := s.(sseq := Max(s.sseq, first), asflr := first - 1);
      PurgeEachDrops(s1, gone, order);
      var r := PurgeEach(s1, gone, order);
      DroppedSafe(s, s1, first, gone, order, r, j);
      PurgeEndSafe(r, j);
    } else {
      PurgeEndSafe(s.(sseq := Max(s.sseq, first)), j);
    }
  }

  // A turn.

  lemma CountedSafe(s: State, r: State, k: nat, n: nat, j: nat)
    requires Weak(s, 0) && Safe(s, j) && r == s.(rdq := r.rdq, rdqi := r.rdqi, rdc := s.rdc[k := n])
    ensures Weak(r, 0) && Safe(r, j)
  {
  }

  lemma GoneSafe(s: State, k: nat, n: nat, j: nat)
    requires Weak(s, 0) && Safe(s, j)
    ensures var r := s.(rdc := s.rdc[k := n]);
            && Weak(r, 0) && Safe(r, j) && Weak(AckOne(r, k), 0) && Safe(AckOne(r, k), j)
  {
    CountedSafe(s, s.(rdc := s.rdc[k := n]), k, n, j);
    AckSafe(s.(rdc := s.rdc[k := n]), k, j);
  }

  lemma HeadSafe(c: Config, s: State, gone: set<nat>, j: nat)
    requires c.policy.AckExplicit? && Weak(s, 0) && Safe(s, j) && s.rdq != []
    ensures var n := RedeliverHead(c, s, gone); Weak(n.state, 0) && Safe(n.state, j)
  {
    var k := s.rdq[0];
    var dc := Redeliveries(s, k) + 2;
    var s1, n := Popped(s).(rdc := s.rdc[k := dc - 1]), RedeliverHead(c, s, gone);
    CountedSafe(s, s1, k, dc - 1, j);
    if c.maxDeliver > 0 && dc > c.maxDeliver {
      DropSafe(s1, k, j);
      assert n == Next(TakePending(s1, k), None);
    } else if k in gone {
      GoneSafe(s1, k, Decrement(dc - 1), j);
      assert n.state == s1.(rdc := s1.rdc[k := Decrement(dc - 1)]) || n.state == AckOne(s1.(rdc := s1.rdc[k := Decrement(dc - 1)]), k);
    } else {
      assert n.state == s1;
    }
  }

  lemma {:induction false} RedeliverySafe(c: Config, s: State, gone: set<nat>, j: nat)
    requires c.policy.AckExplicit? && Weak(s, 0) && Safe(s, j)
    ensures var n := NextRedelivery(c, s, gone); Weak(n.state, 0) && Safe(n.state, j)
    decreases |s.rdq|
  {
    if s.rdq != [] {
      HeadSafe(c, s, gone, j);
      var n := RedeliverHead(c, s, gone);
      if n.msg.None? {
        RedeliverySafe(c, n.state, gone, j);
      }
    }
  }

  lemma FreshWeak(s: State, r: State, k: nat)
    requires Weak(s, 0) && k >= s.sseq
    requires r == s.(sseq := k + 1, dseq := s.dseq + 1, pending := s.pending[k := s.dseq])
    ensures Weak(r, 0)
  {
  }

  lemma SkipSafe(s: State, n: Positive, j: nat)
    requires Weak(s, 0) && Safe(s, j) && n >= s.sseq
    ensures Weak(s.(sseq := n), 0) && Safe(s.(sseq := n), j)
  {
  }

  lemma FreshSafe(c: Config, s: State, st: Store, waiter: bool, j: nat)
    requires Weak(s, 0) && Safe(s, j)
    ensures var r := HandOut(FreshMsg(c, s, st), waiter); Weak(r, 0) && Safe(r, j)
  {
    var n := FreshMsg(c, s, st);
    var r := HandOut(n, waiter);
    if n.msg.Some? && waiter {
      var k := n.msg.value.key;
      assert r == s.(sseq := k + 1, dseq := s.dseq + 1, pending := s.pending[k := s.dseq]);
      FreshWeak(s, r, k);
    } else {
      assert r == s.(sseq := r.sseq) && r.sseq >= s.sseq;
      SkipSafe(s, r.sseq, j);
    }
  }

  /** A redelivery that was picked is handed out or put back. */
  lemma AgainSafe(n: Next, waiter: bool, j: nat)
    requires n.msg.Some? && Ready(n) && Weak(n.state, 0) && Safe(n.state, j)
    ensures var r := HandOut(n, waiter); Weak(r, 0) && Safe(r, j)
  {
  }

  lemma TurnSafe(c: Config, w: World, waiter: bool, j: nat)
    requires c.policy.AckExplicit? && Sane(c, w) && Weak(w.s, 0) && Safe(w.s, j)
    ensures var r := Turn(c, w, waiter); Weak(r.s, 0) && Safe(r.s, j)
  {
    var gone := set k | k in w.s.rdqi && k !in w.st.live;
    RedeliverySafe(c, w.s, gone, j);
    RedeliveryBasic(c, w.s, gone);
    var n := NextRedelivery(c, w.s, gone);
    if n.msg.Some? {
      assert NextMsg(c, w.s, w.st) == n;
      AgainSafe(n, waiter, j);
    } else {
      assert NextMsg(c, w.s, w.st) == FreshMsg(c, n.state, w.st);
      FreshSafe(c, n.state, w.st, waiter, j);
    }
  }

  lemma NakSafe(s: State, k: nat, d: nat, delayed: bool, j: nat)
    requires Weak(s, 0) && Safe(s, j)
    ensures var r := Nak(s, k, d, delayed); Weak(r, 0) && Safe(r, j)
  {
  }

  lemma StepSafe(c: Config, w: World, e: Event, j: nat)
    requires c.policy.AckExplicit? && Sane(c, w) && Weak(w.s, 0) && Safe(w.s, j) && Enabled(BELOW, w, e)
    ensures var r := Step(c, w, e); Weak(r.s, 0) && Safe(r.s, j)
  {
    match e
    case Publish(_) =>
    case Remove(k) =>
    case NextTurn(waiter) => TurnSafe(c, w, waiter, j);
    case Ack(k, _, _) => AckSafe(w.s, k, j);
    case NakMsg(k, d, delayed) => NakSafe(w.s, k, d, delayed, j);
    case Expire(order, first, due) => CheckPendingSafe(c, w.s, order, first, due, j);
    case PurgeTo(first, gone, order) => PurgeSafe(w.s, first, gone, order, j);
  }

  /** A message that is safe stays so, and what is live was live or came later. */
  lemma {:induction false} RunSafe(c: Config, w: World, es: seq<Event>, j: nat)
    requires c.policy.AckExplicit? && Sane(c, w) && Weak(w.s, 0) && Safe(w.s, j) && Possible(c, BELOW, w, es)
    ensures var r := Run(c, w, es); Weak(r.s, 0) && Safe(r.s, j)
    decreases |es|
  {
    if es != [] {
      StepSafe(c, w, es[0], j);
      StepSane(c, BELOW, w, es[0]);
      RunSafe(c, Step(c, w, es[0]), es[1..], j);
    }
  }

  lemma {:induction false} LiveBefore(c: Config, g: Guard, w: World, es: seq<Event>, j: nat)
    requires Possible(c, g, w, es) && j <= w.st.last && j in Run(c, w, es).st.live
    ensures j in w.st.live
    decreases |es|
  {
    if es != [] {
      LiveBefore(c, g, Step(c, w, es[0]), es[1..], j);
    }
  }

  // Giving a message up.

  /** The stream may drop `j`, which it holds and nobody settled. */
  predicate GivenUp(c: Config, w: World, j: nat) { j in w.st.live && j in w.s.pending && !NeedAck(c, w.s, j) }

  /** Some run from `w`, whose further purges are from below, leads to that. */
  ghost predicate CanGiveUp(c: Config, w: World) {
    exists es, j :: Possible(c, BELOW, w, es) && GivenUp(c, Run(c, w, es), j)
  }

  /** The delivery floor has passed a live message without a redelivery on record, and the floors can move. */
  ghost predicate Exposed(w: World, j: nat) {
    j in w.st.live && j in w.s.pending && w.s.pending[j] <= w.s.adflr && j !in w.s.rdc && !Stuck(w.s)
  }

  lemma AckGivesUp(c: Config, w: World, j: nat, k: nat, order: seq<nat>)
    requires c.policy.AckExplicit? && Weak(w.s, 0) && Walks(order, w.s) && j in w.st.live && j in w.s.pending
    requires w.s.pending[j] <= w.s.adflr && j !in w.s.rdc && k in w.s.pending && w.s.pending[k] == w.s.adflr + 1
    ensures GivenUp(c, Step(c, w, Ack(k, w.s.pending[k], order)), j)
  {
    var s := w.s;
    assert j < k;
    var s1 := s.(pending := s.pending - {k});
    assert j in s1.pending;
    assert TakePending(s, k).asflr >= k;
  }

  /** A message is published and the next one handed out. */
  lemma HandsOutNext(c: Config, w: World) returns (k: nat)
    requires w.s.rdq == [] && (c.maxPending == 0 || |w.s.pending| < c.maxPending)
    requires w.s.sseq <= w.st.last + 1 && forall k :: k in w.s.pending ==> k < w.s.sseq
    ensures var r := Step(c, Step(c, w, Publish(true)), NextTurn(true));
            && k >= w.s.sseq && w.st.live <= r.st.live
            && r.s == w.s.(sseq := k + 1, dseq := w.s.dseq + 1, pending := w.s.pending[k := w.s.dseq])
  {
    var w1 := Step(c, w, Publish(true));
    k := FirstLive(w1.st.live, w.s.sseq, w1.st.last + 1).value;
    assert NextMsg(c, w1.s, w1.st) == Next(w1.s.(sseq := k + 1), Some(Msg(k, 1)));
  }

  /** An exposed message can be given up, in up to three steps. */
  lemma ExposedGivesUp(c: Config, w: World, j: nat)
    requires c.policy.AckExplicit? && Weak(w.s, 0) && Exposed(w, j) && w.s.rdq == []
    requires w.s.sseq <= w.st.last + 1 && (c.maxPending == 0 || |w.s.pending| < c.maxPending)
    ensures CanGiveUp(c, w)
  {
    if k :| k in w.s.pending && w.s.pending[k] == w.s.adflr + 1 {
      var es := AckEnds(c, w, j, k);
      assert GivenUp(c, Run(c, w, es), j);
    } else {
      var k := HandsOutNext(c, w);
      var w1 := Step(c, w, Publish(true));
      var w2 := Step(c, w1, NextTurn(true));
      FreshWeak(w.s, w2.s, k);
      var es := AckEnds(c, w2, j, k);
      RunCons(c, BELOW, w1, NextTurn(true), es);
      RunCons(c, BELOW, w, Publish(true), [NextTurn(true)] + es);
      assert GivenUp(c, Run(c, w, [Publish(true)] + ([NextTurn(true)] + es)), j);
    }
  }

  lemma AckEnds(c: Config, w: World, j: nat, k: nat) returns (es: seq<Event>)
    requires c.policy.AckExplicit? && Weak(w.s, 0) && j in w.st.live && j in w.s.pending
    requires w.s.pending[j] <= w.s.adflr && j !in w.s.rdc && k in w.s.pending && w.s.pending[k] == w.s.adflr + 1
    ensures Possible(c, BELOW, w, es) && GivenUp(c, Run(c, w, es), j)
  {
    var order := AnyOrder(w.s.pending.Keys);
    AckGivesUp(c, w, j, k, order);
    var e := Ack(k, w.s.pending[k], order);
    RunCons(c, BELOW, w, e, []);
    es := [e] + [];
  }

  /** Before a purge: `j` stays, live and without a redelivery on record; `k`, the last of those dropped, was handed out
      after it; and what was handed out next after `k` stays, or nothing was.
   */
  ghost predicate Exposes(w: World, first: nat, gone: set<nat>, j: nat, k: nat) {
    var s := w.s;
    && j in s.pending && first <= j && j !in gone && j in w.st.live && j !in s.rdc
    && LastDropped(s, first, gone, k) && j < k
    && (s.dseq == s.pending[k] + 1 || exists m :: m in s.pending && m !in gone && s.pending[m] == s.pending[k] + 1)
  }

  /** After a purge that gets to its loop everything pending lies above the stream floor. */
  lemma PurgeWeak(s: State, first: nat, gone: set<nat>, order: seq<nat>)
    requires Inv(s) && Walks(order, s)
    ensures var r := Purge(s, first, gone, order);
            && Weak(r, 0) && r.rdq == [] && forall k :: k in r.pending ==> r.asflr < k
  {
    PurgeAbove(s, first, gone, order);
    PurgeLeaves(s, first, gone, order);
    PurgeBounds(s, first, gone, order);
  }

  lemma PurgeBounds(s: State, first: nat, gone: set<nat>, order: seq<nat>)
    requires Inv(s) && Walks(order, s)
    ensures var r := Purge(s, first, gone, order); r.adflr < r.dseq && r.asflr < r.sseq
  {
    if s.asflr < first {
      PurgeEachDrops(s.(sseq := Max(s.sseq, first), asflr := first - 1), gone, order);
    }
  }

  /** What a purge leaves of a message that stays. */
  lemma PurgeStays(s: State, first: nat, gone: set<nat>, order: seq<nat>, j: nat)
    requires Inv(s) && Walks(order, s) && s.asflr < first
    ensures var s1, r := s.(sseq := Max(s.sseq, first), asflr := first - 1), Purge(s, first, gone, order);
            j in r.pending ==>
              && r.adflr == PurgeEach(s1, gone, order).adflr && r.dseq == s.dseq
              && r.pending == PurgeEach(s1, gone, order).pending && (j in r.rdc <==> j in s.rdc)
              && Dropped(s1, gone, order, PurgeEach(s1, gone, order))
  {
    PurgeEachDrops(s.(sseq := Max(s.sseq, first), asflr := first - 1), gone, order);
  }

  /** `k` is the last of what a purge drops. */
  ghost predicate LastDropped(s: State, first: nat, gone: set<nat>, k: nat) {
    && k in s.pending && (k < first || k in gone)
    && forall i :: i in s.pending && (i < first || i in gone) ==> i <= k
  }

  /** The delivery floor that a walk leaves is that of the last one dropped. */
  lemma FloorOfLast(s: State, s1: State, first: nat, gone: set<nat>, order: seq<nat>, r: State, k: nat)
    requires Inv(s) && Walks(order, s) && s.asflr < first && k in s.pending && (k < first || k in gone)
    requires s1 == s.(sseq := Max(s.sseq, first), asflr := first - 1) && Dropped(s1, gone, order, r)
    ensures r.adflr == s.pending[k] <==> LastDropped(s, first, gone, k)
  {
    assert forall i :: i in s.pending ==> (Drops(s1, gone, i) <==> i < first || i in gone);
    if r.adflr == s.pending[k] {
      forall i | i in s.pending && (i < first || i in gone)
        ensures i <= k
      {
        assert s1.pending[i] <= r.adflr;
      }
    }
    if LastDropped(s, first, gone, k) {
      assert s1.pending[k] <= r.adflr;
      var l: nat :| l in s1.pending && l in order && Drops(s1, gone, l) && s1.pending[l] == r.adflr;
      assert l <= k;
    }
  }

  lemma ExposedBy(c: Config, w: World, first: nat, gone: set<nat>, order: seq<nat>, j: nat)
    requires Good(c, w) && Enabled(ANY, w, PurgeTo(first, gone, order))
    ensures Exposed(Step(c, w, PurgeTo(first, gone, order)), j) <==>
            w.s.asflr < first && exists k :: Exposes(w, first, gone, j, k)
  {
    var s, r := w.s, Step(c, w, PurgeTo(first, gone, order));
    PurgeLeaves(s, first, gone, order);
    if first <= s.asflr {
      PurgeIdle(s, first, gone, order);
    } else if j in s.pending && first <= j && j !in gone {
      PurgeStays(s, first, gone, order, j);
      var s1 := s.(sseq := Max(s.sseq, first), asflr := first - 1);
      ExposedIff(w, r, s1, first, gone, order, PurgeEach(s1, gone, order), j);
    }
  }

  lemma PurgeIdle(s: State, first: nat, gone: set<nat>, order: seq<nat>)
    requires Inv(s) && Walks(order, s) && first <= s.asflr
    ensures var r := Purge(s, first, gone, order); forall k :: k in r.pending ==> k in s.pending && r.adflr < r.pending[k]
  {
    PurgeExactly(s, first, gone, order);
    PurgeLeaves(s, first, gone, order);
  }

  /** `r` has what the walk left in `d` of message `j`. */
  ghost predicate Leaves(w: World, r: World, s1: State, first: nat, gone: set<nat>, order: seq<nat>, d: State, j: nat) {
    && Inv(w.s) && Walks(order, w.s) && w.s.asflr < first && j in w.s.pending && first <= j && j !in gone
    && s1 == w.s.(sseq := Max(w.s.sseq, first), asflr := first - 1) && Dropped(s1, gone, order, d)
    && r.s.adflr == d.adflr && r.s.dseq == w.s.dseq && r.s.pending == d.pending
    && (j in r.s.rdc <==> j in w.s.rdc) && (j in r.st.live <==> j in w.st.live)
  }

  lemma ExposedIff(w: World, r: World, s1: State, first: nat, gone: set<nat>, order: seq<nat>, d: State, j: nat)
    requires Leaves(w, r, s1, first, gone, order, d, j)
    ensures Exposed(r, j) <==> exists k :: Exposes(w, first, gone, j, k)
  {
    if Exposed(r, j) {
      var k := ExposedLast(w, r, s1, first, gone, order, d, j);
      assert Exposes(w, first, gone, j, k);
    }
    if k :| Exposes(w, first, gone, j, k) {
      LastExposes(w, r, s1, first, gone, order, d, j, k);
    }
  }

  lemma ExposedLast(w: World, r: World, s1: State, first: nat, gone: set<nat>, order: seq<nat>, d: State, j: nat)
    returns (k: nat)
    requires Leaves(w, r, s1, first, gone, order, d, j) && Exposed(r, j)
    ensures Exposes(w, first, gone, j, k)
  {
    k :| k in s1.pending && k in order && Drops(s1, gone, k) && s1.pending[k] == d.adflr;
    FloorOfLast(w.s, s1, first, gone, order, d, k);
    if w.s.dseq != w.s.pending[k] + 1 {
      var m :| m in d.pending && d.pending[m] == d.adflr + 1;
      assert m in w.s.pending && m !in gone;
    }
  }

  lemma LastExposes(w: World, r: World, s1: State, first: nat, gone: set<nat>, order: seq<nat>, d: State, j: nat, k: nat)
    requires Leaves(w, r, s1, first, gone, order, d, j) && Exposes(w, first, gone, j, k)
    ensures Exposed(r, j)
  {
    FloorOfLast(w.s, s1, first, gone, order, d, k);
    assert w.s.pending[j] < w.s.pending[k];
    if w.s.dseq != w.s.pending[k] + 1 {
      var m :| m in w.s.pending && m !in gone && w.s.pending[m] == w.s.pending[k] + 1;
      assert first <= m;
      assert m in d.pending;
    }
  }

  lemma OneFewer(a: set<nat>, b: set<nat>, k: nat)
    requires a <= b - {k} && k in b
    ensures |a| < |b|
  {
    var rest := (b - {k}) - a;
    assert b - {k} == a + rest && |b - {k}| == |b| - 1;
  }

  lemma RoomAfter(c: Config, w: World, first: nat, gone: set<nat>, order: seq<nat>, j: nat, k: nat)
    requires Good(c, w) && Walks(order, w.s) && w.s.asflr < first <= w.st.last + 1 && Exposes(w, first, gone, j, k)
    ensures var r := Purge(w.s, first, gone, order);
            r.sseq <= w.st.last + 1 && (c.maxPending == 0 || |r.pending| < c.maxPending)
  {
    PurgeLeaves(w.s, first, gone, order);
    assert j in w.handed;
    var r := Purge(w.s, first, gone, order);
    OneFewer(r.pending.Keys, w.s.pending.Keys, k);
  }

  /** Where nothing is exposed, nothing can be given up. */
  lemma NothingGivenUp(c: Config, r: World)
    requires c.policy.AckExplicit? && Sane(c, r) && Weak(r.s, 0) && (forall k :: k in r.s.pending ==> r.s.asflr < k)
    requires forall j :: !Exposed(r, j)
    ensures !CanGiveUp(c, r)
  {
    forall es, j | Possible(c, BELOW, r, es)
      ensures !GivenUp(c, Run(c, r, es), j)
    {
      if j in r.s.pending && j in Run(c, r, es).st.live {
        LiveBefore(c, BELOW, r, es, j);
      }
      if j in Run(c, r, es).st.live {
        assert !Exposed(r, j);
        assert Safe(r.s, j);
        RunSafe(c, r, es, j);
      }
    }
  }

  lemma PurgedGivesUp(c: Config, w: World, r: World, first: nat, gone: set<nat>, order: seq<nat>, j: nat, k: nat)
    requires Good(c, w) && Enabled(ANY, w, PurgeTo(first, gone, order)) && r == Step(c, w, PurgeTo(first, gone, order))
    requires w.s.asflr < first && Exposes(w, first, gone, j, k)
    ensures CanGiveUp(c, r)
  {
    ExposedBy(c, w, first, gone, order, j);
    PurgeWeak(w.s, first, gone, order);
    RoomAfter(c, w, first, gone, order, j, k);
    ExposedGivesUp(c, r, j);
  }

  lemma PurgedGivesNothingUp(c: Config, w: World, r: World, first: nat, gone: set<nat>, order: seq<nat>)
    requires Good(c, w) && Enabled(ANY, w, PurgeTo(first, gone, order)) && r == Step(c, w, PurgeTo(first, gone, order))
    requires !(w.s.asflr < first && exists j, k :: Exposes(w, first, gone, j, k))
    ensures !CanGiveUp(c, r)
  {
    StepSane(c, ANY, w, PurgeTo(first, gone, order));
    PurgeWeak(w.s, first, gone, order);
    forall j
      ensures !Exposed(r, j)
    {
      ExposedBy(c, w, first, gone, order, j);
    }
    NothingGivenUp(c, r);
  }

  /** A purge can lead to a message being given up, by settlements and deliveries and purges from below alone, if and only
      if it gets to its loop and exposes one.
   */
  lemma GivesUpExactly(c: Config, w: World, first: nat, gone: set<nat>, order: seq<nat>)
    requires Good(c, w) && Enabled(ANY, w, PurgeTo(first, gone, order))
    ensures CanGiveUp(c, Step(c, w, PurgeTo(first, gone, order))) <==>
            w.s.asflr < first && exists j, k :: Exposes(w, first, gone, j, k)
    ensures FromBelow(w.s, first, gone) ==> !CanGiveUp(c, Step(c, w, PurgeTo(first, gone, order)))
  {
    var r := Step(c, w, PurgeTo(first, gone, order));
    if w.s.asflr < first && exists j, k :: Exposes(w, first, gone, j, k) {
      var j, k :| Exposes(w, first, gone, j, k);
      PurgedGivesUp(c, w, r, first, gone, order, j, k);
    } else {
      PurgedGivesNothingUp(c, w, r, first, gone, order);
    }
  }

  // A run that gives a message up.

  const EACH: Config := Config(AckExplicit, 0, 0)

  /** Three messages, two of which are handed out. */
  function Begun(): World { Start(1, Store({1, 2, 3}, 3)) }

  lemma HandsOut(w: World)
    requires w.s.rdq == [] && w.s.sseq in w.st.live && w.s.sseq <= w.st.last && w.s.sseq !in w.s.pending
    ensures var r, s := Step(EACH, w, NextTurn(true)), w.s;
            r.st == w.st && r.s == s.(sseq := s.sseq + 1, dseq := s.dseq + 1, pending := s.pending[s.sseq := s.dseq])
  {
  }

  lemma SecondPurged(s: State)
    requires s.rdq == [] && s.pending == map[1 := 1, 2 := 2] && s.asflr == 0 && s.adflr == 0 && s.dseq == 3 && s.sseq == 3 && s.rdc == map[]
    ensures Purge(s, 1, {2}, [1, 2]) == s.(adflr := 2, pending := map[1 := 1]) && Walks([1, 2], s)
  {
    assert PurgeOne(s, {2}, 1) == s;
    assert PurgeOne(s, {2}, 2) == s.(adflr := 2, pending := map[1 := 1]) by {
      assert s.pending - {2} == map[1 := 1] && s.rdc - {2} == map[];
    }
    assert [1, 2][1..] == [2] && [2][1..] == [];
  }

  const HONEST: Guard := Guard(true, false)

  /** Two messages are handed out and the second is purged by its subject: the delivery floor passes the first. */
  lemma PassedBy() returns (es: seq<Event>)
    ensures Possible(EACH, HONEST, Begun(), es)
    ensures var w := Run(EACH, Begun(), es);
            && w.s == State(3, 3, 2, 0, map[1 := 1], [], {}, map[]) && 1 in w.st.live && 3 in w.st.live && w.st.last == 3
  {
    var t := NextTurn(true);
    var w2 := TwoOut();
    var p := PurgedOut(w2);
    RunCons(EACH, HONEST, w2, p, []);
    assert Run(EACH, w2, [p] + []) == Step(EACH, w2, p);
    TwoMore(Begun(), [p] + []);
    es := [t] + ([t] + ([p] + []));
  }

  lemma TwoMore(w: World, es: seq<Event>)
    requires Possible(EACH, HONEST, Step(EACH, Step(EACH, w, NextTurn(true)), NextTurn(true)), es)
    ensures var more, w2 := [NextTurn(true)] + ([NextTurn(true)] + es), Step(EACH, Step(EACH, w, NextTurn(true)), NextTurn(true));
            Possible(EACH, HONEST, w, more) && Run(EACH, w, more) == Run(EACH, w2, es)
  {
    RunCons(EACH, HONEST, Step(EACH, w, NextTurn(true)), NextTurn(true), es);
    RunCons(EACH, HONEST, w, NextTurn(true), [NextTurn(true)] + es);
  }

  lemma PurgedOut(w: World) returns (e: Event)
    requires w.s == State(3, 3, 0, 0, map[1 := 1, 2 := 2], [], {}, map[]) && w.st == Begun().st
    ensures Enabled(HONEST, w, e)
    ensures var r := Step(EACH, w, e);
            && r.s == State(3, 3, 2, 0, map[1 := 1], [], {}, map[]) && 1 in r.st.live && 3 in r.st.live && r.st.last == 3
  {
    e := PurgeTo(1, {2}, [1, 2]);
    SecondPurged(w.s);
  }

  lemma TwoOut() returns (w: World)
    ensures w == Step(EACH, Step(EACH, Begun(), NextTurn(true)), NextTurn(true))
    ensures w.s == State(3, 3, 0, 0, map[1 := 1, 2 := 2], [], {}, map[]) && w.st == Begun().st
  {
    HandsOut(Begun());
    var w1 := Step(EACH, Begun(), NextTurn(true));
    assert w1.s == State(2, 2, 0, 0, map[1 := 1], [], {}, map[]);
    HandsOut(w1);
    w := Step(EACH, w1, NextTurn(true));
  }

  /** The next one is handed out and acknowledged. */
  lemma ThirdAcked(w: World) returns (es: seq<Event>)
    requires w.s == State(3, 3, 2, 0, map[1 := 1], [], {}, map[]) && 1 in w.st.live && 3 in w.st.live && w.st.last == 3
    ensures Possible(EACH, HONEST, w, es)
    ensures var r := Run(EACH, w, es); 1 in r.st.live && r.s.pending == map[1 := 1] && r.s.asflr == 3 && r.s.rdc == map[]
  {
    var t, a := NextTurn(true), Ack(3, 3, [1, 3]);
    var w1 := Step(EACH, w, t);
    HandsOut(w);
    assert NextMsg(EACH, w.s, w.st) == Next(w.s.(sseq := 4), Some(Msg(3, 1)));
    assert w1.s.pending == map[1 := 1, 3 := 3];
    assert w1.s.pending - {3} == map[1 := 1];
    RunCons(EACH, HONEST, w1, a, []);
    RunCons(EACH, HONEST, w, t, [a] + []);
    es := [t] + ([a] + []);
  }

  /** So, by honest acknowledgements, the stream may drop the first message, which it holds and nobody acknowledged. */
  lemma FirstGivenUp() returns (es: seq<Event>)
    ensures Possible(EACH, HONEST, Begun(), es)
    ensures var w := Run(EACH, Begun(), es); GivenUp(EACH, w, 1) && w.s.asflr == 3
  {
    var first := PassedBy();
    var more := ThirdAcked(Run(EACH, Begun(), first));
    RunAppend(EACH, HONEST, Begun(), first, more);
    es := first + more;
  }
}
