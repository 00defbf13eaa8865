/** What every run of a consumer keeps, whatever its policy and whatever acknowledgements and purges do: the redelivery
queue, the accounts of hand-outs and the limits on them.
 */
module ConsumerAccounts {
  import opened Basics
  import opened ConsumerState
  import opened ConsumerSafety
  import opened ConsumerPurge
  import opened ConsumerAckAll
  import opened ConsumerMachine

  ghost predicate Bound(s: State) { s.asflr < s.sseq && forall k :: k in s.pending ==> k < s.sseq }

  ghost predicate Basic(s: State) { Bound(s) && Queued(s) }

  /** Each pending entry was handed out once more than it was redelivered, nothing was handed out
      above the cursor, and nothing more often than the limit.
   */
  ghost predicate Counted(c: Config, s: State, handed: map<nat, nat>) {
    && (forall k :: k in s.pending ==> k in handed && handed[k] == Redeliveries(s, k) + 1)
    && (forall k :: k in s.rdc ==> k in handed)
    && (forall k :: k in handed ==> k < s.sseq && (c.maxDeliver > 0 ==> handed[k] <= c.maxDeliver))
  }

  /** Every live match between the start and the cursor was handed out, and only what the stream had from the start on. */
  ghost predicate Covered(w: World) {
    && w.start <= w.s.sseq <= Max(w.start, w.st.last + 1)
    && (forall k :: k in w.st.live ==> k <= w.st.last)
    && (forall k :: k in w.handed ==> w.start <= k <= w.st.last)
    && forall k :: k in w.st.live && w.start <= k < w.s.sseq ==> k in w.handed
  }

  /** No more is pending than the limit allows. */
  ghost predicate Room(c: Config, s: State) { c.maxPending > 0 ==> |s.pending| <= c.maxPending }

  ghost predicate Sane(c: Config, w: World) {
    Basic(w.s) && Counted(c, w.s, w.handed) && Covered(w) && Room(c, w.s)
  }

  /** `r` has no entry `s` does not have, and the same redelivery counts but for those in `except`. */
  ghost predicate Shrinks(s: State, r: State, except: set<nat>) {
    && s.sseq == r.sseq && s.dseq <= r.dseq
    && (forall k :: k in r.rdc ==> k in s.rdc || k in s.pending)
    && forall k :: k in r.pending ==>
         k in s.pending && r.pending[k] == s.pending[k] && (k !in except ==> Redeliveries(r, k) == Redeliveries(s, k))
  }

  lemma Fewer(s: State, r: State)
    requires forall k :: k in r.pending ==> k in s.pending
    ensures |r.pending| <= |s.pending|
  {
    var a, b := r.pending.Keys, s.pending.Keys;
    assert |b| == |a| + |b - a| by {
      assert b == a + (b - a);
    }
  }

  lemma ShrinksKeeps(c: Config, s: State, r: State, handed: map<nat, nat>)
    requires Counted(c, s, handed) && Room(c, s) && Shrinks(s, r, {})
    ensures Counted(c, r, handed) && Room(c, r)
  {
    Fewer(s, r);
  }

  lemma TakeBound(s: State, k: nat)
    requires Bound(s) && k in s.pending
    ensures Bound(TakePending(s, k))
  {
  }

  // Acknowledgements.

  lemma AckedBasic(c: Config, s: State, k: nat, d: nat, order: seq<nat>)
    requires Basic(s) && Visits(order, s, k)
    ensures var r := Acked(c, s, k, d, order); Basic(r) && Shrinks(s, r, {})
  {
    match c.policy
    case AckExplicit => AckOneShrinks(s, k);
    case AckAll => AckUpToBasic(s, k, d, order);
  }

  lemma AckUpToBasic(s: State, k: nat, d: nat, order: seq<nat>)
    requires Basic(s) && Visits(order, s, k)
    ensures var r := AckUpTo(s, k, d, order); Basic(r) && Shrinks(s, r, {})
  {
    AckUpToKeeps(s, k, d, order);
    AckUpToShrinks(s, k, d, order);
  }

  lemma AckOneShrinks(s: State, k: nat)
    requires Basic(s)
    ensures var r := AckOne(s, k); Basic(r) && Shrinks(s, r, {})
  {
    AckOneQueued(s, k);
    AckOneFrame(s, k);
    if k in s.pending {
      TakeBound(s, k);
    }
  }

  lemma AckUpToShrinks(s: State, k: nat, d: nat, order: seq<nat>)
    requires Basic(s)
    ensures Shrinks(s, AckUpTo(s, k, d, order), {})
  {
    if k < s.sseq && d > s.adflr && k > s.asflr {
      var s1 := s.(adflr := d, asflr := k);
      if k - s.asflr > |s.pending| {
        MapWalk(s1, k, order);
      } else {
        RangeWalk(s1, k, s.asflr);
      }
    }
  }

  // The expiry pass.

  ghost predicate Passing(s: State, expired: seq<nat>, order: seq<nat>) { Basic(s) && MidQueue(s, expired, order) }

  lemma CheckOneBasic(c: Config, s: State, expired: seq<nat>, order: seq<nat>, first: nat, due: set<nat>)
    requires order != [] && Passing(s, expired, order)
    ensures var (r, e) := CheckOne(c, s, expired, order[0], first, due); Passing(r, e, order[1..]) && Shrinks(s, r, {})
  {
    var k := order[0];
    assert order == [k] + order[1..];
    if k in s.pending {
      if k < first || k <= s.asflr {
        ForgetKeeps(s, k);
      } else if k in due && k !in s.rdqi {
        if HasMaxDeliveries(c, s, k).0 {
          TakeBound(s, k);
        } else {
          InsertKeeps(expired, k);
        }
      }
    }
  }

  lemma ShrinksTwice(s: State, m: State, r: State)
    requires Shrinks(s, m, {}) && Shrinks(m, r, {})
    ensures Shrinks(s, r, {})
  {
  }

  lemma {:induction false} CheckEachBasic(c: Config, s: State, expired: seq<nat>, order: seq<nat>, first: nat, due: set<nat>)
    requires Passing(s, expired, order)
    ensures var (r, e) := CheckEach(c, s, expired, order, first, due); Passing(r, e, []) && Shrinks(s, r, {})
    decreases |order|
  {
    if order != [] {
      CheckOneBasic(c, s, expired, order, first, due);
      var (s1, e1) := CheckOne(c, s, expired, order[0], first, due);
      CheckEachBasic(c, s1, e1, order[1..], first, due);
      ShrinksTwice(s, s1, CheckEach(c, s, expired, order, first, due).0);
    }
  }

  lemma CheckPendingBasic(c: Config, s: State, order: seq<nat>, first: nat, due: set<nat>)
    requires Basic(s) && Walks(order, s)
    ensures var r := CheckPending(c, s, order, first, due); Basic(r) && Shrinks(s, r, {})
  {
    CheckEachBasic(c, s, [], order, first, due);
    var (s1, expired) := CheckEach(c, s, [], order, first, due);
    EnqueueKeeps(s1, expired);
  }

  // Purges.

  lemma {:induction false} PurgeEachBasic(s: State, gone: set<nat>, order: seq<nat>)
    requires Bound(s)
    ensures var r := PurgeEach(s, gone, order);
            Bound(r) && Shrinks(s, r, {}) && r == s.(adflr := r.adflr, dseq := r.dseq, pending := r.pending, rdc := r.rdc)
    decreases |order|
  {
    if order != [] {
      PurgeEachBasic(PurgeOne(s, gone, order[0]), gone, order[1..]);
    }
  }

  lemma PurgeEndBasic(s: State)
    requires Bound(s) && (forall k :: k in s.rdq ==> k < s.sseq) && (s.rdq == [] ==> s.rdqi == {})
    ensures Basic(PurgeEnd(s)) && Shrinks(s, PurgeEnd(s), {})
  {
    FilterNone(s.rdq, s.sseq);
  }

  lemma PurgeBasic(s: State, first: nat, gone: set<nat>, order: seq<nat>)
    requires Basic(s)
    ensures var r := Purge(s, first, gone, order); Basic(r) && Shrinks(s.(sseq := Max(s.sseq, first)), r, {})
  {
    var s1 := s.(sseq := Max(s.sseq, first));
    if s1.asflr < first {
      var s2 := s1.(asflr := first - 1);
      PurgeEachBasic(s2, gone, order);
      PurgeEndBasic(PurgeEach(s2, gone, order));
    } else {
      PurgeEndBasic(s1);
    }
  }

  // A turn of the delivery loop.

  /** A picked redelivery is a pending entry that is no longer queued. */
  ghost predicate Ready(n: Next) {
    n.msg.Some? ==> n.msg.value.dc >= 2 && n.msg.value.key in n.state.pending && n.msg.value.key !in n.state.rdq
  }

  /** The count a picked redelivery carries is one above the times it was handed out, and within the limit. */
  ghost predicate CountsPick(c: Config, s: State, n: Next) {
    match n.msg
    case None => Shrinks(s, n.state, {})
    case Some(m) =>
      && Shrinks(s, n.state, {m.key})
      && Redeliveries(n.state, m.key) == Redeliveries(s, m.key) + 1
      && m.dc == Redeliveries(s, m.key) + 2
      && (c.maxDeliver > 0 ==> m.dc <= c.maxDeliver)
  }

  lemma PoppedBasic(s: State, n: nat)
    requires Basic(s) && s.rdq != []
    ensures var r := Popped(s).(rdc := s.rdc[s.rdq[0] := n]);
            Basic(r) && s.rdq[0] in r.pending && s.rdq[0] !in r.rdq && Shrinks(s, r, {s.rdq[0]})
  {
    PoppedQueued(s, n);
  }

  lemma HeadDropped(s: State, n: nat)
    requires Basic(s) && s.rdq != []
    ensures var r := TakePending(Popped(s).(rdc := s.rdc[s.rdq[0] := n]), s.rdq[0]); Basic(r) && Shrinks(s, r, {})
  {
    PoppedBasic(s, n);
    TakeBound(Popped(s).(rdc := s.rdc[s.rdq[0] := n]), s.rdq[0]);
  }

  lemma HeadSettled(c: Config, s: State)
    requires Basic(s) && s.rdq != []
    ensures var k := s.rdq[0];
            var s2 := Popped(s).(rdc := s.rdc[k := Redeliveries(s, k)]);
            k in s2.pending && Basic(Settle(c, s2, k)) && Shrinks(s, Settle(c, s2, k), {})
  {
    var k := s.rdq[0];
    var s2 := Popped(s).(rdc := s.rdc[k := Redeliveries(s, k)]);
    PoppedBasic(s, Redeliveries(s, k));
    KeysUpToVisits(s2, k);
    AckedBasic(c, s2, k, s2.pending[k], KeysUpTo(s2.pending, k));
    assert Shrinks(s, s2, {});
    ShrinksTwice(s, s2, Settle(c, s2, k));
  }

  lemma RedeliverHeadBasic(c: Config, s: State, gone: set<nat>)
    requires Basic(s) && s.rdq != []
    ensures var n := RedeliverHead(c, s, gone); Basic(n.state) && Ready(n) && CountsPick(c, s, n)
  {
    var k := s.rdq[0];
    var dc := Redeliveries(s, k) + 2;
    var s1, n := Popped(s).(rdc := s.rdc[k := dc - 1]), RedeliverHead(c, s, gone);
    if c.maxDeliver > 0 && dc > c.maxDeliver {
      assert n == Next(TakePending(s1, k), None);
      HeadDropped(s, dc - 1);
    } else if k in gone {
      HeadSettled(c, s);
      assert s1.(rdc := s1.rdc[k := Decrement(dc - 1)]) == Popped(s).(rdc := s.rdc[k := Redeliveries(s, k)]);
      assert n == Next(Settle(c, Popped(s).(rdc := s.rdc[k := Redeliveries(s, k)]), k), None);
    } else {
      assert n == Next(s1, Some(Msg(k, dc)));
      PoppedBasic(s, dc - 1);
    }
  }

  lemma PickTwice(c: Config, s: State, m: State, n: Next)
    requires Shrinks(s, m, {}) && CountsPick(c, m, n) && Ready(n)
    ensures CountsPick(c, s, n)
  {
  }

  lemma {:induction false} RedeliveryBasic(c: Config, s: State, gone: set<nat>)
    requires Basic(s)
    ensures var n := NextRedelivery(c, s, gone); Basic(n.state) && Ready(n) && CountsPick(c, s, n)
    decreases |s.rdq|
  {
    if s.rdq != [] {
      RedeliverHeadBasic(c, s, gone);
      var n := RedeliverHead(c, s, gone);
      if n.msg.None? {
        RedeliveryBasic(c, n.state, gone);
        PickTwice(c, s, n.state, NextRedelivery(c, n.state, gone));
      }
    }
  }

  /** Handing out a picked redelivery, or putting it back. */
  lemma AgainBasic(c: Config, s: State, n: Next, waiter: bool, handed: map<nat, nat>)
    requires Counted(c, s, handed) && Room(c, s) && n.msg.Some? && Basic(n.state) && Ready(n) && CountsPick(c, s, n)
    ensures var r := HandOut(n, waiter);
            Basic(r) && r.sseq == s.sseq && Counted(c, r, Record(n, waiter, handed)) && Room(c, r)
  {
    AgainQueued(n, waiter);
    Fewer(s, n.state);
  }

  /** Handing out a fresh message, or putting it back. */
  lemma FreshBasic(c: Config, s: State, st: Store, waiter: bool, handed: map<nat, nat>)
    requires Basic(s) && Counted(c, s, handed) && Room(c, s)
    ensures var n := FreshMsg(c, s, st);
            var r := HandOut(n, waiter);
            Basic(r) && Counted(c, r, Record(n, waiter, handed)) && Room(c, r)
  {
    var n := FreshMsg(c, s, st);
    if n.msg.Some? && waiter {
      assert |s.pending[n.msg.value.key := s.dseq]| == |s.pending| + 1;
    }
  }

  lemma FreshQueued(c: Config, s: State, st: Store, waiter: bool)
    requires Basic(s)
    ensures Basic(HandOut(FreshMsg(c, s, st), waiter))
  {
  }

  lemma AgainQueued(n: Next, waiter: bool)
    requires n.msg.Some? && Basic(n.state) && Ready(n)
    ensures Basic(HandOut(n, waiter))
  {
    var m, k := n.state, n.msg.value.key;
    EnqueueKeeps(m.(rdc := m.rdc[k := Decrement(Redeliveries(m, k))]), [k]);
  }

  lemma TurnBasic(c: Config, s: State, st: Store, waiter: bool)
    requires Basic(s)
    ensures Basic(DeliverNext(c, s, st, waiter))
  {
    var gone := set k | k in s.rdqi && k !in st.live;
    var n := NextRedelivery(c, s, gone);
    RedeliveryBasic(c, s, gone);
    if n.msg.None? {
      assert NextMsg(c, s, st) == FreshMsg(c, n.state, st);
      FreshQueued(c, n.state, st, waiter);
    } else {
      assert NextMsg(c, s, st) == n;
      AgainQueued(n, waiter);
    }
  }

  lemma FreshCovered(c: Config, w: World, waiter: bool)
    requires Covered(w)
    ensures var n := FreshMsg(c, w.s, w.st);
            Covered(w.(s := HandOut(n, waiter), handed := Record(n, waiter, w.handed)))
  {
  }

  lemma AgainSane(c: Config, w: World, n: Next, waiter: bool)
    requires Sane(c, w) && n.msg.Some? && Basic(n.state) && Ready(n) && CountsPick(c, w.s, n)
    ensures Sane(c, After(w, n, waiter))
  {
    AgainBasic(c, w.s, n, waiter, w.handed);
  }

  lemma FreshSane(c: Config, w: World, m: State, waiter: bool)
    requires Sane(c, w) && Basic(m) && Shrinks(w.s, m, {})
    ensures Sane(c, After(w, FreshMsg(c, m, w.st), waiter))
  {
    ShrinksKeeps(c, w.s, m, w.handed);
    FreshBasic(c, m, w.st, waiter, w.handed);
    FreshCovered(c, w.(s := m), waiter);
  }

  lemma TurnSane(c: Config, w: World, waiter: bool)
    requires Sane(c, w)
    ensures Sane(c, Turn(c, w, waiter))
  {
    var gone := set k | k in w.s.rdqi && k !in w.st.live;
    var n := NextRedelivery(c, w.s, gone);
    RedeliveryBasic(c, w.s, gone);
    if n.msg.None? {
      FreshSane(c, w, n.state, waiter);
      assert NextMsg(c, w.s, w.st) == FreshMsg(c, n.state, w.st);
    } else {
      AgainSane(c, w, n, waiter);
      assert NextMsg(c, w.s, w.st) == n;
    }
  }

  // Runs.

  lemma NakBasic(s: State, k: nat, d: nat, delayed: bool)
    requires Basic(s)
    ensures var r := Nak(s, k, d, delayed); Basic(r) && r == s.(rdq := r.rdq, rdqi := r.rdqi)
  {
    RemoveQueuedKeeps(s, k);
    if k in s.pending && k !in s.rdq {
      EnqueueKeeps(s, [k]);
    }
  }

  lemma ShrunkSane(c: Config, w: World, r: State)
    requires Sane(c, w) && Basic(r) && Shrinks(w.s, r, {})
    ensures Sane(c, w.(s := r))
  {
    ShrinksKeeps(c, w.s, r, w.handed);
  }

  lemma PurgeSane(c: Config, w: World, first: nat, gone: set<nat>, order: seq<nat>)
    requires Sane(c, w) && first <= w.st.last + 1
    ensures Sane(c, Step(c, w, PurgeTo(first, gone, order)))
  {
    PurgeBasic(w.s, first, gone, order);
    ShrinksKeeps(c, w.s.(sseq := Max(w.s.sseq, first)), Purge(w.s, first, gone, order), w.handed);
  }

  lemma StepSane(c: Config, g: Guard, w: World, e: Event)
    requires Sane(c, w) && Enabled(g, w, e)
    ensures Sane(c, Step(c, w, e))
  {
    match e {
      case Publish(_) =>
      case Remove(k) => ShrunkSane(c, w, Removed(w.s, k));
      case NextTurn(waiter) => TurnSane(c, w, waiter);
      case Ack(k, d, order) =>
        AckedBasic(c, w.s, k, d, order);
        ShrunkSane(c, w, Acked(c, w.s, k, d, order));
      case NakMsg(k, d, delayed) =>
        NakBasic(w.s, k, d, delayed);
        ShrunkSane(c, w, Nak(w.s, k, d, delayed));
      case Expire(order, first, due) =>
        CheckPendingBasic(c, w.s, order, first, due);
        ShrunkSane(c, w, CheckPending(c, w.s, order, first, due));
      case PurgeTo(first, gone, order) => PurgeSane(c, w, first, gone, order);
    }
  }

  lemma {:induction false} RunSane(c: Config, g: Guard, w: World, es: seq<Event>)
    requires Sane(c, w) && Possible(c, g, w, es)
    ensures Sane(c, Run(c, w, es))
    decreases |es|
  {
    if es != [] {
      StepSane(c, g, w, es[0]);
      RunSane(c, g, Step(c, w, es[0]), es[1..]);
    }
  }

  /** The invariant of every state that any consumer reaches. */
  lemma ReachableSane(c: Config, g: Guard, w: World)
    requires Reachable(c, g, w)
    ensures Sane(c, w)
  {
    var start: Positive, st: Store, es :| FromStart(c, g, start, st, es, w);
    RunSane(c, g, Start(start, st), es);
  }

  /** No sequence is ever handed out more than `maxDeliver` times, and no more are ever pending than `maxPending`. */
  lemma AtMostMaxDeliver(c: Config, w: World, k: nat)
    requires Reachable(c, ANY, w)
    ensures c.maxDeliver > 0 ==> Times(w.handed, k) <= c.maxDeliver
    ensures c.maxPending > 0 ==> |w.s.pending| <= c.maxPending
  {
    ReachableSane(c, ANY, w);
  }

  /** `k` is behind the cursor and not pending in `r`, and was not handed out since `w`. */
  ghost predicate Settled(w: World, r: World, k: nat) {
    k < r.s.sseq && k !in r.s.pending && Times(r.handed, k) == Times(w.handed, k)
  }

  lemma AgainSettled(c: Config, w: World, n: Next, waiter: bool, k: nat)
    requires Settled(w, w, k) && n.msg.Some? && Ready(n) && CountsPick(c, w.s, n)
    ensures Settled(w, After(w, n, waiter), k)
  {
    assert n.msg.value.key != k;
  }

  lemma FreshSettled(c: Config, w: World, m: State, waiter: bool, k: nat)
    requires Settled(w, w, k) && Shrinks(w.s, m, {})
    ensures Settled(w, After(w, FreshMsg(c, m, w.st), waiter), k)
  {
  }

  lemma TurnSettled(c: Config, w: World, waiter: bool, k: nat)
    requires Sane(c, w) && Settled(w, w, k)
    ensures Settled(w, Turn(c, w, waiter), k)
  {
    var gone := set j | j in w.s.rdqi && j !in w.st.live;
    RedeliveryBasic(c, w.s, gone);
    var n := NextRedelivery(c, w.s, gone);
    if n.msg.Some? {
      AgainSettled(c, w, n, waiter, k);
      assert NextMsg(c, w.s, w.st) == n;
    } else {
      FreshSettled(c, w, n.state, waiter, k);
      assert NextMsg(c, w.s, w.st) == FreshMsg(c, n.state, w.st);
    }
  }

  lemma StepSettled(c: Config, g: Guard, w: World, e: Event, k: nat)
    requires Sane(c, w) && Enabled(g, w, e) && Settled(w, w, k)
    ensures Settled(w, Step(c, w, e), k)
  {
    match e {
      case NextTurn(waiter) => TurnSettled(c, w, waiter, k);
      case Ack(j, d, order) => AckedBasic(c, w.s, j, d, order);
      case Expire(order, first, due) => CheckPendingBasic(c, w.s, order, first, due);
      case PurgeTo(first, gone, order) => PurgeBasic(w.s, first, gone, order);
      case _ =>
    }
  }

  /** A sequence that was acknowledged, terminated, dropped, purged or skipped is never handed out again. */
  lemma {:induction false} SettledForever(c: Config, w: World, es: seq<Event>, k: nat)
    requires Sane(c, w) && Possible(c, ANY, w, es) && k < w.s.sseq && k !in w.s.pending
    ensures var r := Run(c, w, es);
            k !in r.s.pending && Times(r.handed, k) == Times(w.handed, k)
    decreases |es|
  {
    if es != [] {
      StepSettled(c, ANY, w, es[0], k);
      StepSane(c, ANY, w, es[0]);
      SettledForever(c, Step(c, w, es[0]), es[1..], k);
    }
  }
}
