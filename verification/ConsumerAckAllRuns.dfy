/** Whole runs of consumers whose acknowledgement settles everything up to a sequence: when everything pending stays above
the stream floor.
 */
module ConsumerAckAllRuns {
  import opened Basics
  import opened ConsumerState
  import opened ConsumerSafety
  import opened ConsumerPurge
  import opened ConsumerAckAll
  import opened ConsumerMachine
  import opened ConsumerAccounts

  /** Entries from `first` on are above the stream floor. */
  ghost predicate AboveFrom(s: State, first: nat) { forall k :: k in s.pending && k >= first ==> s.asflr < k }

  ghost predicate Single(pending: map<nat, nat>) { forall j, k :: j in pending && k in pending ==> j == k }

  /** Messages were handed out once each, in order. */
  ghost predicate Once(s: State, given: set<(nat, nat)>) {
    && (forall k :: k in s.pending ==> (k, s.pending[k]) in given)
    && (forall k, d, k', d' :: (k, d) in given && (k', d') in given ==> (k < k' <==> d < d'))
    && forall k, d :: (k, d) in given ==> k < s.sseq && d < s.dseq
  }

  /** Nothing is ever dropped, or only what is alone. */
  ghost predicate Alone(c: Config, s: State) { c.maxDeliver == 0 || (c.maxPending == 1 && Single(s.pending)) }

  /** Nothing is handed out twice, and both floors are below everything pending. */
  ghost predicate InTurn(c: Config, s: State, given: set<(nat, nat)>) { c.maxDeliver == 1 && Inv(s) && Once(s, given) }

  /** Everything pending is above the stream floor, for a reason that lasts. */
  ghost predicate Kept(c: Config, w: World) {
    AboveFrom(w.s, 0) && (Alone(c, w.s) || InTurn(c, w.s, w.given))
  }

  lemma OnceShrinks(s: State, r: State, given: set<(nat, nat)>)
    requires Once(s, given) && Shrinks(s, r, {})
    ensures Once(r, given)
  {
  }

  /** A smaller state keeps it if its floors do. */
  lemma ShrunkKept(c: Config, w: World, r: State)
    requires Kept(c, w) && Shrinks(w.s, r, {}) && AboveFrom(r, 0) && (Alone(c, w.s) || Inv(r))
    ensures Kept(c, w.(s := r))
  {
    if !Alone(c, w.s) {
      OnceShrinks(w.s, r, w.given);
    }
  }

  // The expiry pass.

  lemma CheckOneAbove(c: Config, s: State, expired: seq<nat>, k: nat, first: nat, due: set<nat>)
    requires Bound(s) && AboveFrom(s, first) && Alone(c, s)
    ensures var r := CheckOne(c, s, expired, k, first, due).0; Bound(r) && AboveFrom(r, first) && Alone(c, r)
  {
    if k in s.pending && !(k < first || k <= s.asflr) && k in due && k !in s.rdqi && HasMaxDeliveries(c, s, k).0 {
      assert s.pending - {k} == map[];
    }
  }

  lemma {:induction false} CheckEachAbove(c: Config, s: State, expired: seq<nat>, order: seq<nat>, first: nat, due: set<nat>)
    requires Bound(s) && AboveFrom(s, first) && Alone(c, s) && forall k :: k in s.pending && k < first ==> k in order
    ensures var r := CheckEach(c, s, expired, order, first, due).0; AboveFrom(r, first) && forall k :: k in r.pending ==> first <= k
    decreases |order|
  {
    if order != [] {
      assert order == [order[0]] + order[1..];
      CheckOneAbove(c, s, expired, order[0], first, due);
      var (s1, e1) := CheckOne(c, s, expired, order[0], first, due);
      CheckEachAbove(c, s1, e1, order[1..], first, due);
    }
  }

  lemma CheckPendingKept(c: Config, w: World, order: seq<nat>, first: nat, due: set<nat>)
    requires Basic(w.s) && Kept(c, w) && Walks(order, w.s)
    ensures Kept(c, w.(s := CheckPending(c, w.s, order, first, due)))
  {
    var r := CheckPending(c, w.s, order, first, due);
    CheckPendingBasic(c, w.s, order, first, due);
    if Alone(c, w.s) {
      CheckEachAbove(c, w.s, [], order, first, due);
    } else {
      CheckPendingKeeps(c, w.s, order, first, due);
    }
    ShrunkKept(c, w, r);
  }

  // Acknowledgements.

  lemma AckKept(c: Config, w: World, k: nat, d: nat, order: seq<nat>)
    requires Basic(w.s) && Visits(order, w.s, k) && Kept(c, w) && (Alone(c, w.s) || (k, d) in w.given)
    ensures Kept(c, w.(s := AckUpTo(w.s, k, d, order)))
  {
    AckUpToKeeps(w.s, k, d, order);
    AckUpToShrinks(w.s, k, d, order);
    if !Alone(c, w.s) {
      AckInTurn(c, w, k, d, order);
    }
    ShrunkKept(c, w, AckUpTo(w.s, k, d, order));
  }

  lemma AckInTurn(c: Config, w: World, k: nat, d: nat, order: seq<nat>)
    requires Visits(order, w.s, k) && InTurn(c, w.s, w.given) && (k, d) in w.given
    ensures Inv(AckUpTo(w.s, k, d, order))
  {
    AckUpToKeeps(w.s, k, d, order);
    var s, r := w.s, AckUpTo(w.s, k, d, order);
    forall j | j in r.pending && r != s
      ensures d < s.pending[j]
    {
      assert k < j && (j, s.pending[j]) in w.given;
    }
  }

  // A turn of the delivery loop.

  lemma TakeKept(c: Config, w: World, k: nat)
    requires c.maxDeliver > 0 && Basic(w.s) && k in w.s.pending && k !in w.s.rdq && Kept(c, w)
    ensures Kept(c, w.(s := TakePending(w.s, k)))
  {
    if Alone(c, w.s) {
      assert w.s.pending - {k} == map[];
    } else {
      MoveKeeps(w.s, k);
    }
    ShrunkKept(c, w, TakePending(w.s, k));
  }

  lemma PoppedKept(c: Config, w: World, n: nat)
    requires Basic(w.s) && w.s.rdq != [] && Kept(c, w)
    ensures Kept(c, w.(s := Popped(w.s).(rdc := w.s.rdc[w.s.rdq[0] := n])))
  {
    PoppedQueued(w.s, n);
  }

  lemma RedeliverHeadKept(c: Config, w: World, gone: set<nat>)
    requires c.policy.AckAll? && Basic(w.s) && w.s.rdq != [] && Kept(c, w)
    ensures var n := RedeliverHead(c, w.s, gone); Kept(c, w.(s := n.state)) && (c.maxDeliver == 1 ==> n.msg.None?)
  {
    var s, k := w.s, w.s.rdq[0];
    var dc := Redeliveries(s, k) + 2;
    var s1, n := Popped(s).(rdc := s.rdc[k := dc - 1]), RedeliverHead(c, s, gone);
    PoppedBasic(s, dc - 1);
    PoppedKept(c, w, dc - 1);
    if c.maxDeliver > 0 && dc > c.maxDeliver {
      assert n == Next(TakePending(s1, k), None);
      TakeKept(c, w.(s := s1), k);
    } else if k in gone {
      var s2 := s1.(rdc := s1.rdc[k := Decrement(dc - 1)]);
      assert s2 == Popped(s).(rdc := s.rdc[k := Decrement(dc - 1)]);
      PoppedBasic(s, Decrement(dc - 1));
      PoppedKept(c, w, Decrement(dc - 1));
      assert n == Next(Settle(c, s2, k), None);
      KeysUpToVisits(s2, k);
      AckKept(c, w.(s := s2), k, s2.pending[k], KeysUpTo(s2.pending, k));
    } else {
      assert n == Next(s1, Some(Msg(k, dc)));
    }
  }

  lemma {:induction false} RedeliveryKept(c: Config, w: World, gone: set<nat>)
    requires c.policy.AckAll? && Basic(w.s) && Kept(c, w)
    ensures var n := NextRedelivery(c, w.s, gone); Kept(c, w.(s := n.state)) && (c.maxDeliver == 1 ==> n.msg.None?)
    decreases |w.s.rdq|
  {
    if w.s.rdq != [] {
      RedeliverHeadKept(c, w, gone);
      RedeliverHeadBasic(c, w.s, gone);
      var n := RedeliverHead(c, w.s, gone);
      if n.msg.None? {
        RedeliveryKept(c, w.(s := n.state), gone);
      }
    }
  }

  lemma DeliverKept(c: Config, w: World, k: nat)
    requires Basic(w.s) && Kept(c, w) && k >= w.s.sseq && (c.maxPending == 1 ==> w.s.pending == map[])
    ensures Kept(c, w.(s := Deliver(w.s.(sseq := k + 1), k), given := w.given + {(k, w.s.dseq)}))
  {
  }

  lemma SkipKept(c: Config, w: World, n: Positive)
    requires Kept(c, w) && n >= w.s.sseq
    ensures Kept(c, w.(s := w.s.(sseq := n)))
  {
  }

  lemma FreshKept(c: Config, w: World, m: State, waiter: bool)
    requires Basic(m) && Kept(c, w.(s := m))
    ensures Kept(c, After(w, FreshMsg(c, m, w.st), waiter))
  {
    var n, w1 := FreshMsg(c, m, w.st), w.(s := m);
    var r := HandOut(n, waiter);
    if n.msg.Some? && waiter {
      var k := n.msg.value.key;
      assert r == Deliver(m.(sseq := k + 1), k) && GivenBy(n, waiter) == {(k, m.dseq)};
      DeliverKept(c, w1, k);
      SameKept(c, w1.(s := r, given := w.given + {(k, m.dseq)}), After(w, n, waiter));
    } else {
      assert r == m.(sseq := r.sseq) && w.given + {} == w.given;
      SkipKept(c, w1, r.sseq);
      SameKept(c, w1.(s := r), After(w, n, waiter));
    }
  }

  lemma SameKept(c: Config, w: World, r: World)
    requires Kept(c, w) && r.s == w.s && r.given == w.given
    ensures Kept(c, r)
  {
  }

  lemma AgainKept(c: Config, w: World, n: Next, waiter: bool)
    requires n.msg.Some? && Ready(n) && Kept(c, w.(s := n.state)) && c.maxDeliver != 1
    ensures Kept(c, After(w, n, waiter))
  {
  }

  lemma TurnKept(c: Config, w: World, waiter: bool)
    requires c.policy.AckAll? && Basic(w.s) && Kept(c, w)
    ensures Kept(c, Turn(c, w, waiter))
  {
    var gone := set k | k in w.s.rdqi && k !in w.st.live;
    RedeliveryKept(c, w, gone);
    RedeliveryBasic(c, w.s, gone);
    var n := NextRedelivery(c, w.s, gone);
    if n.msg.Some? {
      assert NextMsg(c, w.s, w.st) == n;
      AgainKept(c, w, n, waiter);
    } else {
      assert NextMsg(c, w.s, w.st) == FreshMsg(c, n.state, w.st);
      FreshKept(c, w, n.state, waiter);
    }
  }

  // Purges.

  lemma {:induction false} PurgeEachAbove(s: State, gone: set<nat>, order: seq<nat>)
    requires forall k :: k in s.pending ==> s.asflr < k || k in order
    ensures var r := PurgeEach(s, gone, order); r.asflr == s.asflr && forall k :: k in r.pending ==> r.asflr < k
    decreases |order|
  {
    if order != [] {
      assert order == [order[0]] + order[1..];
      PurgeEachAbove(PurgeOne(s, gone, order[0]), gone, order[1..]);
    }
  }

  lemma PurgeAboveAll(s: State, first: nat, gone: set<nat>, order: seq<nat>)
    requires Walks(order, s) && AboveFrom(s, 0)
    ensures AboveFrom(Purge(s, first, gone, order), 0)
  {
    if s.asflr < first {
      PurgeEachAbove(s.(sseq := Max(s.sseq, first), asflr := first - 1), gone, order);
    }
  }

  lemma PurgeKept(c: Config, w: World, first: nat, gone: set<nat>, order: seq<nat>)
    requires Basic(w.s) && Walks(order, w.s) && Kept(c, w) && (Alone(c, w.s) || FromBelow(w.s, first, gone))
    ensures Kept(c, w.(s := Purge(w.s, first, gone, order)))
  {
    var s1 := w.s.(sseq := Max(w.s.sseq, first));
    PurgeBasic(w.s, first, gone, order);
    PurgeAboveAll(w.s, first, gone, order);
    if !Alone(c, w.s) {
      PurgeExactly(w.s, first, gone, order);
    }
    SkipKept(c, w, s1.sseq);
    ShrunkKept(c, w.(s := s1), Purge(w.s, first, gone, order));
  }

  // Runs.

  /** Limits under which no step strands a message: deliveries are not limited, or only one message may be pending, or each
      is delivered once, acknowledgements are honest and purges are from below.
   */
  ghost predicate Harmless(c: Config, g: Guard) {
    c.maxDeliver == 0 || c.maxPending == 1 || (c.maxDeliver == 1 && g.honest && g.below)
  }

  /** Only the queue and the redelivery counts change. */
  lemma QueueKept(c: Config, w: World, r: World)
    requires Kept(c, w) && Queued(r.s) && r.given == w.given
    requires r.s == w.s.(rdq := r.s.rdq, rdqi := r.s.rdqi, rdc := r.s.rdc)
    ensures Kept(c, r)
  {
  }

  lemma RoomSingle(c: Config, s: State)
    requires Room(c, s) && c.maxPending == 1
    ensures Alone(c, s)
  {
    forall j, k | j in s.pending && k in s.pending
      ensures j == k
    {
      OneKey(s.pending.Keys, j, k);
    }
  }

  lemma OneKey(keys: set<nat>, j: nat, k: nat)
    requires |keys| <= 1 && j in keys && k in keys
    ensures j == k
  {
    assert |keys - {j}| == 0;
    assert keys - {j} == {};
  }

  lemma StepKept(c: Config, g: Guard, w: World, e: Event)
    requires c.policy.AckAll? && Harmless(c, g) && Sane(c, w) && Kept(c, w) && Enabled(g, w, e)
    ensures Kept(c, Step(c, w, e))
  {
    if c.maxPending == 1 {
      RoomSingle(c, w.s);
    }
    match e
    case Publish(_) => SameKept(c, w, Step(c, w, e));
    case Remove(k) => QueueKept(c, w, Step(c, w, e));
    case NextTurn(waiter) => TurnKept(c, w, waiter);
    case Ack(k, d, order) => AckKept(c, w, k, d, order);
    case NakMsg(k, d, delayed) =>
      NakBasic(w.s, k, d, delayed);
      QueueKept(c, w, Step(c, w, e));
    case Expire(order, first, due) => CheckPendingKept(c, w, order, first, due);
    case PurgeTo(first, gone, order) =>
      PurgeKept(c, w, first, gone, order);
      SameKept(c, w.(s := Purge(w.s, first, gone, order)), Step(c, w, e));
  }

  /** In every such run everything pending stays above the stream floor, so that the two walks always agree and the stream
      is told to keep every message that is not settled.
   */
  lemma {:induction false} RunKept(c: Config, g: Guard, w: World, es: seq<Event>)
    requires c.policy.AckAll? && Harmless(c, g) && Sane(c, w) && Kept(c, w) && Possible(c, g, w, es)
    ensures var r := Run(c, w, es);
            Kept(c, r) && Above(r.s) && forall k :: k in r.s.pending || k >= r.s.sseq ==> NeedAck(c, r.s, k)
    decreases |es|
  {
    if es == [] {
      assert Basic(w.s);
    } else {
      StepKept(c, g, w, es[0]);
      StepSane(c, g, w, es[0]);
      RunKept(c, g, Step(c, w, es[0]), es[1..]);
    }
  }
}
