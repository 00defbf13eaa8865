/** The ack floors of an AckExplicit consumer are as high as they can be. */
module ConsumerFloors {
  import opened Basics
  import opened ConsumerState
  import opened ConsumerSafety
  import opened ConsumerMachine
  import opened ConsumerRuns

  /** The entry right above the floor is the least one. */
  lemma LeastAboveFloor(s: State, k: nat)
    requires Inv(s) && Tight(s) && k in s.pending
    ensures s.pending[k] == s.adflr + 1 <==> forall j :: j in s.pending ==> k <= j
  {
    var l :| l in s.pending && s.pending[l] == s.adflr + 1;
    assert forall j :: j in s.pending && j < l ==> s.pending[j] < s.pending[l];
    if l < k {
      assert s.pending[l] < s.pending[k];
    }
  }

  lemma TakeTight(s: State, k: nat)
    requires Floors(s) && Ordered(s) && Tight(s) && k in s.pending
    ensures Tight(TakePending(s, k))
  {
    var s1 := s.(pending := s.pending - {k});
    var l :| l in s.pending && s.pending[l] == s.adflr + 1;
    if s1.pending == map[] {
    } else if l == k {
      var j :| j in s1.pending;
      assert k < j;
      var n := FirstPending(s1.pending, k + 1, s.sseq).value;
      assert s.pending[k] < s.pending[n];
      assert n in TakePending(s, k).pending;
    } else {
      assert s.pending[k] != s.adflr + 1;
      assert l in TakePending(s, k).pending;
    }
  }

  /** Settling the least pending entry moves the floors to just below the new least entry `n`. */
  lemma SettleLeast(s: State, k: nat, n: nat)
    requires Inv(s) && Tight(s) && k in s.pending && n in s.pending && k < n
    requires forall j :: j in s.pending ==> j == k || n <= j
    ensures AckOne(s, k).asflr == n - 1 && AckOne(s, k).adflr == s.pending[n] - 1
  {
    LeastAboveFloor(s, k);
    var s1 := s.(pending := s.pending - {k});
    assert n in s1.pending;
    assert FirstPending(s1.pending, k + 1, s.sseq) == Some(n);
    assert TakePending(s, k) == s1.(adflr := s.pending[n] - 1, asflr := n - 1);
  }

  /** Settling the only pending entry moves the floors to the last sequences handed out. */
  lemma SettleLast(s: State, k: nat)
    requires Inv(s) && s.pending.Keys == {k}
    ensures AckOne(s, k).asflr == s.sseq - 1 && AckOne(s, k).adflr == s.dseq - 1
  {
    assert k in s.pending && s.pending - {k} == map[];
    assert TakePending(s, k) == s.(pending := map[], adflr := s.dseq - 1, asflr := s.sseq - 1);
  }

  /** Settling any other entry leaves the floors alone. */
  lemma SettleOther(s: State, k: nat, least: nat)
    requires Inv(s) && Tight(s) && k in s.pending && least in s.pending && least < k
    ensures AckOne(s, k).asflr == s.asflr && AckOne(s, k).adflr == s.adflr
  {
    LeastAboveFloor(s, k);
    assert least in s.pending - {k};
    assert TakePending(s, k) == s.(pending := s.pending - {k});
  }

  lemma AckOneTight(s: State, k: nat)
    requires Inv(s) && Tight(s)
    ensures Tight(AckOne(s, k))
  {
    if k in s.pending {
      TakeTight(s, k);
    }
  }

  // Expiry of entries the stream still holds.

  /** A stream that starts at `first` still holds everything pending. */
  ghost predicate Holds(s: State, first: nat) { forall k :: k in s.pending ==> k >= first }

  lemma {:induction false} CheckEachTight(c: Config, s: State, expired: seq<nat>, order: seq<nat>, first: nat, due: set<nat>)
    requires Mid(s, expired, order, first) && Tight(s) && Holds(s, first)
    ensures Tight(CheckEach(c, s, expired, order, first, due).0)
    decreases |order|
  {
    if order != [] {
      CheckOneKeeps(c, s, expired, order, first, due);
      var (s1, e1) := CheckOne(c, s, expired, order[0], first, due);
      assert Tight(s1) by {
        if order[0] in s.pending {
          TakeTight(s, order[0]);
        }
      }
      CheckEachTight(c, s1, e1, order[1..], first, due);
    }
  }

  // Delivery.

  /** The states differ at most in their redelivery bookkeeping. */
  ghost predicate Agree(s: State, r: State) {
    s.sseq == r.sseq && s.dseq == r.dseq && s.adflr == r.adflr && s.asflr == r.asflr && s.pending == r.pending
  }

  lemma TakeAgrees(s: State, r: State, k: nat)
    requires Agree(s, r)
    ensures Agree(TakePending(s, k), TakePending(r, k))
  {
  }

  lemma RedeliverHeadAgrees(c: Config, s: State, gone: set<nat>)
    requires c.policy.AckExplicit? && Inv(s) && s.rdq != []
    ensures var n := RedeliverHead(c, s, gone);
            Agree(s, n.state) || Agree(TakePending(s, s.rdq[0]), n.state)
  {
    var k := s.rdq[0];
    assert k in s.rdq;
    var s1 := Popped(s).(rdc := s.rdc[k := Redeliveries(s, k) + 1]);
    TakeAgrees(s, s1, k);
    TakeAgrees(s, s1.(rdc := s1.rdc[k := Decrement(Redeliveries(s, k) + 1)]), k);
  }

  lemma RedeliverHeadTight(c: Config, s: State, gone: set<nat>)
    requires c.policy.AckExplicit? && Inv(s) && Tight(s) && s.rdq != []
    ensures Tight(RedeliverHead(c, s, gone).state)
  {
    RedeliverHeadAgrees(c, s, gone);
    assert s.rdq[0] in s.rdq;
    TakeTight(s, s.rdq[0]);
  }

  lemma {:induction false} NextRedeliveryTight(c: Config, s: State, gone: set<nat>)
    requires c.policy.AckExplicit? && Inv(s) && Tight(s)
    ensures Tight(NextRedelivery(c, s, gone).state)
    decreases |s.rdq|
  {
    if s.rdq != [] {
      RedeliverHeadKeeps(c, s, gone);
      RedeliverHeadTight(c, s, gone);
      var n := RedeliverHead(c, s, gone);
      if n.msg.None? {
        NextRedeliveryTight(c, n.state, gone);
      }
    }
  }

  lemma DeliverTight(s: State, k: nat)
    requires Tight(s)
    ensures Tight(Deliver(s, k))
  {
    var r := Deliver(s, k);
    if s.pending == map[] {
      assert k in r.pending && r.pending[k] == r.adflr + 1;
    } else {
      var l :| l in s.pending && s.pending[l] == s.adflr + 1;
      assert l in r.pending && r.pending[l] == r.adflr + 1;
    }
  }

  lemma HandOutTight(n: Next, waiter: bool)
    requires Tight(n.state)
    ensures Tight(HandOut(n, waiter))
  {
    if n.msg.Some? {
      DeliverTight(n.state, n.msg.value.key);
    }
  }

  lemma TurnTight(c: Config, w: World, waiter: bool)
    requires c.policy.AckExplicit? && Inv(w.s) && Tight(w.s)
    ensures Tight(Turn(c, w, waiter).s)
  {
    var gone := set k | k in w.s.rdqi && k !in w.st.live;
    NextRedeliveryTight(c, w.s, gone);
    var n := NextRedelivery(c, w.s, gone);
    assert Tight(FreshMsg(c, n.state, w.st).state);
    HandOutTight(NextMsg(c, w.s, w.st), waiter);
  }

  lemma {:induction false} PurgeEachTight(s: State, gone: set<nat>, order: seq<nat>)
    requires forall k :: k in s.pending ==> s.asflr < k && k !in gone
    ensures PurgeEach(s, gone, order) == s
    decreases |order|
  {
    if order != [] {
      PurgeEachTight(s, gone, order[1..]);
    }
  }

  lemma PurgeTight(s: State, first: nat, gone: set<nat>, order: seq<nat>)
    requires Tight(s) && Holds(s, first) && forall k :: k in s.pending ==> k !in gone
    ensures Tight(Purge(s, first, gone, order))
  {
    var s1 := s.(sseq := Max(s.sseq, first));
    if s1.asflr < first {
      PurgeEachTight(s1.(asflr := first - 1), gone, order);
    }
  }

  /** The stream neither purged nor outran an entry that is pending. */
  ghost predicate StreamKeeps(s: State, e: Event) {
    match e
    case Expire(_, first, _) => Holds(s, first)
    case PurgeTo(first, gone, _) => Holds(s, first) && forall k :: k in s.pending ==> k !in gone
    case _ => true
  }

  lemma StepTight(c: Config, w: World, e: Event)
    requires Good(c, w) && Tight(w.s) && Enabled(BELOW, w, e) && StreamKeeps(w.s, e)
    ensures Tight(Step(c, w, e).s)
  {
    match e {
      case NextTurn(waiter) => TurnTight(c, w, waiter);
      case Ack(k, _, _) => AckOneTight(w.s, k);
      case Expire(order, first, due) => CheckEachTight(c, w.s, [], order, first, due);
      case PurgeTo(first, gone, order) => PurgeTight(w.s, first, gone, order);
      case _ =>
    }
  }

  /** The stream keeps what is pending all through a run. */
  ghost predicate Keeps(c: Config, w: World, es: seq<Event>)
    decreases |es|
  {
    es == [] || (StreamKeeps(w.s, es[0]) && Keeps(c, Step(c, w, es[0]), es[1..]))
  }

  /** Over every run in which the stream keeps what is pending, the least pending entry sits right
      above the delivery floor, and the floor is at the top when nothing is pending.
   */
  lemma {:induction false} RunTight(c: Config, w: World, es: seq<Event>)
    requires Good(c, w) && Tight(w.s) && Possible(c, BELOW, w, es) && Keeps(c, w, es)
    ensures Tight(Run(c, w, es).s)
    decreases |es|
  {
    if es != [] {
      StepTight(c, w, es[0]);
      StepGood(c, w, es[0]);
      RunTight(c, Step(c, w, es[0]), es[1..]);
    }
  }
}
