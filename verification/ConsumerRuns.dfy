/** Whole runs of an AckExplicit consumer in which purges drop from below: what the floors keep. */
module ConsumerRuns {
  import opened Basics
  import opened ConsumerState
  import opened ConsumerSafety
  import opened ConsumerPurge
  import opened ConsumerMachine
  import opened ConsumerAccounts

  const BELOW: Guard := Guard(false, true)

  ghost predicate Good(c: Config, w: World) { c.policy.AckExplicit? && Inv(w.s) && Sane(c, w) }

  lemma StepInv(c: Config, w: World, e: Event)
    requires c.policy.AckExplicit? && Inv(w.s) && Enabled(BELOW, w, e)
    ensures Inv(Step(c, w, e).s)
  {
    match e {
      case Publish(_) =>
      case Remove(k) =>
      case NextTurn(waiter) => DeliverNextKeeps(c, w.s, w.st, waiter);
      case Ack(k, _, _) => AckOneKeeps(w.s, k);
      case NakMsg(k, d, delayed) => NakKeeps(w.s, k, d, delayed);
      case Expire(order, first, due) => CheckPendingKeeps(c, w.s, order, first, due);
      case PurgeTo(first, gone, order) => PurgeExactly(w.s, first, gone, order);
    }
  }

  lemma StepGood(c: Config, w: World, e: Event)
    requires Good(c, w) && Enabled(BELOW, w, e)
    ensures Good(c, Step(c, w, e))
  {
    StepInv(c, w, e);
    StepSane(c, BELOW, w, e);
  }

  /** The invariant of every reachable state. */
  lemma {:induction false} RunGood(c: Config, w: World, es: seq<Event>)
    requires Good(c, w) && Possible(c, BELOW, w, es)
    ensures Good(c, Run(c, w, es))
    decreases |es|
  {
    if es != [] {
      StepGood(c, w, es[0]);
      RunGood(c, Step(c, w, es[0]), es[1..]);
    }
  }

  lemma ReachableGood(c: Config, w: World)
    requires c.policy.AckExplicit? && Reachable(c, BELOW, w)
    ensures Good(c, w)
  {
    var start: Positive, st: Store, es :| FromStart(c, BELOW, start, st, es, w);
    RunGood(c, Start(start, st), es);
  }

  // What users of a consumer rely on.

  /** In every reachable state no unsettled delivery lies at or below a floor. */
  lemma NothingUnsettledBelowFloor(c: Config, w: World, k: nat)
    requires c.policy.AckExplicit? && Reachable(c, BELOW, w) && k in w.s.pending
    ensures w.s.asflr < k < w.s.sseq && w.s.adflr < w.s.pending[k] < w.s.dseq
    ensures forall j :: j in w.s.pending && j < k ==> w.s.pending[j] < w.s.pending[k]
  {
    ReachableGood(c, w);
  }

  /** The stream is told to keep every live match this consumer has not settled; told otherwise,
      the message was handed out and settled.
   */
  lemma NeedAckComplete(c: Config, w: World, k: nat)
    requires c.policy.AckExplicit? && Reachable(c, BELOW, w) && k >= w.start && k in w.st.live
    ensures k >= w.s.sseq || k in w.s.pending ==> NeedAck(c, w.s, k)
    ensures !NeedAck(c, w.s, k) ==> k in w.handed && k !in w.s.pending
  {
    ReachableGood(c, w);
  }

  /** And it is told so for nothing else: interest is reported exactly for what is not yet delivered, what is pending, and
      what has a redelivery on record.
   */
  lemma NeedAckExactly(c: Config, w: World, k: nat)
    requires c.policy.AckExplicit? && Reachable(c, BELOW, w)
    ensures NeedAck(c, w.s, k) <==> k >= w.s.sseq || k in w.s.pending || k in w.s.rdc
  {
    ReachableGood(c, w);
  }

  // Release.

  /** Delivered, not pending, and without a redelivery on record. */
  ghost predicate Released(s: State, k: nat) { k < s.sseq && k !in s.pending && k !in s.rdc }

  lemma AgainReleased(c: Config, s: State, n: Next, waiter: bool, k: nat)
    requires Released(s, k) && n.msg.Some? && Ready(n) && CountsPick(c, s, n)
    ensures Released(HandOut(n, waiter), k)
  {
    assert n.msg.value.key != k;
  }

  lemma FreshReleased(c: Config, s: State, m: State, st: Store, waiter: bool, k: nat)
    requires Released(s, k) && Shrinks(s, m, {})
    ensures Released(HandOut(FreshMsg(c, m, st), waiter), k)
  {
  }

  lemma TurnReleased(c: Config, w: World, waiter: bool, k: nat)
    requires Sane(c, w) && Released(w.s, k)
    ensures Released(Turn(c, w, waiter).s, k)
  {
    var gone := set j | j in w.s.rdqi && j !in w.st.live;
    RedeliveryBasic(c, w.s, gone);
    var n := NextRedelivery(c, w.s, gone);
    if n.msg.Some? {
      AgainReleased(c, w.s, n, waiter, k);
      assert NextMsg(c, w.s, w.st) == n;
    } else {
      FreshReleased(c, w.s, n.state, w.st, waiter, k);
      assert NextMsg(c, w.s, w.st) == FreshMsg(c, n.state, w.st);
    }
  }

  lemma StepReleased(c: Config, w: World, e: Event, k: nat)
    requires Sane(c, w) && Enabled(ANY, w, e) && Released(w.s, k)
    ensures Released(Step(c, w, e).s, k)
  {
    match e {
      case NextTurn(waiter) => TurnReleased(c, w, waiter, k);
      case Ack(j, d, order) => AckedBasic(c, w.s, j, d, order);
      case Expire(order, first, due) => CheckPendingBasic(c, w.s, order, first, due);
      case PurgeTo(first, gone, order) => PurgeBasic(w.s, first, gone, order);
      case _ =>
    }
  }

  lemma {:induction false} RunReleased(c: Config, w: World, es: seq<Event>, k: nat)
    requires Sane(c, w) && Possible(c, ANY, w, es) && Released(w.s, k)
    ensures Released(Run(c, w, es).s, k)
    decreases |es|
  {
    if es != [] {
      StepReleased(c, w, es[0], k);
      StepSane(c, ANY, w, es[0]);
      RunReleased(c, Step(c, w, es[0]), es[1..], k);
    }
  }

  /** An acknowledgement of a delivered message releases it: the stream is told to let it go, then and whatever happens after. */
  lemma AckReleases(c: Config, w: World, k: nat, d: nat, order: seq<nat>, es: seq<Event>)
    requires c.policy.AckExplicit? && Reachable(c, ANY, w) && k < w.s.sseq && Enabled(ANY, w, Ack(k, d, order))
    requires Possible(c, ANY, Step(c, w, Ack(k, d, order)), es)
    ensures var r := Step(c, w, Ack(k, d, order)); !NeedAck(c, r.s, k) && !NeedAck(c, Run(c, r, es).s, k)
  {
    ReachableSane(c, ANY, w);
    StepSane(c, ANY, w, Ack(k, d, order));
    var r := Step(c, w, Ack(k, d, order));
    AckOneFrame(w.s, k);
    RunReleased(c, r, es, k);
  }

  /** So does the removal of a delivered message from the stream, if it is not pending. */
  lemma RemovalReleases(c: Config, w: World, k: nat, es: seq<Event>)
    requires c.policy.AckExplicit? && Reachable(c, ANY, w) && k < w.s.sseq && k !in w.s.pending
    requires Possible(c, ANY, Step(c, w, Remove(k)), es)
    ensures var r := Step(c, w, Remove(k)); !NeedAck(c, r.s, k) && !NeedAck(c, Run(c, r, es).s, k)
  {
    ReachableSane(c, ANY, w);
    StepSane(c, ANY, w, Remove(k));
    RunReleased(c, Step(c, w, Remove(k)), es, k);
  }
}
