/** A consumer and its stream as one machine, for both policies. */
module ConsumerMachine {
  import opened Basics
  import opened ConsumerState
  import opened ConsumerSafety
  import opened ConsumerPurge

  /** The consumer, the matching messages of its stream, how often each sequence was handed out, the message and delivery
      sequence of everything handed out, and the sequence the consumer started at.
   */
  datatype World = World(s: State, st: Store, handed: map<nat, nat>, given: set<(nat, nat)>, start: nat)

  /** An acknowledgement stands for a termination too. */
  datatype Event =
    | Publish(matches: bool)
    | Remove(key: nat)
    | NextTurn(waiter: bool)
    | Ack(key: nat, dseq: nat, order: seq<nat>)
    | NakMsg(key: nat, dseq: nat, delayed: bool)
    | Expire(order: seq<nat>, first: nat, due: set<nat>)
    | PurgeTo(first: nat, gone: set<nat>, order: seq<nat>)

  function Start(start: Positive, st: Store): World {
    World(Init(start), st, map[], {}, start)
  }

  function Times(handed: map<nat, nat>, k: nat): nat { if k in handed then handed[k] else 0 }

  /** The world after a pick `n` is handed out, which is recorded, or put back. */
  function After(w: World, n: Next, waiter: bool): World {
    w.(s := HandOut(n, waiter), handed := Record(n, waiter, w.handed), given := w.given + GivenBy(n, waiter))
  }

  /** A turn of the delivery loop. */
  function Turn(c: Config, w: World, waiter: bool): World { After(w, NextMsg(c, w.s, w.st), waiter) }

  function Record(n: Next, waiter: bool, handed: map<nat, nat>): map<nat, nat> {
    if n.msg.Some? && waiter then handed[n.msg.value.key := Times(handed, n.msg.value.key) + 1] else handed
  }

  function GivenBy(n: Next, waiter: bool): set<(nat, nat)> {
    if n.msg.Some? && waiter then {(n.msg.value.key, n.state.dseq)} else {}
  }

  function Step(c: Config, w: World, e: Event): World {
    match e
    case Publish(matches) =>
      var k := w.st.last + 1;
      w.(st := Store(if matches then w.st.live + {k} else w.st.live, k))
    case Remove(k) =>
      w.(st := w.st.(live := w.st.live - {k}), s := Removed(w.s, k))
    case NextTurn(waiter) => Turn(c, w, waiter)
    case Ack(k, d, order) => w.(s := Acked(c, w.s, k, d, order))
    case NakMsg(k, d, delayed) => w.(s := Nak(w.s, k, d, delayed))
    case Expire(order, first, due) => w.(s := CheckPending(c, w.s, order, first, due))
    case PurgeTo(first, gone, order) =>
      w.(s := Purge(w.s, first, gone, order), st := w.st.(live := set k | k in w.st.live && k >= first && k !in gone))
  }

  /** What a run may be held to: acknowledgements are `honest` when they carry a delivery sequence that was handed out for
      their message, and purges are from `below` when they drop no pending message above one that stays.
   */
  datatype Guard = Guard(honest: bool, below: bool)

  const ANY: Guard := Guard(false, false)

  /** What the environment grants: maps are walked once, and a purge ends within the stream. */
  ghost predicate Enabled(g: Guard, w: World, e: Event) {
    match e
    case Ack(k, d, order) => Walks(order, w.s) && (g.honest ==> (k, d) in w.given)
    case Expire(order, _, _) => Walks(order, w.s)
    case PurgeTo(first, gone, order) => Walks(order, w.s) && first <= w.st.last + 1 && (g.below ==> FromBelow(w.s, first, gone))
    case _ => true
  }

  function Run(c: Config, w: World, es: seq<Event>): World
    decreases |es|
  {
    if es == [] then w else Run(c, Step(c, w, es[0]), es[1..])
  }

  ghost predicate Possible(c: Config, g: Guard, w: World, es: seq<Event>)
    decreases |es|
  {
    es == [] || (Enabled(g, w, es[0]) && Possible(c, g, Step(c, w, es[0]), es[1..]))
  }

  lemma RunCons(c: Config, g: Guard, w: World, e: Event, es: seq<Event>)
    requires Enabled(g, w, e) && Possible(c, g, Step(c, w, e), es)
    ensures Possible(c, g, w, [e] + es) && Run(c, w, [e] + es) == Run(c, Step(c, w, e), es)
  {
    assert ([e] + es)[1..] == es;
  }

  lemma {:induction false} RunAppend(c: Config, g: Guard, w: World, es: seq<Event>, more: seq<Event>)
    requires Possible(c, g, w, es) && Possible(c, g, Run(c, w, es), more)
    ensures Possible(c, g, w, es + more) && Run(c, w, es + more) == Run(c, Run(c, w, es), more)
    decreases |es|
  {
    if es == [] {
      assert es + more == more;
    } else {
      RunAppend(c, g, Step(c, w, es[0]), es[1..], more);
      assert (es + more)[1..] == es[1..] + more;
    }
  }

  /** The run leads from a start at any sequence, over any stream, to `w`. */
  ghost predicate FromStart(c: Config, g: Guard, start: Positive, st: Store, es: seq<Event>, w: World) {
    && (forall k :: k in st.live ==> k <= st.last)
    && Possible(c, g, Start(start, st), es)
    && w == Run(c, Start(start, st), es)
  }

  ghost predicate Reachable(c: Config, g: Guard, w: World) {
    exists start: Positive, st: Store, es :: FromStart(c, g, start, st, es, w)
  }
}
