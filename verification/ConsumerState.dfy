/** The delivery state of a JetStream consumer and what each step does to it (server/consumer.go).

A step is a function from state to state.  The order in which Go walks a map is a
parameter of the step, so that a property of every step holds for every order.
Timestamps and timers are not part of the state: the entries whose ack wait has
run out are a parameter of the expiry step.
 */
module ConsumerState {
  import opened Basics

  type Positive = n: nat | n >= 1 witness 1

  datatype Policy = AckExplicit | AckAll

  /** `maxDeliver` and `maxPending` are unlimited when zero. */
  datatype Config = Config(policy: Policy, maxDeliver: nat, maxPending: nat)

  /** `sseq`, `dseq`: next stream and delivery sequence.  `asflr`, `adflr`: the ack floors.
      `pending` maps an unsettled stream sequence to the delivery sequence it was first given.
      `rdq` is the redelivery queue and `rdqi` its index; `rdc` counts redeliveries.
   */
  datatype State = State(
    sseq: Positive, dseq: Positive, adflr: nat, asflr: nat,
    pending: map<nat, nat>, rdq: seq<nat>, rdqi: set<nat>, rdc: map<nat, nat>)

  function Init(start: Positive): State {
    State(start, 1, 0, start - 1, map[], [], {}, map[])
  }

  // Redelivery queue.

  function IndexOf(q: seq<nat>, k: nat): (i: nat)
    ensures i <= |q|
    ensures k !in q[..i]
    ensures i < |q| ==> q[i] == k
  {
    if q == [] then 0
    else if q[0] == k then 0
    else
      var i := IndexOf(q[1..], k);
      assert q[..i + 1] == [q[0]] + q[1..][..i];
      i + 1
  }

  function RemoveQueued(s: State, k: nat): (r: State)
    ensures r == s.(rdq := r.rdq, rdqi := r.rdqi) && |r.rdq| <= |s.rdq|
  {
    if k !in s.rdqi then s
    else
      var i := IndexOf(s.rdq, k);
      if i == |s.rdq| then s
      else if |s.rdq| == 1 then s.(rdq := [], rdqi := {})
      else s.(rdq := s.rdq[..i] + s.rdq[i + 1..], rdqi := s.rdqi - {k})
  }

  function Enqueue(s: State, ks: seq<nat>): State {
    s.(rdq := s.rdq + ks, rdqi := s.rdqi + set k | k in ks)
  }

  // Ack floors.

  function FirstPending(pending: map<nat, nat>, from: nat, limit: nat): (r: Option<nat>)
    ensures r.Some? ==> from <= r.value < limit && r.value in pending
    ensures forall k :: from <= k < (if r.Some? then r.value else limit) ==> k !in pending
    decreases limit - from
  {
    if from >= limit then None
    else if from in pending then Some(from)
    else FirstPending(pending, from + 1, limit)
  }

  /** `d` and `k` are the delivery and stream sequence of an entry just taken out of pending. */
  function MoveAckFloor(s: State, d: nat, k: nat): (r: State)
    ensures r == s.(adflr := r.adflr, asflr := r.asflr)
  {
    if s.pending == map[] then s.(adflr := s.dseq - 1, asflr := s.sseq - 1)
    else if d == s.adflr + 1 then
      match FirstPending(s.pending, k + 1, s.sseq)
      case None => s.(adflr := d, asflr := k)
      case Some(n) =>
        if s.pending[n] > 0 then s.(adflr := s.pending[n] - 1, asflr := n - 1)
        else s.(adflr := d, asflr := k)
    else s
  }

  /** Takes `k` out of pending, if it is there, and moves the floors. */
  function TakePending(s: State, k: nat): (r: State)
    ensures r == s.(pending := s.pending - {k}, adflr := r.adflr, asflr := r.asflr)
  {
    if k in s.pending then MoveAckFloor(s.(pending := s.pending - {k}), s.pending[k], k) else s
  }

  /** Acknowledgement or termination of `k` under AckExplicit. */
  function AckOne(s: State, k: nat): State {
    if k >= s.sseq then s
    else
      var s1 := TakePending(s, k);
      RemoveQueued(s1.(rdc := s1.rdc - {k}), k)
  }

  // AckAll settles every sequence up to `k`, by one of two walks.

  function Forget(s: State, k: nat): State {
    RemoveQueued(s.(pending := s.pending - {k}, rdc := s.rdc - {k}), k)
  }

  /** Walk over the pending map, in the order given. */
  function ForgetEach(s: State, k: nat, order: seq<nat>): (r: State)
    ensures |r.rdq| <= |s.rdq|
    decreases |order|
  {
    if order == [] then s
    else ForgetEach(if order[0] <= k then Forget(s, order[0]) else s, k, order[1..])
  }

  /** Walk down the sequence range `(low, high]`, stopping once nothing is pending. */
  function ForgetDown(s: State, high: nat, low: nat): (r: State)
    ensures |r.rdq| <= |s.rdq|
    decreases high
  {
    if high > low && s.pending != map[] then ForgetDown(Forget(s, high), high - 1, low) else s
  }

  function AckUpTo(s: State, k: nat, d: nat, order: seq<nat>): State {
    if k >= s.sseq || d <= s.adflr || k <= s.asflr then s
    else
      var s1 := s.(adflr := d, asflr := k);
      if k - s.asflr > |s.pending| then ForgetEach(s1, k, order) else ForgetDown(s1, k, s.asflr)
  }

  /** The pending keys up to `k`, in ascending order. */
  function KeysUpTo(pending: map<nat, nat>, k: nat): seq<nat> {
    (if k == 0 then [] else KeysUpTo(pending, k - 1)) + if k in pending then [k] else []
  }

  /** An acknowledgement or termination of message `k` that carries delivery sequence `d`. */
  function Acked(c: Config, s: State, k: nat, d: nat, order: seq<nat>): State {
    match c.policy
    case AckExplicit => AckOne(s, k)
    case AckAll => AckUpTo(s, k, d, order)
  }

  /** Settles a pending message that the stream no longer holds, as an acknowledgement of its delivery would.
      The order in which a walk visits the entries makes no difference.
   */
  function Settle(c: Config, s: State, k: nat): State
    requires k in s.pending
  {
    Acked(c, s, k, s.pending[k], KeysUpTo(s.pending, k))
  }

  /** The stream removed `k`; if it was pending, it is settled later. */
  function Removed(s: State, k: nat): State {
    if k in s.pending then s else s.(rdc := s.rdc - {k})
  }

  function Nak(s: State, k: nat, d: nat, delayed: bool): State {
    if d <= s.adflr || d > s.dseq || k !in s.pending then s
    else if delayed then RemoveQueued(s, k)
    else if k in s.rdqi then s
    else Enqueue(s, [k])
  }

  // Delivery counts.

  function Redeliveries(s: State, k: nat): nat { if k in s.rdc then s.rdc[k] else 0 }

  /** A count in the source is an unsigned 64-bit number. */
  function Decrement(n: nat): nat { if n == 0 then 0xFFFF_FFFF_FFFF_FFFF else n - 1 }

  function DeliveryCount(s: State, k: nat): nat {
    if Redeliveries(s, k) >= 1 then Redeliveries(s, k) else 1
  }

  /** Whether `k` has used up its deliveries, and the state after the cleanup that goes with it. */
  function HasMaxDeliveries(c: Config, s: State, k: nat): (bool, State) {
    if c.maxDeliver == 0 || DeliveryCount(s, k) < c.maxDeliver then (false, s)
    else
      var dc := DeliveryCount(s, k);
      var s1 := TakePending(s, k);
      (true, s1.(rdc := s1.rdc[k := dc]))
  }

  // Expiry.

  /** Insertion into an ascending sequence. */
  function Insert(q: seq<nat>, k: nat): seq<nat> {
    if q == [] || k <= q[0] then [k] + q else [q[0]] + Insert(q[1..], k)
  }

  /** The elements of `q` in ascending order. */
  function Sorted(q: seq<nat>): seq<nat> {
    if q == [] then [] else Insert(Sorted(q[..|q| - 1]), q[|q| - 1])
  }

  function Max(a: nat, b: nat): nat { if a < b then b else a }

  /** One entry of the pass over pending: `expired` gathers, in order, what is to be queued. */
  function CheckOne(c: Config, s: State, expired: seq<nat>, k: nat, first: nat, due: set<nat>): (State, seq<nat>) {
    if k !in s.pending then (s, expired)
    else if k < first || k <= s.asflr then
      var s1 := Forget(s, k);
      (s1.(asflr := Max(s.asflr, k), adflr := Max(s.adflr, s.pending[k])), expired)
    else if k in due && k !in s.rdqi then
      var (hit, s1) := HasMaxDeliveries(c, s, k);
      (s1, if hit then expired else Insert(expired, k))
    else (s, expired)
  }

  function CheckEach(c: Config, s: State, expired: seq<nat>, order: seq<nat>, first: nat, due: set<nat>): (State, seq<nat>)
    decreases |order|
  {
    if order == [] then (s, expired)
    else
      var (s1, e1) := CheckOne(c, s, expired, order[0], first, due);
      CheckEach(c, s1, e1, order[1..], first, due)
  }

  /** The pass over pending; `first` is the first sequence the stream still holds. */
  function CheckPending(c: Config, s: State, order: seq<nat>, first: nat, due: set<nat>): State {
    var (s1, expired) := CheckEach(c, s, [], order, first, due);
    CheckEnd(Enqueue(s1, expired))
  }

  function CheckEnd(s: State): State {
    if s.pending != map[] then s
    else s.(rdq := [], rdqi := {}, adflr := s.dseq - 1, asflr := s.sseq - 1)
  }

  // Delivery.

  /** A message picked for delivery and its delivery count. */
  datatype Msg = Msg(key: nat, dc: nat)

  datatype Next = Next(state: State, msg: Option<Msg>)

  /** Taking the head off a non-empty queue. */
  function Popped(s: State): State
    requires s.rdq != []
  {
    s.(rdq := s.rdq[1..], rdqi := if |s.rdq| == 1 then {} else s.rdqi - {s.rdq[0]})
  }

  /** One try at the redelivery queue: its head is dropped if past its delivery limit,
      settled if in `gone`, which the stream no longer holds, and else picked.
   */
  function RedeliverHead(c: Config, s: State, gone: set<nat>): (n: Next)
    requires s.rdq != []
    ensures |n.state.rdq| < |s.rdq|
  {
    var k := s.rdq[0];
    var dc := Redeliveries(s, k) + 2;
    var s1 := Popped(s).(rdc := s.rdc[k := dc - 1]);
    if c.maxDeliver > 0 && dc > c.maxDeliver then Next(TakePending(s1, k), None)
    else if k in gone then
      var s2 := s1.(rdc := s1.rdc[k := Decrement(dc - 1)]);
      Next(if k in s2.pending then Settle(c, s2, k) else s2, None)
    else Next(s1, Some(Msg(k, dc)))
  }

  function NextRedelivery(c: Config, s: State, gone: set<nat>): Next
    decreases |s.rdq|
  {
    if s.rdq == [] then Next(s, None)
    else
      var n := RedeliverHead(c, s, gone);
      if n.msg.Some? then n else NextRedelivery(c, n.state, gone)
  }

  /** The messages of the stream that match the consumer's filter; `last` is the stream's last sequence. */
  datatype Store = Store(live: set<nat>, last: nat)

  function FirstLive(live: set<nat>, from: nat, limit: nat): (r: Option<nat>)
    ensures r.Some? ==> from <= r.value < limit && r.value in live
    ensures forall k :: from <= k < (if r.Some? then r.value else limit) ==> k !in live
    decreases limit - from
  {
    if from >= limit then None
    else if from in live then Some(from)
    else FirstLive(live, from + 1, limit)
  }

  /** The next live match, unless too much is pending; the cursor moves past what it skips. */
  function FreshMsg(c: Config, s: State, st: Store): Next {
    if c.maxPending > 0 && |s.pending| >= c.maxPending then Next(s, None)
    else
      match FirstLive(st.live, s.sseq, st.last + 1)
      case Some(k) => Next(s.(sseq := k + 1), Some(Msg(k, 1)))
      case None => Next(if st.last >= s.sseq then s.(sseq := st.last + 1) else s, None)
  }

  /** The next message to hand out: a redelivery if one is queued, else a fresh one. */
  function NextMsg(c: Config, s: State, st: Store): Next {
    var n := NextRedelivery(c, s, (set k | k in s.rdqi && k !in st.live));
    if n.msg.Some? then n else FreshMsg(c, n.state, st)
  }

  /** Hands message `k` out: it takes the next delivery sequence, and keeps its first one if already pending. */
  function Deliver(s: State, k: nat): State {
    s.(dseq := s.dseq + 1, pending := if k in s.pending then s.pending else s.pending[k := s.dseq])
  }

  /** Puts a message back when no request is waiting for it. */
  function PutBack(s: State, m: Msg): State {
    if m.dc == 1 && m.key == s.sseq - 1 && s.sseq > 1 then s.(sseq := s.sseq - 1)
    else if m.key in s.rdqi then s
    else Enqueue(s.(rdc := s.rdc[m.key := Decrement(Redeliveries(s, m.key))]), [m.key])
  }

  // Purge.

  /** A purge drops pending message `k`: it lies below the new floor, or the stream no longer holds it. */
  predicate Drops(s: State, gone: set<nat>, k: nat) { k <= s.asflr || k in gone }

  function PurgeOne(s: State, gone: set<nat>, k: nat): State {
    if k in s.pending && Drops(s, gone, k) then
      var d := Max(s.adflr, s.pending[k]);
      s.(adflr := d, dseq := Max(s.dseq, d), pending := s.pending - {k}, rdc := s.rdc - {k})
    else s
  }

  function PurgeEach(s: State, gone: set<nat>, order: seq<nat>): State
    decreases |order|
  {
    if order == [] then s else PurgeEach(PurgeOne(s, gone, order[0]), gone, order[1..])
  }

  /** The stream was purged: `first` is its first sequence now.  Where the purge was of a subject narrower than the
      filter of the consumer, `gone` is what else is pending that the stream no longer holds.
   */
  function Purge(s: State, first: nat, gone: set<nat>, order: seq<nat>): State {
    var s1 := s.(sseq := Max(s.sseq, first));
    PurgeEnd(if s1.asflr < first then PurgeEach(s1.(asflr := first - 1), gone, order) else s1)
  }

  function PurgeEnd(s: State): State {
    var s1 := if s.pending == map[] then s.(rdc := map[], adflr := s.dseq - 1, asflr := s.sseq - 1) else s;
    if s1.rdq == [] then s1
    else
      var kept := Filter(s1.rdq, s1.sseq);
      s1.(rdq := kept, rdqi := set k | k in kept)
  }

  /** The entries of `q` that are at least `low`. */
  function Filter(q: seq<nat>, low: nat): (r: seq<nat>)
    ensures forall k :: k in r <==> k in q && k >= low
  {
    if q == [] then [] else (if q[0] >= low then [q[0]] else []) + Filter(q[1..], low)
  }

  // Interest.

  /** Whether the stream must keep message `k`, which matches the filter, for this consumer. */
  predicate NeedAck(c: Config, s: State, k: nat) {
    || (k > s.asflr && (c.policy.AckAll? || k >= s.sseq || k in s.pending))
    || k in s.rdc
  }

  /** What a consumer stores of its state: the last stream sequence delivered, the stream floor, and the two maps. */
  datatype Saved = Saved(delivered: nat, floor: nat, pending: map<nat, nat>, redelivered: map<nat, nat>)

  function Save(s: State): Saved { Saved(s.sseq - 1, s.asflr, s.pending, s.rdc) }

  /** Who is asked: the leader, or a follower that has no store, cannot read it, or reads this. */
  datatype Asked = Leader | NoStore | Unreadable | Follower(saved: Saved)
}
