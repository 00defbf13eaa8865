/** What a turn of the delivery loop does with the redelivery queue: nothing is lost, and what is queued goes first. */
module ConsumerTurns {
  import opened Basics
  import opened ConsumerState
  import opened ConsumerSafety
  import opened ConsumerAckAll
  import opened ConsumerMachine
  import opened ConsumerAccounts
  import Expiry = ConsumerExpiry
  import Runs = ConsumerRuns

  /** One more delivery stays within the limit. */
  predicate InLimit(c: Config, s: State, k: nat) { c.maxDeliver == 0 || Redeliveries(s, k) + 1 < c.maxDeliver }

  /** `j` stands before `h` in the queue. */
  ghost predicate Precedes(q: seq<nat>, j: nat, h: nat) {
    exists a, b :: 0 <= a < b < |q| && q[a] == j && q[b] == h
  }

  lemma {:induction false} WithoutOrder(q: seq<nat>, gone: set<nat>, j: nat, h: nat)
    requires Precedes(q, j, h) && j !in gone && h !in gone
    ensures Precedes(Without(q, gone), j, h)
  {
    var a, b :| 0 <= a < b < |q| && q[a] == j && q[b] == h;
    var rest := Without(q[1..], gone);
    if a == 0 {
      assert q[1..][b - 1] == h && h in rest;
      var i :| 0 <= i < |rest| && rest[i] == h;
      assert ([j] + rest)[0] == j && ([j] + rest)[i + 1] == h;
    } else {
      assert q[1..][a - 1] == j && q[1..][b - 1] == h;
      WithoutOrder(q[1..], gone, j, h);
      var x, y :| 0 <= x < y < |rest| && rest[x] == j && rest[y] == h;
      var all := Without(q, gone);
      assert q[0] !in gone ==> all[x + 1] == j && all[y + 1] == h;
    }
  }

  // The head.

  /** An acknowledgement takes out of the queue only what it takes out of pending. */
  lemma AckLeaves(c: Config, s: State, k: nat) returns (lost: set<nat>)
    requires Basic(s) && k in s.pending && k !in s.rdq
    ensures var r := Settle(c, s, k);
            && r.rdq == Without(s.rdq, lost) && r.dseq == s.dseq
            && (forall j :: j in lost ==> j !in r.pending)
            && (c.policy.AckExplicit? ==> r.pending == s.pending - {k})
            && (c.policy.AckAll? ==> (k in r.pending <==> k <= s.asflr || s.pending[k] <= s.adflr))
  {
    lost := {};
    WithoutNone(s.rdq, {});
    if c.policy.AckAll? {
      var d, order := s.pending[k], KeysUpTo(s.pending, k);
      KeysUpToVisits(s, k);
      if d > s.adflr && k > s.asflr {
        var s1 := s.(adflr := d, asflr := k);
        if k - s.asflr > |s.pending| {
          MapWalk(s1, k, order);
          lost := UpTo(order, k);
        } else {
          RangeWalk(s1, k, s.asflr);
          ReachedStep(s1.pending, k, s.asflr);
          lost := Reached(s1.pending, k, s.asflr);
        }
      }
    }
  }

  /** The state in which a head that the stream no longer holds is settled. */
  function AtGone(s: State): State
    requires s.rdq != []
  {
    Popped(s).(rdc := s.rdc[s.rdq[0] := Redeliveries(s, s.rdq[0])])
  }

  lemma HeadCases(c: Config, s: State, gone: set<nat>)
    requires Basic(s) && s.rdq != []
    ensures var n, k := RedeliverHead(c, s, gone), s.rdq[0];
            && Basic(AtGone(s)) && k in AtGone(s).pending && k !in AtGone(s).rdq
            && if !InLimit(c, s, k) then n.msg.None? && n.state.rdq == s.rdq[1..] && n.state.pending == s.pending - {k} && n.state.dseq == s.dseq
               else if k in gone then n == Next(Settle(c, AtGone(s), k), None)
               else n.msg.Some? && n.msg.value.key == k && n.state.rdq == s.rdq[1..] && n.state.dseq == s.dseq
  {
    var k := s.rdq[0];
    var d := Redeliveries(s, k);
    PoppedBasic(s, d);
    assert k in Popped(s).pending;
    assert s.rdc[k := d + 1][k := d] == s.rdc[k := d];
  }

  /** The head is picked exactly if the stream still holds it and its limit allows one more delivery.  Else it is settled
      or dropped, and with it go from the queue only entries that are no longer pending.
   */
  lemma HeadLeaves(c: Config, s: State, gone: set<nat>) returns (lost: set<nat>)
    requires Basic(s) && s.rdq != []
    ensures var n, k := RedeliverHead(c, s, gone), s.rdq[0];
            && n.state.rdq == Without(s.rdq[1..], lost) && n.state.dseq == s.dseq
            && (forall j :: j in lost ==> j !in n.state.pending)
            && (n.msg.Some? <==> k !in gone && InLimit(c, s, k))
            && (n.msg.Some? ==> n.msg.value.key == k)
            && (n.msg.None? && (c.policy.AckExplicit? || k !in gone) ==> n.state.pending == s.pending - {k})
  {
    lost := {};
    WithoutNone(s.rdq[1..], {});
    HeadCases(c, s, gone);
    if InLimit(c, s, s.rdq[0]) && s.rdq[0] in gone {
      lost := AckLeaves(c, AtGone(s), s.rdq[0]);
    }
  }

  /** Under AckAll an entry the stream no longer holds leaves the queue unsettled exactly if it lies at or below a floor. */
  lemma HeadStuck(c: Config, s: State, gone: set<nat>)
    requires Basic(s) && s.rdq != [] && c.policy.AckAll?
    ensures var n, k := RedeliverHead(c, s, gone), s.rdq[0];
            n.msg.None? && k in n.state.pending <==> k in gone && InLimit(c, s, k) && (k <= s.asflr || s.pending[k] <= s.adflr)
  {
    HeadCases(c, s, gone);
    if InLimit(c, s, s.rdq[0]) && s.rdq[0] in gone {
      var lost := AckLeaves(c, AtGone(s), s.rdq[0]);
    }
  }

  // The whole queue.

  /** What the picks leave of `s`: an entry that stays pending stays queued, unless it is picked or the stream no longer holds
      it; and an entry that may be delivered and stays pending has none before it passed over.
   */
  ghost predicate Leaves(c: Config, s: State, gone: set<nat>, n: Next) {
    && (n.msg.Some? ==> n.msg.value.key in s.rdq && n.msg.value.key !in gone)
    && (n.msg.None? ==> n.state.rdq == []) && n.state.dseq == s.dseq
    && (forall j :: j in s.rdq && j in n.state.pending && (c.policy.AckExplicit? || j !in gone) ==>
          j in n.state.rdq || (n.msg.Some? && j == n.msg.value.key))
    && (forall j :: j in s.rdq && j in n.state.pending && j !in gone && InLimit(c, s, j) ==>
          n.msg.Some? && !Precedes(s.rdq, j, n.msg.value.key))
  }

  lemma HeadPicked(c: Config, s: State, gone: set<nat>)
    requires Basic(s) && s.rdq != [] && RedeliverHead(c, s, gone).msg.Some?
    ensures Leaves(c, s, gone, RedeliverHead(c, s, gone))
  {
    var n, k := RedeliverHead(c, s, gone), s.rdq[0];
    var lost := HeadLeaves(c, s, gone);
    assert s.rdq == [k] + s.rdq[1..];
    assert forall j :: !Precedes(s.rdq, j, k);
  }

  /** The head is taken off, and `m` is left. */
  ghost predicate HeadOff(s: State, m: State, lost: set<nat>) {
    && Queued(s) && s.rdq != [] && Shrinks(s, m, {}) && m.dseq == s.dseq
    && m.rdq == Without(s.rdq[1..], lost) && forall j :: j in lost ==> j !in m.pending
  }

  lemma OffOrder(s: State, m: State, lost: set<nat>, j: nat, h: nat)
    requires HeadOff(s, m, lost) && j in m.pending && h in m.pending && j != s.rdq[0] && Precedes(s.rdq, j, h)
    ensures Precedes(m.rdq, j, h)
  {
    var a, b :| 0 <= a < b < |s.rdq| && s.rdq[a] == j && s.rdq[b] == h;
    assert s.rdq[1..][a - 1] == j && s.rdq[1..][b - 1] == h;
    WithoutOrder(s.rdq[1..], lost, j, h);
  }

  /** The head is not picked, which leaves `m`, and the rest of the queue leaves `n`. */
  lemma HeadPassed(c: Config, s: State, gone: set<nat>, m: State, n: Next, lost: set<nat>)
    requires HeadOff(s, m, lost) && Leaves(c, m, gone, n)
    requires forall j :: j in n.state.pending ==> j in m.pending
    requires n.msg.Some? ==> n.msg.value.key in n.state.pending
    requires s.rdq[0] in gone || !InLimit(c, s, s.rdq[0])
    requires s.rdq[0] in m.pending ==> c.policy.AckAll? && s.rdq[0] in gone
    ensures Leaves(c, s, gone, n)
  {
    assert s.rdq == [s.rdq[0]] + s.rdq[1..];
    forall j | j in s.rdq && j in n.state.pending && j !in gone && InLimit(c, s, j)
      ensures n.msg.Some? && !Precedes(s.rdq, j, n.msg.value.key)
    {
      assert j in m.rdq && InLimit(c, m, j);
      if Precedes(s.rdq, j, n.msg.value.key) {
        OffOrder(s, m, lost, j, n.msg.value.key);
        assert false;
      }
    }
  }

  lemma {:induction false} QueueLeaves(c: Config, s: State, gone: set<nat>)
    requires Basic(s)
    ensures Leaves(c, s, gone, NextRedelivery(c, s, gone))
    decreases |s.rdq|
  {
    if s.rdq != [] {
      var m := RedeliverHead(c, s, gone);
      if m.msg.Some? {
        HeadPicked(c, s, gone);
      } else {
        RedeliverHeadBasic(c, s, gone);
        RedeliveryBasic(c, m.state, gone);
        QueueLeaves(c, m.state, gone);
        var lost := HeadLeaves(c, s, gone);
        HeadPassed(c, s, gone, m.state, NextRedelivery(c, m.state, gone), lost);
      }
    }
  }

  lemma {:induction false} WithoutIndex(q: seq<nat>, gone: set<nat>, k: nat)
    requires k !in gone && k in q
    ensures IndexOf(Without(q, gone), k) <= IndexOf(q, k)
  {
    if q[0] != k {
      assert k in q[1..] && Without(q, gone) == (if q[0] in gone then [] else [q[0]]) + Without(q[1..], gone);
      WithoutIndex(q[1..], gone, k);
      assert q[0] !in gone ==> Without(q, gone)[1..] == Without(q[1..], gone);
    }
  }

  /** An entry that may be delivered again, in a queue no longer than `places` before it. */
  ghost predicate Waits(c: Config, s: State, gone: set<nat>, k: nat, places: nat) {
    Basic(s) && k in s.rdq && k !in gone && InLimit(c, s, k) && IndexOf(s.rdq, k) <= places
  }

  lemma BehindHead(q: seq<nat>, k: nat)
    requires q != [] && q[0] != k && k in q
    ensures k in q[1..] && IndexOf(q, k) == IndexOf(q[1..], k) + 1
  {
    assert q == [q[0]] + q[1..];
  }

  lemma HeadStays(c: Config, s: State, gone: set<nat>, k: nat)
    requires c.policy.AckExplicit? && Basic(s) && s.rdq != [] && k in s.rdq && s.rdq[0] != k && InLimit(c, s, k)
    ensures var m := RedeliverHead(c, s, gone).state; Basic(m) && k in m.pending && InLimit(c, m, k)
  {
    RedeliverHeadBasic(c, s, gone);
    var lost := HeadLeaves(c, s, gone);
    HeadCases(c, s, gone);
  }

  lemma HeadNearer(c: Config, s: State, gone: set<nat>, k: nat, places: nat)
    requires c.policy.AckExplicit? && Waits(c, s, gone, k, places) && s.rdq[0] != k
    ensures places > 0 && Waits(c, RedeliverHead(c, s, gone).state, gone, k, places - 1)
  {
    HeadStays(c, s, gone, k);
    var lost := HeadLeaves(c, s, gone);
    BehindHead(s.rdq, k);
    WithoutIndex(s.rdq[1..], lost, k);
  }

  ghost predicate Nearer(c: Config, gone: set<nat>, k: nat, places: nat, n: Next) {
    n.msg.Some? && (n.msg.value.key == k || (places > 0 && Waits(c, n.state, gone, k, places - 1)))
  }

  /** Under AckExplicit an entry that may be delivered again is picked, or comes nearer to the head. */
  lemma {:induction false} ComesNearer(c: Config, s: State, gone: set<nat>, k: nat, places: nat)
    requires c.policy.AckExplicit? && Waits(c, s, gone, k, places)
    ensures Nearer(c, gone, k, places, NextRedelivery(c, s, gone))
    decreases |s.rdq|
  {
    var m := RedeliverHead(c, s, gone);
    if s.rdq[0] == k {
      HeadCases(c, s, gone);
    } else {
      HeadNearer(c, s, gone, k, places);
      if m.msg.None? {
        ComesNearer(c, m.state, gone, k, places - 1);
        assert NextRedelivery(c, s, gone) == NextRedelivery(c, m.state, gone);
      }
    }
  }

  // Turns.

  /** `h` was queued, and is handed out once more. */
  predicate HandedAgain(s: State, st: Store, r: State, h: nat) {
    h in s.rdq && h in st.live && h in r.pending && h !in r.rdq && Redeliveries(r, h) == Redeliveries(s, h) + 1
  }

  /** The turn handed out a queued message and nothing else: no fresh one was taken from the stream. */
  predicate OnlyAgain(s: State, r: State) {
    r.sseq == s.sseq && r.dseq == s.dseq + 1 && forall j :: j in r.pending ==> j in s.pending
  }

  lemma AgainLosesNone(c: Config, s: State, st: Store, n: Next, waiter: bool, k: nat)
    requires Basic(s) && k in s.rdq && (c.policy.AckExplicit? || k in st.live) && n.msg.Some? && Basic(n.state)
    requires Ready(n) && CountsPick(c, s, n) && Leaves(c, s, (set j | j in s.rdqi && j !in st.live), n)
    ensures var r := HandOut(n, waiter);
            k in r.pending ==> k in r.rdq || (waiter && HandedAgain(s, st, r, k) && OnlyAgain(s, r))
  {
  }

  lemma FreshIsOther(c: Config, s: State, m: State, st: Store, waiter: bool, k: nat)
    requires Basic(s) && k in s.rdq && Shrinks(s, m, {}) && k !in m.pending
    ensures k !in HandOut(FreshMsg(c, m, st), waiter).pending
  {
  }

  /** No entry is lost: one that is queued, and pending after the turn, is still queued; or a request was waiting and got it. */
  lemma TurnLosesNone(c: Config, s: State, st: Store, waiter: bool, k: nat)
    requires Basic(s) && k in s.rdq && (c.policy.AckExplicit? || k in st.live)
    ensures var r := DeliverNext(c, s, st, waiter);
            k in r.pending ==> k in r.rdq || (waiter && HandedAgain(s, st, r, k) && OnlyAgain(s, r))
  {
    var gone := set j | j in s.rdqi && j !in st.live;
    var n := NextRedelivery(c, s, gone);
    RedeliveryBasic(c, s, gone);
    QueueLeaves(c, s, gone);
    if n.msg.Some? {
      AgainLosesNone(c, s, st, n, waiter, k);
      assert NextMsg(c, s, st) == n;
    } else {
      FreshIsOther(c, s, n.state, st, waiter, k);
      assert NextMsg(c, s, st) == FreshMsg(c, n.state, st);
    }
  }

  /** What is queued goes first: while a queued message may be delivered again, a request that waits gets a queued message,
      and one that no such message stands before.
   */
  lemma QueuedFirst(c: Config, s: State, st: Store, k: nat)
    requires Basic(s) && k in s.rdq && k in st.live && InLimit(c, s, k)
    requires c.policy.AckExplicit? || k in DeliverNext(c, s, st, true).pending
    ensures var r := DeliverNext(c, s, st, true);
            OnlyAgain(s, r) && exists h :: HandedAgain(s, st, r, h) && !Precedes(s.rdq, k, h)
  {
    var gone := set k | k in s.rdqi && k !in st.live;
    var n := NextRedelivery(c, s, gone);
    RedeliveryBasic(c, s, gone);
    QueueLeaves(c, s, gone);
    if c.policy.AckExplicit? {
      ComesNearer(c, s, gone, k, IndexOf(s.rdq, k));
    }
    assert n.msg.None? ==> NextMsg(c, s, st) == FreshMsg(c, n.state, st);
    assert n.msg.Some? ==> NextMsg(c, s, st) == n;
    assert HandedAgain(s, st, DeliverNext(c, s, st, true), n.msg.value.key);
  }

  /** A request that waits goes without a message only if as much is pending as may be, or nothing is queued that may be
      delivered again and the stream has no message left for the consumer; the cursor is then past its end.
   */
  lemma NoneIdle(c: Config, s: State, st: Store)
    requires Basic(s) && DeliverNext(c, s, st, true).dseq == s.dseq
    ensures var r := DeliverNext(c, s, st, true);
            && r.rdq == []
            && ((c.maxPending > 0 && |r.pending| >= c.maxPending) ||
                (r.sseq > st.last && forall k :: k in st.live && k <= st.last ==> k < s.sseq))
  {
    var gone := set j | j in s.rdqi && j !in st.live;
    var n := NextRedelivery(c, s, gone);
    RedeliveryBasic(c, s, gone);
    QueueLeaves(c, s, gone);
    assert n.msg.None? ==> NextMsg(c, s, st) == FreshMsg(c, n.state, st);
  }

  // Waiting long enough.

  /** An entry that waits like this in a world whose stream holds the message. */
  ghost predicate Awaits(c: Config, w: World, k: nat, places: nat) {
    Sane(c, w) && k in w.s.rdq && k in w.st.live && InLimit(c, w.s, k) && IndexOf(w.s.rdq, k) <= places
  }

  lemma DeliverNearer(c: Config, n: Next, gone: set<nat>, k: nat, places: nat)
    requires Nearer(c, gone, k, places, n)
    ensures var r := HandOut(n, true);
            n.msg.value.key != k ==> places > 0 && k in r.rdq && InLimit(c, r, k) && IndexOf(r.rdq, k) <= places - 1
  {
  }

  lemma TurnComesNearer(c: Config, w: World, k: nat, places: nat)
    requires c.policy.AckExplicit? && Awaits(c, w, k, places)
    ensures var r := Turn(c, w, true);
            || Times(r.handed, k) == Times(w.handed, k) + 1
            || (places > 0 && Times(r.handed, k) == Times(w.handed, k) && Awaits(c, r, k, places - 1))
  {
    var gone := set j | j in w.s.rdqi && j !in w.st.live;
    var n := NextRedelivery(c, w.s, gone);
    ComesNearer(c, w.s, gone, k, places);
    assert NextMsg(c, w.s, w.st) == n;
    TurnSane(c, w, true);
    DeliverNearer(c, n, gone, k, places);
  }

  function Turns(n: nat): seq<Event> { seq(n, _ => NextTurn(true)) }

  lemma TurnsCons(c: Config, w: World, n: nat)
    ensures Run(c, w, Turns(n + 1)) == Run(c, Turn(c, w, true), Turns(n))
  {
    assert Turns(n + 1)[1..] == Turns(n);
  }

  /** `n` turns that find a request waiting hand the message out once more. */
  predicate HandedIn(c: Config, w: World, k: nat, n: nat) {
    Times(Run(c, w, Turns(n)).handed, k) == Times(w.handed, k) + 1
  }

  lemma HandedNow(c: Config, w: World, k: nat)
    requires Times(Turn(c, w, true).handed, k) == Times(w.handed, k) + 1
    ensures HandedIn(c, w, k, 1)
  {
    TurnsCons(c, w, 0);
  }

  lemma HandedLater(c: Config, w: World, r: World, k: nat, n: nat)
    requires r == Turn(c, w, true) && Times(r.handed, k) == Times(w.handed, k) && HandedIn(c, r, k, n)
    ensures HandedIn(c, w, k, n + 1)
  {
    TurnsCons(c, w, n);
  }

  /** After one turn the message was handed out, or it is one place nearer. */
  lemma TurnOn(c: Config, w: World, k: nat, places: nat) returns (now: bool, r: World)
    requires c.policy.AckExplicit? && Awaits(c, w, k, places)
    ensures now ==> HandedIn(c, w, k, 1)
    ensures !now ==> places > 0 && Awaits(c, r, k, places - 1) && forall n: nat :: HandedIn(c, r, k, n) ==> HandedIn(c, w, k, n + 1)
  {
    r := Turn(c, w, true);
    now := Times(r.handed, k) == Times(w.handed, k) + 1;
    TurnComesNearer(c, w, k, places);
    if now {
      HandedNow(c, w, k);
    } else {
      forall n: nat | HandedIn(c, r, k, n)
        ensures HandedIn(c, w, k, n + 1)
      {
        HandedLater(c, w, r, k, n);
      }
    }
  }

  /** A message that waits for redelivery at place `places` of the queue, that the stream still holds and whose limit allows
      it, is handed out once more within one turn more that finds a request waiting.
   */
  lemma {:induction false} HandedInTurn(c: Config, w: World, k: nat, places: nat) returns (n: nat)
    requires c.policy.AckExplicit? && Awaits(c, w, k, places)
    ensures n <= places + 1 && HandedIn(c, w, k, n)
    decreases places
  {
    var now, r := TurnOn(c, w, k, places);
    n := 1;
    if !now {
      var m := HandedInTurn(c, r, k, places - 1);
      n := m + 1;
    }
  }

  // Dropping.

  /** A try at the queue changes the record of its head only. */
  lemma HeadRecord(c: Config, s: State, gone: set<nat>, k: nat)
    requires Basic(s) && s.rdq != [] && c.policy.AckExplicit?
    ensures var n, h := RedeliverHead(c, s, gone), s.rdq[0];
            && (k != h ==> (k in n.state.rdc <==> k in s.rdc))
            && (!InLimit(c, s, h) ==> h in n.state.rdc)
  {
    HeadCases(c, s, gone);
    AckOneFrame(AtGone(s), s.rdq[0]);
  }

  lemma {:induction false} RecordStays(c: Config, s: State, gone: set<nat>, k: nat)
    requires Basic(s) && c.policy.AckExplicit? && k in s.rdc && k !in s.rdq
    ensures k in NextRedelivery(c, s, gone).state.rdc
    decreases |s.rdq|
  {
    if s.rdq != [] {
      var m := RedeliverHead(c, s, gone);
      HeadRecord(c, s, gone, k);
      if m.msg.None? {
        RedeliverHeadBasic(c, s, gone);
        var lost := HeadLeaves(c, s, gone);
        RecordStays(c, m.state, gone, k);
      }
    }
  }

  /** What the queue drops is gone from the stream, or past its limit and then on record. */
  lemma {:induction false} QueueDrops(c: Config, s: State, gone: set<nat>, k: nat)
    requires Basic(s) && c.policy.AckExplicit? && k in s.pending && k !in NextRedelivery(c, s, gone).state.pending
    ensures k in gone || (!InLimit(c, s, k) && k in NextRedelivery(c, s, gone).state.rdc)
    decreases |s.rdq|
  {
    if s.rdq != [] {
      var m := RedeliverHead(c, s, gone);
      RedeliverHeadBasic(c, s, gone);
      var lost := HeadLeaves(c, s, gone);
      HeadCases(c, s, gone);
      if m.msg.None? {
        if k != s.rdq[0] {
          QueueDrops(c, m.state, gone, k);
        } else if !InLimit(c, s, k) {
          HeadRecord(c, s, gone, k);
          RecordStays(c, m.state, gone, k);
        }
      }
    }
  }

  lemma HandOutKeeps(n: Next, waiter: bool, k: nat)
    ensures k in n.state.pending ==> k in HandOut(n, waiter).pending
    ensures k in n.state.rdc ==> k in HandOut(n, waiter).rdc
  {
  }

  lemma TurnDrops(c: Config, w: World, waiter: bool, k: nat)
    requires c.policy.AckExplicit? && Sane(c, w) && k in w.s.pending && k !in Turn(c, w, waiter).s.pending
    ensures k !in w.st.live || (c.maxDeliver > 0 && Times(w.handed, k) == c.maxDeliver && k in Turn(c, w, waiter).s.rdc)
  {
    var gone := set j | j in w.s.rdqi && j !in w.st.live;
    HandOutKeeps(NextMsg(c, w.s, w.st), waiter, k);
    QueueDrops(c, w.s, gone, k);
  }

  /** An unsettled delivery is dropped only when its message has been handed out as often as the limit allows, and then the
      stream is still told to keep it, or when the stream no longer holds it.
   */
  lemma DroppedWhenSpent(c: Config, w: World, e: Event, k: nat)
    requires c.policy.AckExplicit? && Reachable(c, Runs.BELOW, w) && Enabled(Runs.BELOW, w, e) && (e.NextTurn? || e.Expire?)
    requires k in w.s.pending && k !in Step(c, w, e).s.pending
    ensures || (c.maxDeliver > 0 && Times(w.handed, k) == c.maxDeliver && NeedAck(c, Step(c, w, e).s, k))
            || (e.NextTurn? && k !in w.st.live) || (e.Expire? && k < e.first)
  {
    Runs.ReachableGood(c, w);
    match e {
      case NextTurn(waiter) => TurnDrops(c, w, waiter, k);
      case Expire(order, first, due) =>
        Expiry.PassExactly(c, w.s, order, first, due, k);
        if k >= first {
          Expiry.SpentOnRecord(c, w.s, order, first, due, k);
        }
    }
  }
}
