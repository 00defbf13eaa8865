/** When a consumer that settles everything up to a sequence leaves a message behind its floor. */
module ConsumerAckAllLimits {
  import opened Basics
  import opened ConsumerState
  import opened ConsumerSafety
  import opened ConsumerPurge
  import opened ConsumerAckAll
  import opened ConsumerMachine
  import opened ConsumerAccounts
  import opened ConsumerAckAllRuns

  /** Moving the floors for a dropped entry `k` keeps everything pending above the floor exactly when
      the floors do not move on `k`'s account, or nothing below `k` is pending.
   */
  lemma MoveKeepsAbove(s: State, d: nat, k: nat)
    requires Above(s) && k !in s.pending && s.asflr < k < s.sseq
    ensures Above(MoveAckFloor(s, d, k)) <==>
            s.pending == map[] || d != s.adflr + 1 || forall j :: j in s.pending ==> k < j
  {
  }

  /** Some run from `w` takes the floor past an unsettled entry. */
  ghost predicate CanStrand(c: Config, g: Guard, w: World) {
    exists es :: Possible(c, g, w, es) && !Above(Run(c, w, es).s)
  }

  /** `bad` has every world with an unsettled entry at or below the floor, and every world from which a step leads
      into it.
   */
  ghost predicate Stranding(c: Config, g: Guard, bad: iset<World>) {
    && (forall w: World {:trigger w in bad} :: !Above(w.s) ==> w in bad)
    && forall w: World, e {:trigger Step(c, w, e)} :: Enabled(g, w, e) && Step(c, w, e) in bad ==> w in bad
  }

  lemma StrandsBefore(c: Config, g: Guard, w: World, e: Event)
    requires Enabled(g, w, e) && CanStrand(c, g, Step(c, w, e))
    ensures CanStrand(c, g, w)
  {
    var r := Step(c, w, e);
    var es :| Possible(c, g, r, es) && !Above(Run(c, r, es).s);
    RunCons(c, g, w, e, es);
  }

  lemma CanStrandIs(c: Config, g: Guard)
    ensures Stranding(c, g, iset w | CanStrand(c, g, w))
  {
    forall w: World | !Above(w.s)
      ensures CanStrand(c, g, w)
    {
      assert Run(c, w, []) == w;
    }
    forall w, e | Enabled(g, w, e) && CanStrand(c, g, Step(c, w, e))
      ensures CanStrand(c, g, w)
    {
      StrandsBefore(c, g, w, e);
    }
  }

  // Turns over a stream of the three messages from `a` on.

  function Three(a: Positive): Store { Store({a, a + 1, a + 2}, a + 2) }

  /** A turn leads to state `r` and hands out message `k` with delivery sequence `d`. */
  ghost predicate Gives(c: Config, w: World, r: State, k: nat, d: nat) {
    var n := Step(c, w, NextTurn(true));
    n.s == r && n.st == w.st && n.given == w.given + {(k, d)}
  }

  lemma TurnFresh(c: Config, w: World)
    requires w.s.rdq == [] && (c.maxPending == 0 || |w.s.pending| < c.maxPending)
    requires w.s.sseq in w.st.live && w.s.sseq <= w.st.last
    ensures Gives(c, w, Deliver(w.s.(sseq := w.s.sseq + 1), w.s.sseq), w.s.sseq, w.s.dseq)
  {
    assert FirstLive(w.st.live, w.s.sseq, w.st.last + 1) == Some(w.s.sseq);
    assert NextMsg(c, w.s, w.st) == Next(w.s.(sseq := w.s.sseq + 1), Some(Msg(w.s.sseq, 1)));
  }

  lemma TurnAgain(c: Config, w: World)
    requires w.s.rdq != [] && w.s.rdq[0] in w.st.live && Redeliveries(w.s, w.s.rdq[0]) + 2 <= c.maxDeliver
    ensures var s, k := w.s, w.s.rdq[0];
            Gives(c, w, Deliver(Popped(s).(rdc := s.rdc[k := Redeliveries(s, k) + 1]), k), k, s.dseq)
  {
    var s, k, gone := w.s, w.s.rdq[0], set j | j in w.s.rdqi && j !in w.st.live;
    var s1 := Popped(s).(rdc := s.rdc[k := Redeliveries(s, k) + 1]);
    assert NextRedelivery(c, s, gone) == Next(s1, Some(Msg(k, Redeliveries(s, k) + 2)));
  }

  lemma TurnDrop(c: Config, w: World)
    requires |w.s.rdq| == 1 && c.maxDeliver > 0 && Redeliveries(w.s, w.s.rdq[0]) + 2 > c.maxDeliver && w.st.last < w.s.sseq
    ensures var s, k := w.s, w.s.rdq[0];
            Step(c, w, NextTurn(true)).s == TakePending(Popped(s).(rdc := s.rdc[k := Redeliveries(s, k) + 1]), k)
  {
    var s, k, gone := w.s, w.s.rdq[0], set j | j in w.s.rdqi && j !in w.st.live;
    var s1 := TakePending(Popped(s).(rdc := s.rdc[k := Redeliveries(s, k) + 1]), k);
    assert RedeliverHead(c, s, gone) == Next(s1, None);
    assert NextRedelivery(c, s, gone) == NextRedelivery(c, s1, gone) == Next(s1, None);
    assert FirstLive(w.st.live, s1.sseq, w.st.last + 1) == None;
    assert NextMsg(c, s, w.st) == FreshMsg(c, s1, w.st) == Next(s1, None);
  }

  // One step back.

  /** All worlds with this state and stream, in which at least `given` was handed out, are bad. */
  ghost predicate AllBad(bad: iset<World>, s: State, st: Store, given: set<(nat, nat)>) {
    forall w: World {:trigger w in bad} :: w.s == s && w.st == st && given <= w.given ==> w in bad
  }

  lemma FreshBad(c: Config, g: Guard, bad: iset<World>, s: State, st: Store, given: set<(nat, nat)>)
    requires Stranding(c, g, bad) && s.rdq == [] && (c.maxPending == 0 || |s.pending| < c.maxPending)
    requires s.sseq in st.live && s.sseq <= st.last
    requires AllBad(bad, Deliver(s.(sseq := s.sseq + 1), s.sseq), st, given + {(s.sseq, s.dseq)})
    ensures AllBad(bad, s, st, given)
  {
    forall w: World | w.s == s && w.st == st && given <= w.given
      ensures w in bad
    {
      TurnFresh(c, w);
      assert Step(c, w, NextTurn(true)) in bad;
    }
  }

  lemma AgainBad(c: Config, g: Guard, bad: iset<World>, s: State, st: Store, given: set<(nat, nat)>, k: nat)
    requires Stranding(c, g, bad) && s.rdq != [] && s.rdq[0] == k && k in st.live && Redeliveries(s, k) + 2 <= c.maxDeliver
    requires AllBad(bad, Deliver(Popped(s).(rdc := s.rdc[k := Redeliveries(s, k) + 1]), k), st, given + {(k, s.dseq)})
    ensures AllBad(bad, s, st, given)
  {
    forall w: World | w.s == s && w.st == st && given <= w.given
      ensures w in bad
    {
      TurnAgain(c, w);
      assert Step(c, w, NextTurn(true)) in bad;
    }
  }

  lemma DropBad(c: Config, g: Guard, bad: iset<World>, s: State, st: Store, given: set<(nat, nat)>, k: nat)
    requires Stranding(c, g, bad) && s.rdq == [k] && c.maxDeliver > 0 && Redeliveries(s, k) + 2 > c.maxDeliver && st.last < s.sseq
    requires !Above(TakePending(Popped(s).(rdc := s.rdc[k := Redeliveries(s, k) + 1]), k))
    ensures AllBad(bad, s, st, given)
  {
    forall w: World | w.s == s && w.st == st && given <= w.given
      ensures w in bad
    {
      TurnDrop(c, w);
      assert Step(c, w, NextTurn(true)) in bad;
    }
  }

  lemma NakBad(c: Config, g: Guard, bad: iset<World>, s: State, st: Store, given: set<(nat, nat)>, k: nat, d: nat)
    requires Stranding(c, g, bad) && AllBad(bad, Nak(s, k, d, false), st, given)
    ensures AllBad(bad, s, st, given)
  {
    forall w: World | w.s == s && w.st == st && given <= w.given
      ensures w in bad
    {
      assert Step(c, w, NakMsg(k, d, false)) in bad;
    }
  }

  lemma AckBad(c: Config, g: Guard, bad: iset<World>, s: State, st: Store, given: set<(nat, nat)>, k: nat, d: nat, order: seq<nat>)
    requires c.policy.AckAll? && Stranding(c, g, bad) && Walks(order, s) && (g.honest ==> (k, d) in given)
    requires AllBad(bad, AckUpTo(s, k, d, order), st, given)
    ensures AllBad(bad, s, st, given)
  {
    forall w: World | w.s == s && w.st == st && given <= w.given
      ensures w in bad
    {
      assert Step(c, w, Ack(k, d, order)) in bad;
    }
  }

  lemma PurgeBad(c: Config, g: Guard, bad: iset<World>, s: State, st: Store, given: set<(nat, nat)>, first: nat, gone: set<nat>,
                 order: seq<nat>)
    requires Stranding(c, g, bad) && !g.below && Walks(order, s) && first <= st.last + 1
    requires AllBad(bad, Purge(s, first, gone, order), st.(live := set k | k in st.live && k >= first && k !in gone), given)
    ensures AllBad(bad, s, st, given)
  {
    forall w: World | w.s == s && w.st == st && given <= w.given
      ensures w in bad
    {
      assert Step(c, w, PurgeTo(first, gone, order)) in bad;
    }
  }

  // The last of the three messages is handed out as often as the limit allows; then the floor passes the second.

  /** The first message was acknowledged with the delivery sequence `d`, which is above that of the second; the third
      was then handed out `n + 1` times.
   */
  function Handed(a: Positive, d: nat, n: nat): State {
    State(a + 3, d + 2 + n, d, a, map[a + 1 := 2, a + 2 := d + 1], [], {}, if n == 0 then map[] else map[a + 2 := n])
  }

  /** Another delivery of the third message is asked for. */
  function AskedAgain(a: Positive, d: nat, n: nat): State { Handed(a, d, n).(rdq := [a + 2], rdqi := {a + 2}) }

  lemma DropThird(a: Positive, d: nat, n: nat)
    ensures var s := AskedAgain(a, d, n); !Above(TakePending(Popped(s).(rdc := s.rdc[a + 2 := n + 1]), a + 2))
  {
    var s := AskedAgain(a, d, n);
    var r := TakePending(Popped(s).(rdc := s.rdc[a + 2 := n + 1]), a + 2);
    assert r.asflr == a + 2 && a + 1 in r.pending by {
      assert s.pending - {a + 2} == map[a + 1 := 2];
      assert FirstPending(map[a + 1 := 2], a + 3, a + 3) == None;
    }
  }

  lemma RedeliverThird(a: Positive, d: nat, n: nat)
    ensures var s := AskedAgain(a, d, n); Deliver(Popped(s).(rdc := s.rdc[a + 2 := n + 1]), a + 2) == Handed(a, d, n + 1)
  {
    assert AskedAgain(a, d, n).rdc[a + 2 := n + 1] == map[a + 2 := n + 1];
  }

  lemma {:induction false} DrainThird(c: Config, g: Guard, bad: iset<World>, a: Positive, d: nat, n: nat, given: set<(nat, nat)>)
    requires Stranding(c, g, bad) && n < c.maxDeliver
    ensures AllBad(bad, Handed(a, d, n), Three(a), given)
    decreases c.maxDeliver - n
  {
    if n + 1 == c.maxDeliver {
      DropThird(a, d, n);
      DropBad(c, g, bad, AskedAgain(a, d, n), Three(a), given, a + 2);
    } else {
      DrainThird(c, g, bad, a, d, n + 1, given + {(a + 2, d + 2 + n)});
      RedeliverThird(a, d, n);
      AgainBad(c, g, bad, AskedAgain(a, d, n), Three(a), given, a + 2);
    }
    assert Nak(Handed(a, d, n), a + 2, d + 1, false) == AskedAgain(a, d, n);
    NakBad(c, g, bad, Handed(a, d, n), Three(a), given, a + 2, d + 1);
  }

  // How the first message comes to be acknowledged with such a delivery sequence.

  /** The first two messages were handed out, the first one `n + 1` times. */
  function Two(a: Positive, n: nat): State {
    State(a + 2, 3 + n, 0, a - 1, map[a := 1, a + 1 := 2], [], {}, if n == 0 then map[] else map[a := n])
  }

  /** The first message was acknowledged. */
  function Left(a: Positive, n: nat): State { State(a + 2, 3 + n, 2 + n, a, map[a + 1 := 2], [], {}, map[]) }

  lemma AckLeaves(a: Positive, n: nat)
    ensures AckUpTo(Two(a, n), a, 2 + n, [a, a + 1]) == Left(a, n) && Walks([a, a + 1], Two(a, n))
  {
    var s := Two(a, n).(adflr := 2 + n, asflr := a);
    assert |s.pending| == 2;
    assert Forget(s, a) == Left(a, n) by {
      assert s.pending - {a} == map[a + 1 := 2] && s.rdc - {a} == map[];
    }
    assert ForgetDown(s, a, a - 1) == ForgetDown(Forget(s, a), a - 1, a - 1) == Forget(s, a);
  }

  lemma AckFirst(c: Config, g: Guard, bad: iset<World>, a: Positive, n: nat, given: set<(nat, nat)>)
    requires c.policy.AckAll? && Stranding(c, g, bad)
    requires 0 < c.maxDeliver && c.maxPending != 1 && (g.honest ==> (a, 2 + n) in given)
    ensures AllBad(bad, Two(a, n), Three(a), given)
  {
    DrainThird(c, g, bad, a, 2 + n, 0, given + {(a + 2, 3 + n)});
    assert Deliver(Left(a, n).(sseq := a + 3), a + 2) == Handed(a, 2 + n, 0);
    FreshBad(c, g, bad, Left(a, n), Three(a), given);
    AckLeaves(a, n);
    AckBad(c, g, bad, Two(a, n), Three(a), given, a, 2 + n, [a, a + 1]);
  }

  /** The first message is handed out again, so that its acknowledgement may carry a later delivery sequence. */
  lemma RedeliverFirst(c: Config, g: Guard, bad: iset<World>, a: Positive, given: set<(nat, nat)>)
    requires c.policy.AckAll? && Stranding(c, g, bad) && 2 <= c.maxDeliver && c.maxPending != 1
    ensures AllBad(bad, Two(a, 0), Three(a), given)
  {
    AckFirst(c, g, bad, a, 1, given + {(a, 3)});
    var asked := Two(a, 0).(rdq := [a], rdqi := {a});
    assert Deliver(Popped(asked).(rdc := map[a := 1]), a) == Two(a, 1);
    AgainBad(c, g, bad, asked, Three(a), given, a);
    NakBad(c, g, bad, Two(a, 0), Three(a), given, a, 1);
  }

  // Or the second message is purged, and the third dropped.

  /** The second message is gone, and the delivery floor is above that of the first. */
  function Purged(a: Positive): State { State(a + 2, 3, 2, a - 1, map[a := 1], [], {}, map[]) }

  lemma PurgeSecond(a: Positive)
    ensures Purge(Two(a, 0), a, {a + 1}, [a, a + 1]) == Purged(a) && Walks([a, a + 1], Two(a, 0))
  {
    var s := Two(a, 0);
    assert PurgeOne(s, {a + 1}, a) == s;
    assert PurgeOne(s, {a + 1}, a + 1) == Purged(a) by {
      assert s.pending - {a + 1} == map[a := 1] && s.rdc - {a + 1} == map[];
    }
    assert [a, a + 1][1..] == [a + 1] && [a + 1][1..] == [];
    assert PurgeEach(s, {a + 1}, [a, a + 1]) == PurgeEach(s, {a + 1}, [a + 1]) == PurgeEach(Purged(a), {a + 1}, []);
  }

  /** Then the third is handed out, and another delivery of it asked for. */
  function AskedPast(a: Positive): State {
    State(a + 3, 4, 2, a - 1, map[a := 1, a + 2 := 3], [a + 2], {a + 2}, map[])
  }

  lemma DropPast(a: Positive)
    ensures var s := AskedPast(a); !Above(TakePending(Popped(s).(rdc := s.rdc[a + 2 := 1]), a + 2))
  {
    var s := AskedPast(a);
    var r := TakePending(Popped(s).(rdc := s.rdc[a + 2 := 1]), a + 2);
    assert r.asflr == a + 2 && a in r.pending by {
      assert s.pending - {a + 2} == map[a := 1];
      assert FirstPending(map[a := 1], a + 3, a + 3) == None;
    }
  }

  lemma PastBad(c: Config, g: Guard, bad: iset<World>, a: Positive, st: Store, given: set<(nat, nat)>)
    requires Stranding(c, g, bad) && c.maxDeliver == 1 && c.maxPending != 1 && a + 2 in st.live && st.last == a + 2
    ensures AllBad(bad, Purged(a), st, given)
  {
    var past := AskedPast(a).(rdq := [], rdqi := {});
    AskedBad(c, g, bad, a, st, given + {(a + 2, 3)});
    assert Deliver(Purged(a).(sseq := a + 3), a + 2) == past;
    FreshBad(c, g, bad, Purged(a), st, given);
  }

  lemma AskedBad(c: Config, g: Guard, bad: iset<World>, a: Positive, st: Store, given: set<(nat, nat)>)
    requires Stranding(c, g, bad) && c.maxDeliver == 1 && st.last == a + 2
    ensures AllBad(bad, AskedPast(a).(rdq := [], rdqi := {}), st, given)
  {
    var past := AskedPast(a).(rdq := [], rdqi := {});
    DropPast(a);
    DropBad(c, g, bad, AskedPast(a), st, given, a + 2);
    assert Nak(past, a + 2, 3, false) == AskedPast(a);
    NakBad(c, g, bad, past, st, given, a + 2, 3);
  }

  lemma PurgePast(c: Config, g: Guard, bad: iset<World>, a: Positive, given: set<(nat, nat)>)
    requires Stranding(c, g, bad) && !g.below && c.maxDeliver == 1 && c.maxPending != 1
    ensures AllBad(bad, Two(a, 0), Three(a), given)
  {
    PastBad(c, g, bad, a, Three(a).(live := set k | k in Three(a).live && k >= a && k !in {a + 1}), given);
    PurgeSecond(a);
    PurgeBad(c, g, bad, Two(a, 0), Three(a), given, a, {a + 1}, [a, a + 1]);
  }

  // All together.

  lemma HandOutTwo(c: Config, g: Guard, bad: iset<World>, a: Positive)
    requires Stranding(c, g, bad) && c.maxPending != 1 && AllBad(bad, Two(a, 0), Three(a), {} + {(a, 1)} + {(a + 1, 2)})
    ensures Start(a, Three(a)) in bad
  {
    var one := State(a + 1, 2, 0, a - 1, map[a := 1], [], {}, map[]);
    assert Deliver(one.(sseq := a + 2), a + 1) == Two(a, 0);
    FreshBad(c, g, bad, one, Three(a), {} + {(a, 1)});
    assert Deliver(Init(a).(sseq := a + 1), a) == one;
    FreshBad(c, g, bad, Init(a), Three(a), {});
  }

  lemma NoneStranded(c: Config, g: Guard, a: Positive, st: Store)
    requires c.policy.AckAll? && Harmless(c, g) && forall k :: k in st.live ==> k <= st.last
    ensures !CanStrand(c, g, Start(a, st))
  {
    forall es | Possible(c, g, Start(a, st), es)
      ensures Above(Run(c, Start(a, st), es).s)
    {
      RunKept(c, g, Start(a, st), es);
    }
  }

  /** Some run from a start at `a`, over some stream, takes the floor past an unsettled message exactly when deliveries are
      limited, two messages may be pending, and, where acknowledgements are honest and purges are from below, a message
      may be handed out twice.
   */
  lemma StrandsExactly(c: Config, g: Guard, a: Positive)
    requires c.policy.AckAll?
    ensures (exists st: Store :: (forall k :: k in st.live ==> k <= st.last) && CanStrand(c, g, Start(a, st))) <==>
            c.maxPending != 1 && (c.maxDeliver >= 2 || (c.maxDeliver == 1 && !(g.honest && g.below)))
  {
    if Harmless(c, g) {
      forall st: Store | forall k :: k in st.live ==> k <= st.last
        ensures !CanStrand(c, g, Start(a, st))
      {
        NoneStranded(c, g, a, st);
      }
    } else {
      CanStrandIs(c, g);
      var given := {} + {(a, 1)} + {(a + 1, 2)};
      var bad := iset w | CanStrand(c, g, w);
      if c.maxDeliver >= 2 {
        RedeliverFirst(c, g, bad, a, given);
      } else if !g.below {
        PurgePast(c, g, bad, a, given);
      } else {
        AckFirst(c, g, bad, a, 0, given);
      }
      HandOutTwo(c, g, bad, a);
      assert CanStrand(c, g, Start(a, Three(a)));
    }
  }

  // The choice between the two walks.

  const ONE_EACH: Config := Config(AckAll, 1, 0)

  const STRICT: Guard := Guard(true, true)

  /** Three messages were handed out; the second ran out of deliveries. */
  const SECOND_GONE: State := State(4, 4, 0, 0, map[1 := 1, 3 := 3], [], {}, map[2 := 1])

  lemma SecondExpires(w: World) returns (e: Event)
    requires w.s == State(4, 4, 0, 0, map[1 := 1, 2 := 2, 3 := 3], [], {}, map[])
    ensures Enabled(STRICT, w, e) && Step(ONE_EACH, w, e).s == SECOND_GONE
  {
    e := Expire([1, 2, 3], 1, {2});
    var s := w.s;
    assert CheckOne(ONE_EACH, s, [], 1, 1, {2}) == (s, []);
    assert TakePending(s, 2) == SECOND_GONE.(rdc := map[]) by {
      assert s.pending - {2} == map[1 := 1, 3 := 3];
      assert 1 in map[1 := 1, 3 := 3];
    }
    assert HasMaxDeliveries(ONE_EACH, s, 2) == (true, SECOND_GONE);
    assert CheckOne(ONE_EACH, s, [], 2, 1, {2}) == (SECOND_GONE, []);
    assert CheckOne(ONE_EACH, SECOND_GONE, [], 3, 1, {2}) == (SECOND_GONE, []);
    assert [1, 2, 3][1..] == [2, 3] && [2, 3][1..] == [3];
    assert CheckEach(ONE_EACH, s, [], [1, 2, 3], 1, {2}) == CheckEach(ONE_EACH, s, [], [2, 3], 1, {2});
    assert CheckEach(ONE_EACH, s, [], [2, 3], 1, {2}) == CheckEach(ONE_EACH, SECOND_GONE, [], [3], 1, {2});
    assert (set k: nat | k in []) == {};
  }

  lemma ReachSecondGone() returns (es: seq<Event>)
    ensures Possible(ONE_EACH, STRICT, Start(1, Three(1)), es) && Run(ONE_EACH, Start(1, Three(1)), es).s == SECOND_GONE
  {
    var c, t, w0 := ONE_EACH, NextTurn(true), Start(1, Three(1));
    TurnFresh(c, w0);
    var w1 := Step(c, w0, t);
    TurnFresh(c, w1);
    var w2 := Step(c, w1, t);
    TurnFresh(c, w2);
    var w3 := Step(c, w2, t);
    var x := SecondExpires(w3);
    assert Run(c, Step(c, w3, x), []).s == SECOND_GONE;
    RunCons(c, STRICT, w3, x, []);
    RunCons(c, STRICT, w2, t, [x] + []);
    RunCons(c, STRICT, w1, t, [t] + ([x] + []));
    RunCons(c, STRICT, w0, t, [t] + ([t] + ([x] + [])));
    es := [t] + ([t] + ([t] + ([x] + [])));
  }

  /** The choice of walk is visible to the stream: after an honest run it decides whether message `j`, which used up its
      deliveries, is still needed.
   */
  lemma WalkChoiceMatters() returns (es: seq<Event>, k: nat, order: seq<nat>, j: nat)
    ensures Possible(ONE_EACH, STRICT, Start(1, Three(1)), es)
    ensures var s := Run(ONE_EACH, Start(1, Three(1)), es).s;
            && Walks(order, s) && s.asflr < k < s.sseq
            && NeedAck(ONE_EACH, ForgetEach(s.(asflr := k), k, order), j) !=
               NeedAck(ONE_EACH, ForgetDown(s.(asflr := k), k, s.asflr), j)
  {
    es := ReachSecondGone();
    k, order, j := 3, [1, 3], 2;
    var s1 := SECOND_GONE.(asflr := k);
    MapWalk(s1, k, order);
    assert 2 !in UpTo(order, k);
    RangeWalk(s1, k, 0);
    assert 1 in s1.pending && Reaches(s1.pending, k, 2);
  }
}
