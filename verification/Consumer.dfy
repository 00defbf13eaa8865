/** The consumer as an object: each method does to the fields what the step of the same kind does to the state. */
module ConsumerObject {
  import opened Basics
  import opened ConsumerState
  import opened ConsumerSafety
  import opened ConsumerPurge
  import Acks = ConsumerAckAll
  import Accounts = ConsumerAccounts
  import Turns = ConsumerTurns

  class Consumer {
    const cfg: Config
    var sseq: Positive
    var dseq: Positive
    var adflr: nat
    var asflr: nat
    var pending: map<nat, nat>
    var rdq: seq<nat>
    var rdqi: set<nat>
    var rdc: map<nat, nat>

    ghost function Contents(): State
      reads this
    {
      State(sseq, dseq, adflr, asflr, pending, rdq, rdqi, rdc)
    }

    constructor (cfg: Config, start: Positive)
      ensures Contents() == Init(start) && Inv(Contents()) && this.cfg == cfg
    {
      this.cfg := cfg;
      sseq, dseq, adflr, asflr := start, 1, 0, start - 1;
      pending, rdq, rdqi, rdc := map[], [], {}, map[];
    }

    method RemoveFromRedeliverQueue(k: nat) returns (removed: bool)
      modifies this
      ensures Contents() == RemoveQueued(old(Contents()), k)
      ensures removed <==> k in old(rdqi) && k in old(rdq)
    {
      if k !in rdqi {
        return false;
      }
      for i := 0 to |rdq|
        invariant k !in rdq[..i]
        invariant Contents() == old(Contents())
      {
        if rdq[i] == k {
          FirstIndex(rdq, k, i);
          if |rdq| == 1 {
            rdq, rdqi := [], {};
          } else {
            rdq, rdqi := rdq[..i] + rdq[i + 1..], rdqi - {k};
          }
          return true;
        }
      }
      return false;
    }

    method MoveFloors(d: nat, k: nat)
      modifies this
      ensures Contents() == MoveAckFloor(old(Contents()), d, k)
    {
      if |pending| == 0 {
        adflr, asflr := dseq - 1, sseq - 1;
      } else if d == adflr + 1 {
        adflr, asflr := d, k;
        var ss := k + 1;
        while ss < sseq
          invariant k + 1 <= ss
          invariant FirstPending(pending, k + 1, sseq) == FirstPending(pending, ss, sseq)
          invariant Contents() == old(Contents()).(adflr := d, asflr := k)
        {
          if ss in pending {
            if pending[ss] > 0 {
              adflr, asflr := pending[ss] - 1, ss - 1;
            }
            break;
          }
          ss := ss + 1;
        }
      }
    }

    /** Removes `k` from pending, moving the floors if it was there. */
    method Take(k: nat)
      modifies this
      ensures Contents() == TakePending(old(Contents()), k)
    {
      if k in pending {
        var d := pending[k];
        pending := pending - {k};
        MoveFloors(d, k);
      }
    }

    /** An acknowledgement or termination; `order` is the order in which a walk visited pending. */
    method ProcessAckMsg(k: nat, d: nat) returns (ghost order: seq<nat>)
      modifies this
      ensures Walks(order, old(Contents()))
      ensures Contents() == Acked(cfg, old(Contents()), k, d, order)
      ensures cfg.policy.AckExplicit? && old(Inv(Contents())) ==> Inv(Contents())
      ensures old(Accounts.Basic(Contents())) ==> Accounts.Basic(Contents())
    {
      ghost var before := Contents();
      match cfg.policy {
        case AckExplicit =>
          order := AnyOrder(pending.Keys);
          AckOnly(k);
        case AckAll =>
          order := AckThrough(k, d);
      }
      if Accounts.Basic(before) {
        Accounts.AckedBasic(cfg, before, k, d, order);
      }
    }

    /** Settles one message. */
    method AckOnly(k: nat)
      modifies this
      ensures Contents() == AckOne(old(Contents()), k)
      ensures old(Inv(Contents())) ==> Inv(Contents())
    {
      if Inv(Contents()) { AckOneKeeps(Contents(), k); }
      if k < sseq {
        Take(k);
        rdc := rdc - {k};
        var _ := RemoveFromRedeliverQueue(k);
      }
    }

    /** Settles everything up to a message, by the shorter of the two walks. */
    method AckThrough(k: nat, d: nat) returns (ghost order: seq<nat>)
      modifies this
      ensures Walks(order, old(Contents())) && Contents() == AckUpTo(old(Contents()), k, d, order)
      ensures old(Accounts.Basic(Contents())) ==> Accounts.Basic(Contents())
    {
      ghost var before := Contents();
      order := Through(k, d);
      if Accounts.Basic(before) {
        Accounts.AckUpToBasic(before, k, d, order);
      }
    }

    method Through(k: nat, d: nat) returns (ghost order: seq<nat>)
      modifies this
      ensures Walks(order, old(Contents())) && Contents() == AckUpTo(old(Contents()), k, d, order)
    {
      order := AnyOrder(pending.Keys);
      if k < sseq && d > adflr && k > asflr {
        var gap := k - asflr;
        adflr, asflr := d, k;
        if gap > |pending| {
          order := ForgetPending(k);
        } else {
          ForgetRange(k, gap);
        }
      }
    }

    method ForgetKey(k: nat)
      modifies this
      ensures Contents() == Forget(old(Contents()), k)
    {
      pending := pending - {k};
      rdc := rdc - {k};
      var _ := RemoveFromRedeliverQueue(k);
    }

    /** The walk over pending. */
    method ForgetPending(k: nat) returns (ghost order: seq<nat>)
      modifies this
      ensures Walks(order, old(Contents()))
      ensures Contents() == ForgetEach(old(Contents()), k, order)
    {
      var todo := pending.Keys;
      order := [];
      while todo != {}
        invariant Distinct(order)
        invariant forall j :: j in old(pending) <==> j in order || j in todo
        invariant forall j :: j in order ==> j !in todo
        invariant Contents() == ForgetEach(old(Contents()), k, order)
      {
        var j :| j in todo;
        todo := todo - {j};
        ForgetEachSnoc(old(Contents()), k, order, j);
        order := order + [j];
        if j <= k {
          ForgetKey(j);
        }
      }
    }

    /** The walk down the sequence range. */
    method ForgetRange(k: nat, gap: nat)
      requires gap <= k
      modifies this
      ensures Contents() == ForgetDown(old(Contents()), k, k - gap)
    {
      var j := k;
      while j > k - gap && |pending| > 0
        invariant k - gap <= j <= k
        invariant ForgetDown(old(Contents()), k, k - gap) == ForgetDown(Contents(), j, k - gap)
      {
        ForgetKey(j);
        j := j - 1;
      }
    }

    method ProcessNak(k: nat, d: nat, delayed: bool)
      modifies this
      ensures Contents() == Nak(old(Contents()), k, d, delayed)
      ensures old(Inv(Contents())) ==> Inv(Contents())
      ensures old(Accounts.Basic(Contents())) ==> Accounts.Basic(Contents())
    {
      if Inv(Contents()) { NakKeeps(Contents(), k, d, delayed); }
      if Accounts.Basic(Contents()) { Accounts.NakBasic(Contents(), k, d, delayed); }
      if d <= adflr || d > dseq || k !in pending {
        return;
      }
      if delayed {
        var _ := RemoveFromRedeliverQueue(k);
      } else if k !in rdqi {
        rdq, rdqi := rdq + [k], rdqi + {k};
        assert (set j | j in [k]) == {k};
      }
    }

    method HasMaxDeliveries(k: nat) returns (hit: bool)
      modifies this
      ensures (hit, Contents()) == ConsumerState.HasMaxDeliveries(cfg, old(Contents()), k)
    {
      if cfg.maxDeliver == 0 {
        return false;
      }
      var dc := if k in rdc && rdc[k] >= 1 then rdc[k] else 1;
      if dc < cfg.maxDeliver {
        return false;
      }
      Take(k);
      rdc := rdc[k := dc];
      return true;
    }

    /** One entry of the pass below; an entry to be queued is added to `expired`. */
    method CheckEntry(j: nat, first: nat, due: set<nat>, expired: seq<nat>) returns (found: seq<nat>)
      requires j in pending
      modifies this
      ensures (Contents(), Sorted(found)) == CheckOne(cfg, old(Contents()), Sorted(expired), j, first, due)
    {
      found := expired;
      if j < first || j <= asflr {
        var d, floor := pending[j], asflr;
        ForgetKey(j);
        asflr, adflr := Max(floor, j), Max(adflr, d);
      } else if j in due && j !in rdqi {
        var hit := HasMaxDeliveries(j);
        if !hit {
          found := expired + [j];
          assert found[..|found| - 1] == expired;
        }
      }
    }

    method CheckEntries(first: nat, due: set<nat>) returns (expired: seq<nat>, ghost order: seq<nat>)
      modifies this
      ensures Walks(order, old(Contents()))
      ensures (Contents(), Sorted(expired)) == CheckEach(cfg, old(Contents()), [], order, first, due)
    {
      var todo := pending.Keys;
      expired, order := [], [];
      while todo != {}
        invariant Distinct(order)
        invariant forall j :: j in old(pending) <==> j in order || j in todo
        invariant forall j :: j in order ==> j !in todo
        invariant todo <= pending.Keys
        invariant (Contents(), Sorted(expired)) == CheckEach(cfg, old(Contents()), [], order, first, due)
      {
        var j :| j in todo;
        todo := todo - {j};
        CheckEachSnoc(cfg, old(Contents()), [], order, j, first, due);
        order := order + [j];
        CheckOneKeysKept(cfg, Contents(), Sorted(expired), j, first, due);
        expired := CheckEntry(j, first, due, expired);
      }
    }

    /** The pass over pending when the ack timer fires: `first` is the stream's first sequence
        and `due` the entries whose wait is over.
     */
    method CheckPending(first: nat, due: set<nat>) returns (ghost order: seq<nat>)
      modifies this
      ensures Walks(order, old(Contents()))
      ensures Contents() == ConsumerState.CheckPending(cfg, old(Contents()), order, first, due)
      ensures old(Inv(Contents())) ==> Inv(Contents())
      ensures old(Accounts.Basic(Contents())) ==> Accounts.Basic(Contents())
    {
      ghost var before := Contents();
      var expired;
      expired, order := CheckEntries(first, due);
      QueueExpired(Sorted(expired));
      if Inv(before) {
        CheckPendingKeeps(cfg, before, order, first, due);
      }
      if Accounts.Basic(before) {
        Accounts.CheckPendingBasic(cfg, before, order, first, due);
      }
    }

    method QueueExpired(expired: seq<nat>)
      modifies this
      ensures Contents() == CheckEnd(Enqueue(old(Contents()), expired))
    {
      rdq, rdqi := rdq + expired, rdqi + set j | j in expired;
      if |pending| == 0 {
        rdq, rdqi := [], {};
        adflr, asflr := dseq - 1, sseq - 1;
      }
    }

    /** One try at the head of the redelivery queue. */
    method TryRedeliver(gone: set<nat>) returns (m: Option<Msg>)
      requires rdq != [] && Queued(Contents())
      modifies this
      ensures Next(Contents(), m) == RedeliverHead(cfg, old(Contents()), gone) && Queued(Contents())
    {
      ghost var before := Contents();
      var k := rdq[0];
      rdqi := if |rdq| == 1 then {} else rdqi - {k};
      rdq := rdq[1..];
      var dc := (if k in rdc then rdc[k] else 0) + 2;
      rdc := rdc[k := dc - 1];
      PoppedQueued(before, dc - 1);
      if cfg.maxDeliver > 0 && dc > cfg.maxDeliver {
        Take(k);
        return None;
      }
      if k in gone {
        rdc := rdc[k := Decrement(dc - 1)];
        PoppedQueued(before, Decrement(dc - 1));
        if k in pending {
          SettleGone(k);
        }
        return None;
      }
      return Some(Msg(k, dc));
    }

    /** Settles a pending message that the stream no longer holds. */
    method SettleGone(k: nat)
      requires k in pending && Queued(Contents())
      modifies this
      ensures Contents() == Settle(cfg, old(Contents()), k) && Queued(Contents())
    {
      ghost var before := Contents();
      ghost var order := ProcessAckMsg(k, pending[k]);
      match cfg.policy {
        case AckExplicit => AckOneQueued(before, k);
        case AckAll =>
          Acks.KeysUpToVisits(before, k);
          Acks.AnyOrderSettles(before, k, before.pending[k], order, KeysUpTo(before.pending, k));
          Acks.AckUpToKeeps(before, k, before.pending[k], order);
      }
    }

    /** Picks the next message to deliver from a stream whose matching messages are `st`. */
    method GetNextMsg(st: Store) returns (m: Option<Msg>)
      requires Queued(Contents())
      modifies this
      ensures Next(Contents(), m) == NextMsg(cfg, old(Contents()), st)
    {
      var gone := set k | k in rdqi && k !in st.live;
      while |rdq| > 0
        invariant NextRedelivery(cfg, old(Contents()), gone) == NextRedelivery(cfg, Contents(), gone) && Queued(Contents())
        decreases |rdq|
      {
        m := TryRedeliver(gone);
        if m.Some? {
          return;
        }
      }
      assert NextRedelivery(cfg, old(Contents()), gone) == Next(Contents(), None);
      m := GetFreshMsg(st);
    }

    method GetFreshMsg(st: Store) returns (m: Option<Msg>)
      modifies this
      ensures Next(Contents(), m) == FreshMsg(cfg, old(Contents()), st)
    {
      if cfg.maxPending > 0 && |pending| >= cfg.maxPending {
        return None;
      }
      var next := FirstLive(st.live, sseq, st.last + 1);
      match next {
        case Some(k) =>
          sseq := k + 1;
          return Some(Msg(k, 1));
        case None =>
          if st.last >= sseq {
            sseq := st.last + 1;
          }
          return None;
      }
    }

    method DeliverMsg(k: nat)
      modifies this
      ensures Contents() == Deliver(old(Contents()), k)
    {
      var d := dseq;
      dseq := dseq + 1;
      if k !in pending {
        pending := pending[k := d];
      }
    }

    /** One turn of the delivery loop; `waiter` says whether a request can take the message. */
    method LoopAndGather(st: Store, waiter: bool)
      requires Queued(Contents())
      modifies this
      ensures Contents() == DeliverNext(cfg, old(Contents()), st, waiter)
      ensures cfg.policy.AckExplicit? && old(Inv(Contents())) ==> Inv(Contents())
      ensures old(Accounts.Basic(Contents())) ==> Accounts.Basic(Contents())
      ensures old(Accounts.Basic(Contents())) ==>
                forall k :: k in old(rdq) && k in pending && (cfg.policy.AckExplicit? || k in st.live) ==>
                  k in rdq || (waiter && Turns.HandedAgain(old(Contents()), st, Contents(), k))
    {
      if cfg.policy.AckExplicit? && Inv(Contents()) { DeliverNextKeeps(cfg, Contents(), st, waiter); }
      if Accounts.Basic(Contents()) {
        Accounts.TurnBasic(cfg, Contents(), st, waiter);
        ghost var before := Contents();
        forall k | k in rdq && (cfg.policy.AckExplicit? || k in st.live)
          ensures var r := DeliverNext(cfg, before, st, waiter);
                  k in r.pending ==> k in r.rdq || (waiter && Turns.HandedAgain(before, st, r, k))
        {
          Turns.TurnLosesNone(cfg, before, st, waiter, k);
        }
      }
      var m := GetNextMsg(st);
      HandOver(m, waiter);
    }

    /** Delivers what was picked, or puts it back when no request is waiting for it. */
    method HandOver(m: Option<Msg>, waiter: bool)
      modifies this
      ensures Contents() == HandOut(Next(old(Contents()), m), waiter)
      ensures m.Some? && !waiter ==> sseq == m.value.key || m.value.key in rdqi
    {
      match m {
        case None =>
        case Some(m) =>
          if waiter {
            DeliverMsg(m.key);
          } else if m.dc == 1 && m.key == sseq - 1 && sseq > 1 {
            sseq := sseq - 1;
          } else if m.key !in rdqi {
            rdc := rdc[m.key := Decrement(if m.key in rdc then rdc[m.key] else 0)];
            rdq, rdqi := rdq + [m.key], rdqi + {m.key};
            assert (set j | j in [m.key]) == {m.key};
          }
      }
    }

    /** The stream was purged: `first` is its first sequence now.  When the purge was narrower than the filter, `gone` is
        what else is pending that the stream no longer holds.
     */
    method Purge(first: nat, gone: set<nat>) returns (ghost order: seq<nat>)
      modifies this
      ensures Walks(order, old(Contents())) && Contents() == ConsumerState.Purge(old(Contents()), first, gone, order)
      ensures old(Inv(Contents())) ==> (Inv(Contents()) <==> FromBelow(old(Contents()), first, gone)) && rdq == []
      ensures old(Accounts.Basic(Contents())) ==> Accounts.Basic(Contents())
    {
      ghost var before := Contents();
      order := PurgeAll(first, gone);
      if Inv(before) {
        PurgeExactly(before, first, gone, order);
        PurgeLeaves(before, first, gone, order);
      }
      if Accounts.Basic(before) {
        Accounts.PurgeBasic(before, first, gone, order);
      }
    }

    method PurgeAll(first: nat, gone: set<nat>) returns (ghost order: seq<nat>)
      modifies this
      ensures Walks(order, old(Contents())) && Contents() == ConsumerState.Purge(old(Contents()), first, gone, order)
    {
      order := AnyOrder(pending.Keys);
      if sseq < first {
        sseq := first;
      }
      if asflr < first {
        asflr := first - 1;
        order := PurgePending(gone);
      }
      PurgeRest();
    }

    /** The floors when nothing is left pending, and the redelivery queue. */
    method PurgeRest()
      modifies this
      ensures Contents() == PurgeEnd(old(Contents()))
    {
      if |pending| == 0 {
        pending, rdc := map[], map[];
        adflr, asflr := dseq - 1, sseq - 1;
      }
      if |rdq| > 0 {
        rdq := Filter(rdq, sseq);
        rdqi := set k | k in rdq;
      }
    }

    method PurgePending(gone: set<nat>) returns (ghost order: seq<nat>)
      modifies this
      ensures Walks(order, old(Contents()))
      ensures Contents() == PurgeEach(old(Contents()), gone, order)
    {
      var todo := pending.Keys;
      order := [];
      while todo != {}
        invariant Distinct(order)
        invariant forall j :: j in old(pending) <==> j in order || j in todo
        invariant forall j :: j in order ==> j !in todo
        invariant todo <= pending.Keys
        invariant Contents() == PurgeEach(old(Contents()), gone, order)
      {
        var j :| j in todo;
        todo := todo - {j};
        PurgeEachSnoc(old(Contents()), gone, order, j);
        order := order + [j];
        if j <= asflr || j in gone {
          if pending[j] > adflr {
            adflr := pending[j];
          }
          if adflr > dseq {
            dseq := adflr;
          }
          pending, rdc := pending - {j}, rdc - {j};
        }
      }
    }

    /** Whether the stream must keep message `k`, which matches the filter.  A follower that reads what the leader stored
        answers as the leader did.
     */
    method NeedAckFor(k: nat, asked: Asked, filtered: bool) returns (need: bool)
      ensures asked.Leader? ==> need == NeedAck(cfg, Contents(), k)
      ensures forall s: State :: asked == Follower(Save(s)) ==> need == NeedAck(cfg, s, k)
      ensures cfg.policy.AckExplicit? && asked.Leader? && Floors(Contents()) ==>
                need == (k >= sseq || k in pending || k in rdc)
      ensures asked.NoStore? ==> !need
      ensures asked.Unreadable? ==> need == (k > asflr && !filtered)
    {
      var floor, next, pend, counts := asflr, sseq as nat, pending, rdc;
      match asked {
        case Leader =>
        case NoStore => return false;
        case Unreadable => return k > asflr && !filtered;
        case Follower(saved) =>
          floor, next, pend, counts := saved.floor, saved.delivered + 1, saved.pending, saved.redelivered;
      }
      need := false;
      match cfg.policy {
        case AckAll => need := k > floor;
        case AckExplicit =>
          if k > floor {
            need := k >= next || k in pend;
          }
      }
      if !need {
        need := k in counts;
      }
    }
  }

  /** The pass removes at most the entry it looks at. */
  lemma CheckOneKeysKept(c: Config, s: State, expired: seq<nat>, j: nat, first: nat, due: set<nat>)
    ensures s.pending.Keys - {j} <= CheckOne(c, s, expired, j, first, due).0.pending.Keys
  {
  }

  lemma CheckEachSnoc(c: Config, s: State, expired: seq<nat>, order: seq<nat>, j: nat, first: nat, due: set<nat>)
    ensures CheckEach(c, s, expired, order + [j], first, due) ==
            var (s1, e1) := CheckEach(c, s, expired, order, first, due); CheckOne(c, s1, e1, j, first, due)
    decreases |order|
  {
    if order == [] {
      assert (order + [j])[1..] == [];
    } else {
      assert (order + [j])[1..] == order[1..] + [j];
      var (s1, e1) := CheckOne(c, s, expired, order[0], first, due);
      CheckEachSnoc(c, s1, e1, order[1..], j, first, due);
    }
  }

  lemma {:induction false} PurgeEachSnoc(s: State, gone: set<nat>, order: seq<nat>, j: nat)
    ensures PurgeEach(s, gone, order + [j]) == PurgeOne(PurgeEach(s, gone, order), gone, j)
    decreases |order|
  {
    if order == [] {
      assert (order + [j])[1..] == [];
    } else {
      assert (order + [j])[1..] == order[1..] + [j];
      PurgeEachSnoc(PurgeOne(s, gone, order[0]), gone, order[1..], j);
    }
  }

  lemma FirstIndex(q: seq<nat>, k: nat, i: nat)
    requires i < |q| && q[i] == k && k !in q[..i]
    ensures IndexOf(q, k) == i
  {
    if i > 0 {
      assert q[0] == q[..i][0];
      assert q[1..][..i - 1] == q[..i][1..];
      FirstIndex(q[1..], k, i - 1);
    }
  }

  lemma ForgetEachSnoc(s: State, k: nat, order: seq<nat>, j: nat)
    ensures ForgetEach(s, k, order + [j]) ==
            var m := ForgetEach(s, k, order); if j <= k then Forget(m, j) else m
    decreases |order|
  {
    if order == [] {
      assert (order + [j])[1..] == [];
    } else {
      assert (order + [j])[1..] == order[1..] + [j];
      ForgetEachSnoc(if order[0] <= k then Forget(s, order[0]) else s, k, order[1..], j);
    }
  }
}
