/** Consumers whose acknowledgement settles everything up to a sequence.

The source removes the settled entries by whichever of two walks is shorter.  The walks agree on
what stays pending and queued, given that everything pending lies above the old floor.
 */
module ConsumerAckAll {
  import opened Basics
  import opened ConsumerState
  import opened ConsumerSafety

  /** Everything pending lies between the stream floor and the cursor. */
  ghost predicate Above(s: State) {
    && s.asflr < s.sseq
    && forall k :: k in s.pending ==> s.asflr < k < s.sseq
  }

  // The two walks.

  /** The entries of `q` that are not in `gone`. */
  function Without(q: seq<nat>, gone: set<nat>): (r: seq<nat>)
    ensures forall k :: k in r <==> k in q && k !in gone
  {
    if q == [] then []
    else if q[0] in gone then Without(q[1..], gone)
    else [q[0]] + Without(q[1..], gone)
  }

  lemma WithoutTwice(q: seq<nat>, a: set<nat>, b: set<nat>)
    ensures Without(Without(q, a), b) == Without(q, a + b)
  {
    if q != [] {
      WithoutTwice(q[1..], a, b);
      if q[0] !in a {
        assert Without(q, a)[1..] == Without(q[1..], a);
      }
    }
  }

  lemma WithoutSame(q: seq<nat>, a: set<nat>, b: set<nat>)
    requires forall k :: k in q ==> (k in a <==> k in b)
    ensures Without(q, a) == Without(q, b)
  {
    if q != [] {
      assert q[0] in q && forall k :: k in q[1..] ==> k in q;
      WithoutSame(q[1..], a, b);
    }
  }

  lemma WithoutNone(q: seq<nat>, a: set<nat>)
    requires forall k :: k in q ==> k !in a
    ensures Without(q, a) == q
  {
    if q != [] {
      assert q[0] in q && forall k :: k in q[1..] ==> k in q;
      WithoutNone(q[1..], a);
    }
  }

  lemma CutTail(q: seq<nat>, i: nat)
    requires q != [] && i <= |q[1..]|
    ensures Cut(q, i + 1) == [q[0]] + Cut(q[1..], i)
  {
  }

  lemma {:induction false} WithoutOne(q: seq<nat>, k: nat)
    requires Distinct(q)
    ensures Without(q, {k}) == Cut(q, IndexOf(q, k))
  {
    if q != [] {
      if q[0] == k {
        WithoutNone(q[1..], {k});
      } else {
        WithoutOne(q[1..], k);
        CutTail(q, IndexOf(q[1..], k));
      }
    }
  }

  lemma ForgetWithout(s: State, k: nat)
    requires Queued(s)
    ensures var r := Forget(s, k);
            Queued(r) && r.rdq == Without(s.rdq, {k}) && r.pending == s.pending - {k} && r.rdc == s.rdc - {k}
            && r.asflr == s.asflr && r.adflr == s.adflr && r.sseq == s.sseq && r.dseq == s.dseq
  {
    ForgetKeeps(s, k);
    WithoutOne(s.rdq, k);
    if k !in s.rdqi {
      WithoutNone(s.rdq, {k});
    }
  }

  /** What a walk that forgets exactly the keys in `gone` leaves. */
  ghost predicate Forgotten(s: State, r: State, gone: set<nat>) {
    && r.pending == s.pending - gone && r.rdc == s.rdc - gone && r.rdq == Without(s.rdq, gone)
    && Queued(r) && r.sseq == s.sseq && r.dseq == s.dseq && r.asflr == s.asflr && r.adflr == s.adflr
  }

  lemma ForgottenTwice(s: State, m: State, r: State, a: set<nat>, b: set<nat>)
    requires Forgotten(s, m, a) && Forgotten(m, r, b)
    ensures Forgotten(s, r, a + b)
  {
    WithoutTwice(s.rdq, a, b);
  }

  function UpTo(order: seq<nat>, k: nat): set<nat> { set j | j in order && j <= k }

  lemma {:induction false} MapWalk(s: State, k: nat, order: seq<nat>)
    requires Queued(s)
    ensures Forgotten(s, ForgetEach(s, k, order), UpTo(order, k))
    decreases |order|
  {
    if order == [] {
      assert UpTo(order, k) == {};
      WithoutNone(s.rdq, {});
      assert s.pending - {} == s.pending && s.rdc - {} == s.rdc;
    } else {
      var j := order[0];
      assert order == [j] + order[1..];
      if j <= k {
        ForgetWithout(s, j);
        MapWalk(Forget(s, j), k, order[1..]);
        ForgottenTwice(s, Forget(s, j), ForgetEach(s, k, order), {j}, UpTo(order[1..], k));
        assert {j} + UpTo(order[1..], k) == UpTo(order, k);
      } else {
        MapWalk(s, k, order[1..]);
        assert UpTo(order[1..], k) == UpTo(order, k);
      }
    }
  }

  /** The downward walk from `high` reaches `j`: an entry is left when it gets there. */
  ghost predicate Reaches(pending: map<nat, nat>, high: nat, j: nat) {
    exists p :: p in pending && (p <= j || p > high)
  }

  ghost function Reached(pending: map<nat, nat>, high: nat, low: nat): set<nat> {
    set j: nat | low < j <= high && Reaches(pending, high, j)
  }

  lemma ReachedStep(pending: map<nat, nat>, high: nat, low: nat)
    requires high > low && pending != map[]
    ensures Reached(pending, high, low) == {high} + Reached(pending - {high}, high - 1, low)
  {
    var p :| p in pending;
    assert p <= high || p > high;
    var rest := pending - {high};
    forall j: nat | low < j < high
      ensures Reaches(pending, high, j) <==> Reaches(rest, high - 1, j)
    {
      if Reaches(pending, high, j) {
        var p :| p in pending && (p <= j || p > high);
        assert p in rest;
      }
      if Reaches(rest, high - 1, j) {
        var p :| p in rest && (p <= j || p > high - 1);
        assert p in pending;
      }
    }
  }

  lemma {:induction false} RangeWalk(s: State, high: nat, low: nat)
    requires Queued(s)
    ensures Forgotten(s, ForgetDown(s, high, low), Reached(s.pending, high, low))
    decreases high
  {
    if high > low && s.pending != map[] {
      var r := Forget(s, high);
      ForgetWithout(s, high);
      RangeWalk(r, high - 1, low);
      ForgottenTwice(s, r, ForgetDown(s, high, low), {high}, Reached(r.pending, high - 1, low));
      ReachedStep(s.pending, high, low);
    } else {
      assert Reached(s.pending, high, low) == {};
      WithoutNone(s.rdq, {});
      assert s.pending - {} == s.pending && s.rdc - {} == s.rdc;
    }
  }

  /** The two walks leave the same pending map and the same redelivery queue, and both remove exactly
      what lies at or below the acknowledged sequence.
   */
  lemma WalksAgree(s: State, k: nat, low: nat, order: seq<nat>)
    requires Queued(s) && Walks(order, s)
    requires forall j :: j in s.pending ==> low < j
    ensures var a, b := ForgetEach(s, k, order), ForgetDown(s, k, low);
            && a.pending == b.pending && a.rdq == b.rdq
            && (forall j :: j in a.pending <==> j in s.pending && j > k)
            && (forall j :: j in a.rdq <==> j in s.rdq && j > k)
  {
    MapWalk(s, k, order);
    RangeWalk(s, k, low);
    forall j | j in s.pending
      ensures j in UpTo(order, k) <==> j in Reached(s.pending, k, low)
    {
      assert j <= k ==> Reaches(s.pending, k, j);
    }
    WithoutSame(s.rdq, UpTo(order, k), Reached(s.pending, k, low));
  }

  /** The walks leave the same redelivery counts exactly when no count in the range belongs to an
      entry that is no longer pending and that the downward walk gets to.
   */
  lemma WalksAgreeOnCounts(s: State, k: nat, low: nat, order: seq<nat>)
    requires Queued(s) && Walks(order, s)
    requires forall j :: j in s.pending ==> low < j
    ensures ForgetEach(s, k, order).rdc == ForgetDown(s, k, low).rdc <==>
            forall j :: j in s.rdc && low < j <= k && j !in s.pending ==> !Reaches(s.pending, k, j)
  {
    MapWalk(s, k, order);
    RangeWalk(s, k, low);
    var a, b := UpTo(order, k), Reached(s.pending, k, low);
    assert forall j :: j in s.pending && j <= k ==> Reaches(s.pending, k, j);
    assert s.rdc - a == s.rdc - b <==> forall j :: j in s.rdc ==> (j in a <==> j in b) by {
      if s.rdc - a == s.rdc - b {
        forall j | j in s.rdc
          ensures j in a <==> j in b
        {
          assert j in s.rdc - a <==> j in s.rdc - b;
        }
      }
    }
  }

  // The order of a walk.

  /** `order` visits every pending entry up to `k`. */
  ghost predicate Visits(order: seq<nat>, s: State, k: nat) {
    forall j :: j <= k ==> (j in order <==> j in s.pending)
  }

  lemma {:induction false} KeysUpToVisits(s: State, k: nat)
    ensures forall j :: j in KeysUpTo(s.pending, k) <==> j in s.pending && j <= k
  {
    if k > 0 {
      KeysUpToVisits(s, k - 1);
    }
  }

  lemma ForgottenOnce(s: State, a: State, b: State, gone: set<nat>)
    requires Forgotten(s, a, gone) && Forgotten(s, b, gone)
    ensures a == b
  {
    assert a.rdqi == b.rdqi;
  }

  /** In whatever order pending is visited, an acknowledgement has the same effect. */
  lemma AnyOrderSettles(s: State, k: nat, d: nat, a: seq<nat>, b: seq<nat>)
    requires Queued(s) && Visits(a, s, k) && Visits(b, s, k)
    ensures AckUpTo(s, k, d, a) == AckUpTo(s, k, d, b)
  {
    var s1 := s.(adflr := d, asflr := k);
    MapWalk(s1, k, a);
    MapWalk(s1, k, b);
    assert UpTo(a, k) == UpTo(b, k);
    ForgottenOnce(s1, ForgetEach(s1, k, a), ForgetEach(s1, k, b), UpTo(a, k));
  }

  /** What an acknowledgement of everything up to `k` leaves, whatever walk and order it takes: the queue in good order,
      and, where everything pending was above the floor, exactly what it does not settle.
   */
  lemma AckUpToKeeps(s: State, k: nat, d: nat, order: seq<nat>)
    requires Queued(s) && Visits(order, s, k)
    ensures var r := AckUpTo(s, k, d, order);
            && Queued(r) && r.sseq == s.sseq && r.dseq == s.dseq
            && (forall j :: j in r.pending ==> j in s.pending && r.pending[j] == s.pending[j])
            && if k < s.sseq && d > s.adflr && k > s.asflr
               then r.asflr == k && r.adflr == d &&
                    (Above(s) ==> forall j :: j in r.pending <==> j in s.pending && j > k)
               else r == s
  {
    if k < s.sseq && d > s.adflr && k > s.asflr {
      var s1 := s.(adflr := d, asflr := k);
      if k - s.asflr > |s.pending| {
        MapWalk(s1, k, order);
      } else {
        RangeWalk(s1, k, s.asflr);
        assert forall j :: j in s.pending && j <= k ==> Reaches(s.pending, k, j);
      }
    }
  }

  /** It releases what it settles: the stream is then told to keep exactly what lies above `k` and what has a redelivery on
      record, which nothing does that was pending up to `k`.
   */
  lemma AckUpToReleases(c: Config, s: State, k: nat, d: nat, order: seq<nat>, j: nat)
    requires c.policy.AckAll? && Queued(s) && Above(s) && Visits(order, s, k) && s.asflr < k < s.sseq && s.adflr < d
    ensures var r := AckUpTo(s, k, d, order);
            && (NeedAck(c, r, j) <==> j > k || j in r.rdc)
            && (j <= k && j in s.pending ==> !NeedAck(c, r, j)) && (j > k ==> (j in r.rdc <==> j in s.rdc))
  {
    var s1 := s.(adflr := d, asflr := k);
    if k - s.asflr > |s.pending| {
      MapWalk(s1, k, order);
    } else {
      RangeWalk(s1, k, s.asflr);
      assert j in s.pending && j <= k ==> Reaches(s.pending, k, j);
    }
  }
}
