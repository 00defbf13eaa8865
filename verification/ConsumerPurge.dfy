/** Purges, also those of a subject that is narrower than the consumer's filter: such a one also drops the pending
messages that the stream no longer holds, wherever they are.
 */
module ConsumerPurge {
  import opened Basics
  import opened ConsumerState
  import opened ConsumerSafety

  /** What a walk leaves: what it drops is gone, and the delivery floor is the highest of what was dropped. */
  ghost predicate Dropped(s: State, gone: set<nat>, order: seq<nat>, r: State) {
    && r == s.(adflr := r.adflr, pending := r.pending, rdc := r.rdc) && s.adflr <= r.adflr < s.dseq
    && (forall k :: k in r.pending <==> k in s.pending && !(k in order && Drops(s, gone, k)))
    && (forall k :: k in r.pending ==> r.pending[k] == s.pending[k] && (k in r.rdc <==> k in s.rdc))
    && (forall k :: k in s.pending && k in order && Drops(s, gone, k) ==> s.pending[k] <= r.adflr)
    && (r.adflr == s.adflr || exists k :: k in s.pending && k in order && Drops(s, gone, k) && s.pending[k] == r.adflr)
  }

  lemma {:induction false} PurgeEachDrops(s: State, gone: set<nat>, order: seq<nat>)
    requires s.adflr < s.dseq && forall k :: k in s.pending ==> s.pending[k] < s.dseq
    ensures Dropped(s, gone, order, PurgeEach(s, gone, order))
    decreases |order|
  {
    if order != [] {
      PurgeEachDrops(PurgeOne(s, gone, order[0]), gone, order[1..]);
      DroppedMore(s, gone, order, PurgeEach(s, gone, order));
    }
  }

  lemma DroppedMore(s: State, gone: set<nat>, order: seq<nat>, r: State)
    requires order != [] && s.adflr < s.dseq && forall k :: k in s.pending ==> s.pending[k] < s.dseq
    requires Dropped(PurgeOne(s, gone, order[0]), gone, order[1..], r)
    ensures Dropped(s, gone, order, r)
  {
    var s1 := PurgeOne(s, gone, order[0]);
    assert forall k :: k in order <==> k == order[0] || k in order[1..];
    assert s1 == s.(adflr := s1.adflr, pending := s1.pending, rdc := s1.rdc);
  }

  /** Every message that stays lies above every one that is dropped. */
  ghost predicate DropsBelow(s: State, first: nat, gone: set<nat>) {
    forall j, k :: j in s.pending && k in s.pending && first <= j && j !in gone && (k < first || k in gone) ==> k < j
  }

  /** A purge that does not get to its loop, or drops only below what stays. */
  ghost predicate FromBelow(s: State, first: nat, gone: set<nat>) { first <= s.asflr || DropsBelow(s, first, gone) }

  lemma PurgeBelowKeeps(s: State, first: nat, gone: set<nat>, order: seq<nat>)
    requires Inv(s) && Walks(order, s) && s.asflr < first && DropsBelow(s, first, gone)
    ensures Inv(Purge(s, first, gone, order))
  {
    var s1 := s.(sseq := Max(s.sseq, first), asflr := first - 1);
    PurgeEachDrops(s1, gone, order);
    var r := PurgeEach(s1, gone, order);
    PurgeFloors(s, s1, first, gone, order, r);
    PurgeEndKeeps(r);
  }

  lemma PurgeFloors(s: State, s1: State, first: nat, gone: set<nat>, order: seq<nat>, r: State)
    requires Inv(s) && Walks(order, s) && s.asflr < first && DropsBelow(s, first, gone)
    requires s1 == s.(sseq := s1.sseq, asflr := first - 1) && s1.sseq == Max(s.sseq, first) && Dropped(s1, gone, order, r)
    ensures Floors(r) && Ordered(r) && r.rdq == s.rdq && r.rdqi == s.rdqi && r.sseq >= s.sseq
  {
    forall j | j in r.pending
      ensures first <= j && r.adflr < r.pending[j]
    {
      StaysAbove(s, s1, first, gone, order, r, j);
    }
  }

  lemma StaysAbove(s: State, s1: State, first: nat, gone: set<nat>, order: seq<nat>, r: State, j: nat)
    requires Inv(s) && Walks(order, s) && s.asflr < first && DropsBelow(s, first, gone)
    requires s1 == s.(sseq := s1.sseq, asflr := first - 1) && Dropped(s1, gone, order, r) && j in r.pending
    ensures first <= j && r.adflr < r.pending[j]
  {
    if k :| k in s.pending && k in order && Drops(s1, gone, k) && s.pending[k] == r.adflr {
      assert k < j;
    }
  }

  lemma PurgeStrands(s: State, first: nat, gone: set<nat>, order: seq<nat>, j: nat, k: nat)
    requires Inv(s) && Walks(order, s) && s.asflr < first && j in s.pending && k in s.pending
    requires first <= j <= k && j !in gone && k in gone
    ensures var r := Purge(s, first, gone, order); j in r.pending && r.pending[j] <= r.adflr
  {
    PurgeEachDrops(s.(sseq := Max(s.sseq, first), asflr := first - 1), gone, order);
  }

  lemma PurgeAbove(s: State, first: nat, gone: set<nat>, order: seq<nat>)
    requires Floors(s) && Walks(order, s)
    ensures var r := Purge(s, first, gone, order); forall k :: k in r.pending ==> r.asflr < k < r.sseq
  {
    if s.asflr < first {
      PurgeEachDrops(s.(sseq := Max(s.sseq, first), asflr := first - 1), gone, order);
    }
  }

  /** Such a purge keeps what is pending above the stream floor.  It keeps the delivery floor below every unsettled
      delivery if and only if it does not get to its loop, or every message that stays lies above every one dropped.
   */
  lemma PurgeExactly(s: State, first: nat, gone: set<nat>, order: seq<nat>)
    requires Inv(s) && Walks(order, s)
    ensures var r := Purge(s, first, gone, order);
            && (Inv(r) <==> FromBelow(s, first, gone))
            && (forall k :: k in r.pending ==> r.asflr < k < r.sseq)
  {
    PurgeAbove(s, first, gone, order);
    if first <= s.asflr {
      PurgeEndKeeps(s.(sseq := Max(s.sseq, first)));
    } else if DropsBelow(s, first, gone) {
      PurgeBelowKeeps(s, first, gone, order);
    } else {
      var j, k :| j in s.pending && k in s.pending && first <= j && j !in gone && (k < first || k in gone) && j <= k;
      PurgeStrands(s, first, gone, order, j, k);
    }
  }

  /** The entries at or above `first`. */
  function From(pending: map<nat, nat>, first: nat): map<nat, nat> {
    map k | k in pending && k >= first :: pending[k]
  }

  /** A purge that covers the filter keeps the invariant and always leaves the redelivery queue empty. */
  lemma PurgeKeeps(s: State, first: nat, order: seq<nat>)
    requires Inv(s) && Walks(order, s)
    ensures var r := Purge(s, first, {}, order);
            && Inv(r) && r.rdq == []
            && r.pending == From(s.pending, first)
            && r.sseq == Max(s.sseq, first) && r.dseq == s.dseq
  {
    PurgeExactly(s, first, {}, order);
    PurgeLeaves(s, first, {}, order);
    assert From(s.pending, first) == map k | k in s.pending && first <= k && k !in {} :: s.pending[k];
    if first <= s.asflr {
      assert From(s.pending, first) == s.pending;
    }
  }

  /** What any purge leaves. */
  lemma PurgeLeaves(s: State, first: nat, gone: set<nat>, order: seq<nat>)
    requires Inv(s) && Walks(order, s)
    ensures var r := Purge(s, first, gone, order);
            && r.rdq == [] && r.sseq == Max(s.sseq, first) && r.dseq == s.dseq
            && r.pending == if first <= s.asflr then s.pending else map k | k in s.pending && first <= k && k !in gone :: s.pending[k]
  {
    var s1 := s.(sseq := Max(s.sseq, first));
    if s1.asflr < first {
      var s2 := s1.(asflr := first - 1);
      PurgeEachDrops(s2, gone, order);
      PurgeEndLeaves(PurgeEach(s2, gone, order));
    } else {
      PurgeEndLeaves(s1);
    }
  }

  lemma PurgeEndLeaves(s: State)
    requires forall k :: k in s.rdq ==> k < s.sseq
    ensures var r := PurgeEnd(s); r.rdq == [] && r.sseq == s.sseq && r.dseq == s.dseq && r.pending == s.pending
  {
    FilterNone(s.rdq, s.sseq);
  }

  // The floors and the records after a purge.

  /** The records are those of what was not dropped. */
  ghost predicate Recorded(s: State, r: State, dropped: iset<nat>) {
    && (forall k :: k in r.rdc <==> k in s.rdc && k !in dropped)
    && forall k :: k in r.rdc ==> r.rdc[k] == s.rdc[k]
  }

  lemma {:induction false} PurgeEachRecords(s: State, gone: set<nat>, order: seq<nat>)
    ensures Recorded(s, PurgeEach(s, gone, order), iset k | k in s.pending && k in order && Drops(s, gone, k))
    decreases |order|
  {
    if order != [] {
      var m := PurgeOne(s, gone, order[0]);
      PurgeEachRecords(m, gone, order[1..]);
      assert forall k :: k in order <==> k == order[0] || k in order[1..];
    }
  }

  /** Where the floors end: at the top if nothing is pending; else the stream floor is right below the purge, or stays if it
      was not below it, and the delivery floor is the highest delivery dropped, or stays if none was above it.
   */
  ghost predicate FloorsAfter(s: State, first: nat, r: State) {
    if r.pending == map[] then r.asflr == r.sseq - 1 && r.adflr == r.dseq - 1
    else
      && r.asflr == (if s.asflr < first then first - 1 else s.asflr)
      && (forall k :: k in s.pending && k !in r.pending ==> s.pending[k] <= r.adflr)
      && (r.adflr == s.adflr || exists k :: k in s.pending && k !in r.pending && s.pending[k] == r.adflr)
  }

  lemma PurgeEndFloors(s: State)
    ensures var r := PurgeEnd(s);
            && r.pending == s.pending && r.sseq == s.sseq && r.dseq == s.dseq
            && (if s.pending == map[] then r.asflr == s.sseq - 1 && r.adflr == s.dseq - 1 && r.rdc == map[]
                else r.asflr == s.asflr && r.adflr == s.adflr && r.rdc == s.rdc)
  {
  }

  lemma PurgeEndsAt(s: State, first: nat, gone: set<nat>, order: seq<nat>)
    requires Inv(s) && Walks(order, s)
    ensures FloorsAfter(s, first, Purge(s, first, gone, order))
  {
    var s1 := s.(sseq := Max(s.sseq, first));
    if s.asflr < first {
      var s2 := s1.(asflr := first - 1);
      PurgeEachDrops(s2, gone, order);
      PurgeEndFloors(PurgeEach(s2, gone, order));
    } else {
      PurgeEndFloors(s1);
    }
  }

  /** A purge leaves no record if nothing is pending, and else exactly the records of what it does not drop. */
  lemma PurgeRecords(s: State, first: nat, gone: set<nat>, order: seq<nat>)
    requires Inv(s) && Walks(order, s)
    ensures var r := Purge(s, first, gone, order);
            if r.pending == map[] then r.rdc == map[] else Recorded(s, r, iset k | k in s.pending && k !in r.pending)
  {
    var s1 := s.(sseq := Max(s.sseq, first));
    if s.asflr < first {
      var s2 := s1.(asflr := first - 1);
      PurgeEachDrops(s2, gone, order);
      PurgeEachRecords(s2, gone, order);
      PurgeEndFloors(PurgeEach(s2, gone, order));
    } else {
      PurgeEndFloors(s1);
    }
  }
}
