/** The expiration tracker of the JWT directory (server/dirstore.go): a heap by expiration whose items know their
place in it, an index of the items by key, the keys in order of use, and a running digest.

Items are named by their keys instead of by pointers.
 */
module JwtTracker {
  import opened Digest
  import opened HeapOrder
  import opened JwtIndex

  datatype Item = Item(index: int, expiration: int, hash: Hash)

  /** Every heap position holds an item that knows it, and every item is at the position it knows. */
  ghost predicate Indexed(heap: seq<string>, items: map<string, Item>) {
    && (forall i :: 0 <= i < |heap| ==> heap[i] in items && items[heap[i]].index == i)
    && (forall k :: k in items ==> 0 <= items[k].index < |heap| && heap[items[k].index] == k)
  }

  /** The priorities, by position. */
  ghost function Prios(heap: seq<string>, items: map<string, Item>): (p: seq<int>)
    requires forall i :: 0 <= i < |heap| ==> heap[i] in items
    ensures |p| == |heap|
  {
    seq(|heap|, i requires 0 <= i < |heap| => items[heap[i]].expiration)
  }

  /** The items without their positions. */
  ghost function Entries(items: map<string, Item>): map<string, Entry> {
    map k | k in items :: Entry(items[k].expiration, items[k].hash)
  }

  function SwapHeap(heap: seq<string>, i: nat, j: nat): seq<string>
    requires i < |heap| && j < |heap|
  {
    heap[i := heap[j]][j := heap[i]]
  }

  function SwapItems(heap: seq<string>, items: map<string, Item>, i: nat, j: nat): map<string, Item>
    requires i < |heap| && j < |heap| && heap[i] in items && heap[j] in items
  {
    var x, y := heap[i], heap[j];
    items[y := items[y].(index := i)][x := items[x].(index := j)]
  }

  lemma SwapTail(heap: seq<string>, i: nat, j: nat, n: nat)
    requires i < n && j < n <= |heap|
    ensures SwapHeap(heap, i, j)[n..] == heap[n..]
  {
  }

  lemma SwapKeeps(heap: seq<string>, items: map<string, Item>, i: nat, j: nat)
    requires Indexed(heap, items) && i < |heap| && j < |heap|
    ensures Indexed(SwapHeap(heap, i, j), SwapItems(heap, items, i, j))
    ensures Entries(SwapItems(heap, items, i, j)) == Entries(items)
  {
    SwapIndexed(heap, items, i, j);
    SwapEntries(heap, items, i, j);
  }

  lemma SwapEntries(heap: seq<string>, items: map<string, Item>, i: nat, j: nat)
    requires i < |heap| && j < |heap| && heap[i] in items && heap[j] in items
    ensures Entries(SwapItems(heap, items, i, j)) == Entries(items)
  {
  }

  lemma SwapIndexed(heap: seq<string>, items: map<string, Item>, i: nat, j: nat)
    requires Indexed(heap, items) && i < |heap| && j < |heap|
    ensures Indexed(SwapHeap(heap, i, j), SwapItems(heap, items, i, j))
  {
  }

  lemma SwapPrios(heap: seq<string>, items: map<string, Item>, i: nat, j: nat)
    requires Indexed(heap, items) && i < |heap| && j < |heap|
    ensures Indexed(SwapHeap(heap, i, j), SwapItems(heap, items, i, j))
    ensures Prios(SwapHeap(heap, i, j), SwapItems(heap, items, i, j)) == Swapped(Prios(heap, items), i, j)
  {
    SwapIndexed(heap, items, i, j);
  }

  /** Taking the last item off the heap. */
  lemma PopKeeps(heap: seq<string>, items: map<string, Item>)
    requires Indexed(heap, items) && heap != []
    ensures var n := |heap| - 1;
            && Indexed(heap[..n], items - {heap[n]})
            && Prios(heap[..n], items - {heap[n]}) == Prios(heap, items)[..n]
            && Entries(items - {heap[n]}) == Entries(items) - {heap[n]}
  {
  }

  /** Putting a new item at the end of the heap. */
  lemma PushKeeps(heap: seq<string>, items: map<string, Item>, k: string, e: Entry)
    requires Indexed(heap, items) && k !in items
    ensures var more := items[k := Item(|heap|, e.expiration, e.hash)];
            && Indexed(heap + [k], more)
            && Prios(heap + [k], more) == Prios(heap, items) + [e.expiration]
            && Entries(more) == Entries(items)[k := e]
  {
  }

  /** Changing an item where it is. */
  lemma ChangeKeeps(heap: seq<string>, items: map<string, Item>, k: string, e: Entry)
    requires Indexed(heap, items) && k in items
    ensures var more := items[k := Item(items[k].index, e.expiration, e.hash)];
            && Indexed(heap, more)
            && Prios(heap, more) == Prios(heap, items)[items[k].index := e.expiration]
            && Entries(more) == Entries(items)[k := e]
  {
  }

  lemma PrefixOrdered(p: seq<int>, q: seq<int>, n: nat)
    requires n <= |p| && n <= |q| && p[..n] == q[..n] && Ordered(p, n)
    ensures Ordered(q, n)
  {
    forall c | 0 <= c < n
      ensures Edge(q, c)
    {
      assert Edge(p, c) && p[c] == p[..n][c] && q[c] == q[..n][c];
      if c > 0 {
        assert p[Parent(c)] == p[..n][Parent(c)] && q[Parent(c)] == q[..n][Parent(c)];
      }
    }
  }

  class Tracker {
    var heap: seq<string>
    var items: map<string, Item>
    var lru: seq<string>
    var hash: Hash
    const cfg: Config

    ghost function Contents(): Index
      reads this
    {
      Index(Entries(items), lru, hash)
    }

    /** The priorities by position. */
    ghost function P(): (p: seq<int>)
      requires Indexed(heap, items)
      reads this
      ensures |p| == |heap|
    {
      Prios(heap, items)
    }

    /** The heap is in order, items know their places, and the index is sound. */
    ghost predicate Valid()
      reads this
    {
      Indexed(heap, items) && Ordered(P(), |heap|) && Sound(Contents())
    }

    constructor (cfg: Config)
      ensures Valid() && Contents() == START && this.cfg == cfg
    {
      this.cfg := cfg;
      heap, items, lru, hash := [], map[], [], Zero();
    }

    // The heap.

    method Swap(i: nat, j: nat)
      requires Indexed(heap, items) && i < |heap| && j < |heap|
      modifies this`heap, this`items
      ensures heap == SwapHeap(old(heap), i, j) && Indexed(heap, items)
      ensures Entries(items) == old(Entries(items)) && P() == Swapped(old(P()), i, j)
    {
      SwapKeeps(heap, items, i, j);
      SwapPrios(heap, items, i, j);
      items := SwapItems(heap, items, i, j);
      heap := SwapHeap(heap, i, j);
    }

    /** Whether the item at `i` expires before the one at `j`. */
    predicate Less(i: nat, j: nat)
      requires i < |heap| && j < |heap| && heap[i] in items && heap[j] in items
      reads this
    {
      items[heap[i]].expiration < items[heap[j]].expiration
    }

    /** Moves an item up to where it belongs, in the first `n`. */
    method Up(start: nat, ghost n: nat)
      requires Indexed(heap, items) && start < n <= |heap| && Except(P(), n, start) && Above(P(), n, start)
      modifies this`heap, this`items
      ensures Indexed(heap, items) && |heap| == old(|heap|) && Ordered(P(), n)
      ensures Entries(items) == old(Entries(items)) && heap[n..] == old(heap[n..])
    {
      var j := start;
      while j > 0 && Less(j, (j - 1) / 2)
        invariant Indexed(heap, items) && |heap| == old(|heap|) && 0 <= j < n && Except(P(), n, j) && Above(P(), n, j)
        invariant Entries(items) == old(Entries(items)) && heap[n..] == old(heap[n..])
      {
        StepUp(P(), n, j);
        SwapTail(heap, Parent(j), j, n);
        Swap((j - 1) / 2, j);
        j := (j - 1) / 2;
      }
      AllEdges(P(), n, j);
    }

    /** One step down: the item changes places with its least child if that expires before it. */
    method Sink(i: nat, n: nat) returns (j: nat)
      requires Indexed(heap, items) && i < n <= |heap| && Except(P(), n, i)
      modifies this`heap, this`items
      ensures Indexed(heap, items) && |heap| == old(|heap|) && i <= j < n && Except(P(), n, j)
      ensures if j == i then Above(P(), n, i) && P() == old(P()) else Edge(P(), j)
      ensures Entries(items) == old(Entries(items)) && heap[n..] == old(heap[n..])
    {
      j := 2 * i + 1;
      if j >= n {
        NoChild(P(), n, i);
        return i;
      }
      LeastChildLeast(P(), n, i);
      if j + 1 < n && Less(j + 1, j) {
        j := j + 1;
      }
      assert j == LeastChild(P(), n, i);
      if !Less(j, i) {
        return i;
      }
      StepDown(P(), n, i, j);
      SwapTail(heap, i, j, n);
      Swap(i, j);
    }

    /** Moves an item down to where it belongs, in the first `n`, and says whether it moved. */
    method Down(start: nat, n: nat) returns (moved: bool)
      requires Indexed(heap, items) && start < n <= |heap| && Except(P(), n, start)
      modifies this`heap, this`items
      ensures Indexed(heap, items) && |heap| == old(|heap|)
      ensures if moved then Ordered(P(), n) else Except(P(), n, start) && Above(P(), n, start)
      ensures Entries(items) == old(Entries(items)) && heap[n..] == old(heap[n..])
    {
      var i := start;
      while true
        invariant Indexed(heap, items) && |heap| == old(|heap|) && start <= i < n && Except(P(), n, i)
        invariant i > start ==> Edge(P(), i)
        invariant Entries(items) == old(Entries(items)) && heap[n..] == old(heap[n..])
        decreases n - i
      {
        var j := Sink(i, n);
        if j == i {
          break;
        }
        i := j;
      }
      moved := i > start;
      if moved {
        AllEdges(P(), n, i);
      }
    }

    /** Restores the order of the first `n` after the item at `i` has changed. */
    method Settle(i: nat, n: nat)
      requires Indexed(heap, items) && i < n <= |heap| && Except(P(), n, i)
      modifies this`heap, this`items
      ensures Indexed(heap, items) && |heap| == old(|heap|) && Ordered(P(), n)
      ensures Entries(items) == old(Entries(items)) && heap[n..] == old(heap[n..])
    {
      var moved := Down(i, n);
      if !moved {
        Up(i, n);
      }
    }

    /** Takes the last item off the heap and out of the index. */
    method PopLast()
      requires Indexed(heap, items) && heap != [] && Ordered(P(), |heap| - 1)
      modifies this`heap, this`items, this`lru
      ensures Indexed(heap, items) && Ordered(P(), |heap|) && |heap| == old(|heap|) - 1
      ensures var k := old(heap[|heap| - 1]);
              Entries(items) == old(Entries(items)) - {k} && lru == Drop(old(lru), k)
    {
      var n := |heap| - 1;
      var k := heap[n];
      PopKeeps(heap, items);
      PrefixOrdered(P(), P()[..n], n);
      heap, items, lru := heap[..n], items - {k}, Drop(lru, k);
    }

    /** Takes the item at `i` out. */
    method Remove(i: nat)
      requires Indexed(heap, items) && i < |heap| && Ordered(P(), |heap|)
      modifies this`heap, this`items, this`lru
      ensures Indexed(heap, items) && Ordered(P(), |heap|)
      ensures var k := old(heap[i]); Entries(items) == old(Entries(items)) - {k} && lru == Drop(old(lru), k)
    {
      var n := |heap| - 1;
      ghost var p := P();
      if n != i {
        Swap(i, n);
        Changed(p, P(), n, i);
        Settle(i, n);
        assert heap[n] == heap[n..][0];
      }
      PopLast();
    }

    /** Adds a new item. */
    method Push(k: string, e: Entry)
      requires Indexed(heap, items) && Ordered(P(), |heap|) && k !in items
      modifies this`heap, this`items, this`lru
      ensures Indexed(heap, items) && Ordered(P(), |heap|)
      ensures Entries(items) == old(Entries(items))[k := e] && lru == old(lru) + [k]
    {
      var n := |heap|;
      ghost var p := P();
      PushKeeps(heap, items, k, e);
      heap, items, lru := heap + [k], items[k := Item(n, e.expiration, e.hash)], lru + [k];
      Appended(p, e.expiration);
      Up(n, n + 1);
    }

    /** Changes an item and restores the order. */
    method Change(k: string, e: Entry)
      requires Indexed(heap, items) && Ordered(P(), |heap|) && k in items
      modifies this`heap, this`items
      ensures Indexed(heap, items) && Ordered(P(), |heap|) && Entries(items) == old(Entries(items))[k := e]
    {
      var i := items[k].index;
      ghost var p := P();
      ChangeKeeps(heap, items, k, e);
      items := items[k := Item(i, e.expiration, e.hash)];
      Changed(p, P(), |heap|, i);
      Settle(i, |heap|);
    }

    // The tracker.

    method UpdateTrack(k: string, now: int)
      requires Valid()
      modifies this
      ensures Valid() && Contents() == Load(cfg, old(Contents()), k, now)
    {
      TouchSound(Contents(), k, NextExpiry(cfg.ttl, now), cfg.ttl, cfg.evict);
      if k in items {
        if cfg.ttl != 0 {
          Change(k, Entry(NextExpiry(cfg.ttl, now), items[k].hash));
        }
        if cfg.evict {
          lru := Drop(lru, k) + [k];
        }
      }
    }

    method UnTrack(k: string)
      requires Valid()
      modifies this
      ensures Valid() && Contents() == Untrack(old(Contents()), k)
    {
      UntrackSound(Contents(), k);
      if k in items {
        hash := XorAssign(hash, items[k].hash);
        Remove(items[k].index);
      }
    }

    method TrackKey(k: string, h: Hash, now: int, claim: int)
      requires Valid()
      modifies this
      ensures Valid() && Contents() == Track(old(Contents()), k, Entry(FirstExpiry(cfg.ttl, now, claim), h))
    {
      var e := Entry(FirstExpiry(cfg.ttl, now, claim), h);
      TrackSound(Contents(), k, e);
      if k in items {
        hash := XorAssign(hash, items[k].hash);
        Change(k, e);
      } else {
        Push(k, e);
      }
      hash := XorAssign(hash, h);
    }

    /** Takes out the item that expires first. */
    method PopFirst()
      requires Indexed(heap, items) && heap != [] && Ordered(P(), |heap|)
      modifies this`heap, this`items, this`lru
      ensures Indexed(heap, items) && Ordered(P(), |heap|) && |heap| == old(|heap|) - 1
      ensures var k := old(heap[0]); Entries(items) == old(Entries(items)) - {k} && lru == Drop(old(lru), k)
    {
      var n := |heap| - 1;
      ghost var p := P();
      Swap(0, n);
      if n > 0 {
        Changed(p, P(), n, 0);
        var moved := Down(0, n);
        if !moved {
          AllEdges(P(), n, 0);
        }
        assert heap[n] == heap[n..][0];
      }
      PopLast();
    }

    /** Takes out everything due at `now`. */
    method ExpireDue(now: int)
      requires Valid()
      modifies this
      ensures Valid() && Contents() == Expire(old(Contents()), now)
    {
      while heap != [] && items[heap[0]].expiration <= now
        invariant Valid() && Expire(Contents(), now) == Expire(old(Contents()), now)
        decreases |heap|
      {
        var k := heap[0];
        var h := items[k].hash;
        ExpireOne(Contents(), now, k);
        UntrackSound(Contents(), k);
        PopFirst();
        hash := XorAssign(hash, h);
      }
      ExpireSound(Contents(), now);
      NoneDue(now);
    }

    /** If the first item is not due, none is. */
    lemma NoneDue(now: int)
      requires Valid() && (heap == [] || items[heap[0]].expiration > now)
      ensures forall k :: k in Entries(items) ==> Entries(items)[k].expiration > now
    {
      forall k | k in items
        ensures items[k].expiration > now
      {
        LeastFirst(P(), |heap|, items[k].index);
      }
    }

    // The store.

    method LoadKey(k: string, now: int)
      requires Valid()
      modifies this
      ensures Valid() && Contents() == Load(cfg, old(Contents()), k, now)
    {
      UpdateTrack(k, now);
    }

    /** Writes a token, or refuses it because the store is full. */
    method WriteKey(k: string, h: Hash, now: int, claim: int) returns (ok: bool, changed: bool)
      requires Valid() && (cfg.evict ==> cfg.limit >= 1)
      modifies this
      ensures Valid() && |old(Contents()).entries| == old(|heap|)
      ensures |old(Contents()).entries| >= 1 ==> old(Contents()).lru != []
      ensures Write(cfg, old(Contents()), k, h, now, claim) == if ok then Written(Contents(), changed) else Full
      ensures !ok ==> Contents() == old(Contents())
    {
      ghost var x := Contents();
      HeapSize();
      NonEmpty(x);
      if k in items {
        UpdateTrack(k, now);
        assert k in Contents().entries;
        if items[k].hash == h {
          return true, false;
        }
      } else if |heap| >= cfg.limit {
        if !cfg.evict {
          return false, false;
        }
        UnTrack(lru[0]);
      }
      TrackKey(k, h, now, claim);
      return true, true;
    }

    /** The heap has as many items as there are entries. */
    lemma HeapSize()
      requires Valid()
      ensures |Contents().entries| == |heap|
    {
      KeyCount(heap, items);
      assert Entries(items).Keys == items.Keys;
      assert |Entries(items)| == |Entries(items).Keys| && |items| == |items.Keys|;
    }
  }

  lemma {:induction false} KeyCount(heap: seq<string>, items: map<string, Item>)
    requires Indexed(heap, items)
    ensures |items.Keys| == |heap|
    decreases |heap|
  {
    if heap == [] {
      assert items.Keys == {};
    } else {
      var n := |heap| - 1;
      PopKeeps(heap, items);
      KeyCount(heap[..n], items - {heap[n]});
      assert items.Keys == (items - {heap[n]}).Keys + {heap[n]};
    }
  }

  lemma Appended(p: seq<int>, x: int)
    requires Ordered(p, |p|)
    ensures Except(p + [x], |p| + 1, |p|) && Above(p + [x], |p| + 1, |p|)
  {
    forall c | 0 < c < |p|
      ensures (p + [x])[Parent(c)] <= (p + [x])[c]
    {
      assert Edge(p, c);
    }
  }
}
