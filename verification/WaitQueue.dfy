/** The queue of pull requests as the linked list the server keeps. */
module WaitQueueList {
  import opened Basics
  import opened WaitQueueSpec

  class WaitingRequest {
    const reply: string
    const group: Option<int>
    var next: WaitingRequest?
    var n: int
    var d: int

    constructor (reply: string, group: Option<int>, n: int)
      ensures Value() == Req(reply, group, n, 0) && next == null
    {
      this.reply, this.group := reply, group;
      this.n, this.d, next := n, 0, null;
    }

    function Value(): Req
      reads this`n, this`d
    {
      Req(reply, group, n, d)
    }

    method Serve()
      modifies this`n, this`d
      ensures Value() == Served(old(Value()))
    {
      d := d + 1;
      n := n - 1;
    }

    function Rank(): int {
      if group.None? then MAX_INT32 else group.value
    }
  }

  /** The node at `i`, or null past either end. */
  ghost function At(nodes: seq<WaitingRequest>, i: int): WaitingRequest? {
    if 0 <= i < |nodes| then nodes[i] else null
  }

  ghost predicate Chained(nodes: seq<WaitingRequest>)
    reads nodes`next
  {
    forall i {:trigger nodes[i].next} :: 0 <= i < |nodes| ==> nodes[i].next == At(nodes, i + 1)
  }

  /** A chain visits no request twice. */
  lemma {:induction false} ChainedApart(nodes: seq<WaitingRequest>, i: nat, j: nat)
    requires Chained(nodes) && i < |nodes| && j < |nodes| && i != j
    ensures nodes[i] != nodes[j]
    decreases |nodes| - i
  {
    assert nodes[i].next == At(nodes, i + 1) && nodes[j].next == At(nodes, j + 1);
    if i + 1 < |nodes| && j + 1 < |nodes| {
      ChainedApart(nodes, i + 1, j + 1);
    }
  }

  /** Only place `i` holds the request at place `i`. */
  lemma ChainedOnce(nodes: seq<WaitingRequest>, i: nat)
    requires Chained(nodes) && i < |nodes|
    ensures forall j :: 0 <= j < |nodes| && nodes[j] == nodes[i] ==> j == i
  {
    forall j | 0 <= j < |nodes| && j != i
      ensures nodes[j] != nodes[i]
    {
      ChainedApart(nodes, i, j);
    }
  }

  ghost predicate Shows(nodes: seq<WaitingRequest>, view: seq<Req>)
    reads nodes`n, nodes`d
  {
    |view| == |nodes| && forall i :: 0 <= i < |nodes| ==> view[i] == nodes[i].Value()
  }

  function Put<T>(q: seq<T>, i: nat, x: T): seq<T>
    requires i <= |q|
  {
    q[..i] + [x] + q[i..]
  }

  lemma CutFirst<T>(q: seq<T>)
    requires q != []
    ensures Cut(q, 0) == q[1..]
  {
  }

  /** All links but the one into place `i` are as in `nodes`. */
  ghost predicate ChainedBut(nodes: seq<WaitingRequest>, i: nat)
    reads nodes`next
  {
    forall j {:trigger nodes[j].next} :: 0 <= j < |nodes| && j + 1 != i ==> nodes[j].next == At(nodes, j + 1)
  }

  lemma PutIndex<T>(q: seq<T>, i: nat, x: T, j: nat)
    requires i <= |q| && j <= |q|
    ensures Put(q, i, x)[j] == if j < i then q[j] else if j == i then x else q[j - 1]
  {
  }

  lemma PutLast<T>(q: seq<T>, x: T)
    ensures Put(q, |q|, x) == q + [x]
  {
  }

  lemma PutChained(nodes: seq<WaitingRequest>, i: nat, wr: WaitingRequest)
    requires i <= |nodes| && ChainedBut(nodes, i) && wr.next == At(nodes, i) && (i > 0 ==> nodes[i - 1].next == wr)
    ensures Chained(Put(nodes, i, wr))
  {
    var r := Put(nodes, i, wr);
    forall j | 0 <= j < |r|
      ensures r[j].next == At(r, j + 1)
    {
      PutIndex(nodes, i, wr, j);
      if j + 1 < |r| {
        PutIndex(nodes, i, wr, j + 1);
      }
    }
  }

  lemma PutShows(nodes: seq<WaitingRequest>, view: seq<Req>, i: nat, wr: WaitingRequest)
    requires i <= |nodes| && Shows(nodes, view)
    ensures Shows(Put(nodes, i, wr), Put(view, i, wr.Value()))
  {
    forall j | 0 <= j <= |nodes|
      ensures Put(view, i, wr.Value())[j] == Put(nodes, i, wr)[j].Value()
    {
      PutIndex(nodes, i, wr, j);
      PutIndex(view, i, wr.Value(), j);
    }
  }

  lemma CutOnce(nodes: seq<WaitingRequest>, i: nat)
    requires Chained(nodes) && i < |nodes|
    ensures nodes[i] !in Cut(nodes, i)
  {
    ChainedOnce(nodes, i);
  }

  /** A request is the last exactly when nothing follows it. */
  lemma LastOrNot(nodes: seq<WaitingRequest>, i: nat)
    requires Chained(nodes) && i < |nodes|
    ensures nodes[i] == At(nodes, |nodes| - 1) <==> i == |nodes| - 1
    ensures nodes[i].next == null <==> i == |nodes| - 1
  {
    ChainedOnce(nodes, i);
  }

  lemma CutChained(nodes: seq<WaitingRequest>, i: nat)
    requires i < |nodes| && ChainedBut(nodes, i) && (i > 0 ==> nodes[i - 1].next == At(nodes, i + 1))
    ensures Chained(Cut(nodes, i))
  {
  }

  lemma CutShows(nodes: seq<WaitingRequest>, view: seq<Req>, i: nat)
    requires i < |nodes| && Shows(nodes, view)
    ensures Shows(Cut(nodes, i), Cut(view, i))
  {
  }

  class WaitQueue {
    var n: int
    const max: nat
    var head: WaitingRequest?
    var tail: WaitingRequest?
    ghost var nodes: seq<WaitingRequest>
    ghost var view: seq<Req>

    /** `nodes` are the requests reached from `head`, each once, `tail` is the last of them,
        and `view` is what they hold.
     */
    ghost predicate Linked()
      reads this, nodes
    {
      && Chained(nodes) && Shows(nodes, view)
      && head == At(nodes, 0) && tail == At(nodes, |nodes| - 1)
    }

    ghost predicate Valid()
      reads this, nodes
    {
      Linked() && n == |nodes| <= max
    }

    constructor (max: nat)
      ensures Valid() && view == [] && this.max == max
    {
      this.max := max;
      n, head, tail, nodes, view := 0, null, null, [], [];
    }

    /** Records that `wr` was linked in at place `i`. */
    ghost method NotePut(i: nat, wr: WaitingRequest)
      requires i <= |nodes| && Shows(nodes, view)
      requires ChainedBut(nodes, i) && wr.next == At(nodes, i) && (i > 0 ==> nodes[i - 1].next == wr)
      modifies this`nodes, this`view
      ensures nodes == Put(old(nodes), i, wr) && view == Put(old(view), i, wr.Value())
      ensures Chained(nodes) && Shows(nodes, view)
      ensures |nodes| == |old(nodes)| + 1 && At(nodes, 0) == (if i == 0 then wr else At(old(nodes), 0))
      ensures At(nodes, |nodes| - 1) == if i == |old(nodes)| then wr else At(old(nodes), |old(nodes)| - 1)
    {
      PutChained(nodes, i, wr);
      PutShows(nodes, view, i, wr);
      nodes, view := Put(nodes, i, wr), Put(view, i, wr.Value());
    }

    /** Records that the request at place `i` was unlinked. */
    ghost method NoteCut(i: nat)
      requires i < |nodes| && Shows(nodes, view)
      requires ChainedBut(nodes, i) && (i > 0 ==> nodes[i - 1].next == At(nodes, i + 1))
      modifies this`nodes, this`view
      ensures nodes == Cut(old(nodes), i) && view == Cut(old(view), i)
      ensures Chained(nodes) && Shows(nodes, view)
      ensures |nodes| == |old(nodes)| - 1 && At(nodes, 0) == (if i == 0 then At(old(nodes), 1) else At(old(nodes), 0))
      ensures At(nodes, |nodes| - 1) == At(old(nodes), if i == |nodes| then |nodes| - 1 else |nodes|)
    {
      CutChained(nodes, i);
      CutShows(nodes, view, i);
      nodes, view := Cut(nodes, i), Cut(view, i);
    }

    method IsFull() returns (full: bool)
      requires Valid()
      ensures full <==> |view| == max
    {
      full := n == max;
    }

    /** Appends a request; refused when the queue is full. */
    method Add(wr: WaitingRequest) returns (ok: bool)
      requires Valid() && wr !in nodes
      modifies this, nodes`next, wr`next
      ensures Valid() && ok == (|old(nodes)| < max)
      ensures nodes == if ok then old(nodes) + [wr] else old(nodes)
      ensures view == if ok then old(view) + [wr.Value()] else old(view)
    {
      ok := n != max;
      if ok {
        if head == null {
          head := wr;
        } else {
          ChainedOnce(nodes, |nodes| - 1);
          tail.next := wr;
        }
        tail := wr;
        wr.next := null;
        n := n + 1;
        PutLast(nodes, wr);
        PutLast(view, wr.Value());
        NotePut(|nodes|, wr);
      }
    }

    /** The last request whose priority number is not larger. */
    method FindPlace(priority: int) returns (prev: WaitingRequest?, ghost i: nat)
      requires Linked()
      ensures i == Place(view, priority) <= |nodes| && prev == At(nodes, i - 1)
    {
      prev := null;
      var current := head;
      i := 0;
      while current != null
        invariant i <= |nodes| && current == At(nodes, i) && prev == At(nodes, i - 1)
        invariant forall j :: 0 <= j < i ==> Priority(view[j]) <= priority
        decreases |nodes| - i
      {
        if current.Rank() > priority {
          break;
        }
        prev := current;
        current := current.next;
        i := i + 1;
      }
      PlaceUnique(view, priority, i);
    }

    /** Links `wr` in behind the requests whose priority number is not larger. */
    method InsertAtPosition(wr: WaitingRequest)
      requires Linked() && nodes != [] && wr !in nodes
      modifies this`head, this`tail, this`nodes, this`view, nodes`next, wr`next
      ensures Linked() && view == Insert(old(view), wr.Value()) && |nodes| == |old(nodes)| + 1
    {
      var prev, i := FindPlace(wr.Rank());
      LinkIn(wr, prev, i);
    }

    method LinkIn(wr: WaitingRequest, prev: WaitingRequest?, ghost i: nat)
      requires Linked() && nodes != [] && wr !in nodes && i <= |nodes| && prev == At(nodes, i - 1)
      modifies this`head, this`tail, this`nodes, this`view, nodes`next, wr`next
      ensures Linked() && |nodes| == |old(nodes)| + 1 && view == Put(old(view), i, wr.Value())
    {
      if prev == null {
        wr.next := head;
        head := wr;
        assert ChainedBut(nodes, 0);
        NotePut(0, wr);
      } else {
        ChainedOnce(nodes, i - 1);
        wr.next := prev.next;
        prev.next := wr;
        if wr.next == null {
          tail := wr;
        }
        assert ChainedBut(nodes, i);
        NotePut(i, wr);
      }
    }

    method InsertSorted(wr: WaitingRequest)
      requires Linked() && wr !in nodes
      modifies this`head, this`tail, this`nodes, this`view, nodes`next, wr`next
      ensures Linked() && view == Insert(old(view), wr.Value()) && |nodes| == |old(nodes)| + 1
    {
      if head == null {
        head := wr;
        tail := wr;
        wr.next := null;
        NotePut(0, wr);
      } else {
        InsertAtPosition(wr);
      }
    }

    /** Adds a request behind those of its priority; refused when the queue is full. */
    method AddPrioritized(wr: WaitingRequest) returns (ok: bool)
      requires Valid() && wr !in nodes
      modifies this, nodes`next, wr`next
      ensures Valid() && ok == (|old(view)| < max)
      ensures view == if ok then Insert(old(view), wr.Value()) else old(view)
    {
      ok := n != max;
      if ok {
        InsertSorted(wr);
        n := n + 1;
      }
    }

    /** Leads past the request at place `i`. */
    method Bypass(pre: WaitingRequest?, wr: WaitingRequest, ghost i: nat)
      requires Chained(nodes) && head == At(nodes, 0) && i < |nodes| && nodes[i] == wr && pre == At(nodes, i - 1)
      modifies this`head, (if i > 0 then {nodes[i - 1]} else {})`next
      ensures ChainedBut(nodes, i) && (i > 0 ==> nodes[i - 1].next == At(nodes, i + 1))
      ensures head == (if i == 0 then At(nodes, 1) else old(head)) && wr.next == old(wr.next)
    {
      ChainedOnce(nodes, i);
      if pre != null {
        ChainedOnce(nodes, i - 1);
        pre.next := wr.next;
      } else if wr == head {
        head := wr.next;
      }
    }

    /** Leads past the request at place `i` and records it. */
    method Detach(pre: WaitingRequest?, wr: WaitingRequest, ghost i: nat)
      requires Chained(nodes) && Shows(nodes, view) && head == At(nodes, 0)
      requires i < |nodes| && nodes[i] == wr && pre == At(nodes, i - 1)
      modifies this`head, this`nodes, this`view, nodes`next
      ensures Chained(nodes) && Shows(nodes, view) && head == At(nodes, 0)
      ensures nodes == Cut(old(nodes), i) && view == Cut(old(view), i) && |nodes| == |old(nodes)| - 1
      ensures wr.next == old(wr.next) && wr !in nodes
      ensures At(nodes, |nodes| - 1) == At(old(nodes), if i == |nodes| then |nodes| - 1 else |nodes|)
    {
      CutOnce(nodes, i);
      Bypass(pre, wr, i);
      NoteCut(i);
    }

    /** Counts `wr` out, after it was led past; the last request has a new one in its place. */
    method CountOut(pre: WaitingRequest?, wr: WaitingRequest)
      modifies this`tail, this`n
      ensures n == old(n) - 1
      ensures tail == if wr != old(tail) then old(tail) else if wr.next == null then pre else wr.next
    {
      if wr == tail {
        if wr.next == null {
          tail := pre;
        } else {
          tail := wr.next;
        }
      }
      n := n - 1;
    }

    /** Unlinks `wr`, which follows `pre`, or is the head when `pre` is null. */
    method Remove(pre: WaitingRequest?, wr: WaitingRequest, ghost i: nat)
      requires Valid() && i < |nodes| && nodes[i] == wr && pre == At(nodes, i - 1)
      modifies this, nodes`next
      ensures Valid() && nodes == Cut(old(nodes), i) && view == Cut(old(view), i)
      ensures wr.next == old(wr.next) && wr !in nodes
    {
      LastOrNot(nodes, i);
      Detach(pre, wr, i);
      CountOut(pre, wr);
    }

    /** Moves the head to the end of the queue. */
    method Cycle()
      requires Valid()
      modifies this, nodes`next
      ensures Valid()
      ensures view == if old(view) == [] then [] else old(view)[1..] + [old(view)[0]]
    {
      var wr := head;
      if wr != null {
        CutFirst(view);
        Remove(null, wr, 0);
        var _ := Add(wr);
      }
    }

    /** Serves the head once, without moving it. */
    method ServeHead(wr: WaitingRequest)
      requires Valid() && wr == head
      modifies wr`n, wr`d, this`view
      ensures Valid() && wr.Value() == Served(old(wr.Value())) && view == old(view)[0 := wr.Value()]
    {
      ChainedOnce(nodes, 0);
      wr.Serve();
      view := view[0 := wr.Value()];
    }

    /** Serves the head once under the plain policy. */
    method PopHead() returns (wr: WaitingRequest?)
      requires Valid()
      modifies this, nodes
      ensures Valid() && wr == At(old(nodes), 0)
      ensures wr == null ==> view == old(view)
      ensures wr != null ==> wr.Value() == Served(old(view)[0]) && view == Pop(old(view))
    {
      wr := head;
      if wr != null {
        ServeHead(wr);
        assert view[1..] == old(view)[1..];
        if wr.n > 0 && n > 1 {
          Cycle();
        } else if wr.n <= 0 {
          Remove(null, wr, 0);
        } else {
          assert old(view)[1..] == [];
        }
      }
    }

    /** Takes the head off a longer list without counting it out. */
    method Unhook(wr: WaitingRequest)
      requires Linked() && |nodes| > 1 && wr == head
      modifies this`head, this`nodes, this`view, wr`next
      ensures Linked() && view == old(view)[1..] && nodes == old(nodes)[1..] && wr !in nodes
    {
      ChainedOnce(nodes, 0);
      head := head.next;
      CutFirst(nodes);
      CutFirst(view);
      NoteCut(0);
      assert view == old(view)[1..] && nodes == old(nodes)[1..];
      assert wr !in nodes;
      wr.next := null;
    }

    /** Moves the head of a longer list behind the requests of its priority. */
    method Requeue(wr: WaitingRequest)
      requires Valid() && |nodes| > 1 && wr == head
      modifies this, nodes`next
      ensures Valid() && view == Insert(old(view)[1..], wr.Value())
    {
      if wr.next == null {
        assert false;
      }
      Unhook(wr);
      InsertAtPosition(wr);
    }

    /** Serves the head once under the prioritized policy. */
    method PopAndRequeueHead() returns (wr: WaitingRequest?)
      requires Valid()
      modifies this, nodes
      ensures Valid() && wr == At(old(nodes), 0)
      ensures wr == null ==> view == old(view)
      ensures wr != null ==> wr.Value() == Served(old(view)[0]) && view == PopAndRequeue(old(view))
    {
      wr := head;
      if wr == null {
        return;
      }
      ServeHead(wr);
      assert view[1..] == old(view)[1..];
      if wr.n > 0 && n > 1 {
        Requeue(wr);
      } else if wr.n <= 0 {
        Remove(null, wr, 0);
      }
    }
  }
}
