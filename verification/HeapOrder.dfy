/** A binary heap as the sequence of its priorities: what one swap of a sift does to the order. */
module HeapOrder {

  function Parent(c: nat): nat
    requires c > 0
  {
    (c - 1) / 2
  }

  predicate Edge(p: seq<int>, c: nat)
    requires c < |p|
  {
    c == 0 || p[Parent(c)] <= p[c]
  }

  /** No entry among the first `n` is less than its parent. */
  predicate Ordered(p: seq<int>, n: nat)
    requires n <= |p|
  {
    forall c :: 0 <= c < n ==> Edge(p, c)
  }

  /** The entries below `i` are not less than it. */
  predicate Above(p: seq<int>, n: nat, i: nat)
    requires n <= |p|
  {
    forall c :: 0 < c < n && Parent(c) == i ==> p[i] <= p[c]
  }

  /** In order but for the entry at `i`: the others are, and what is below `i` is not less than what is above it. */
  predicate Except(p: seq<int>, n: nat, i: nat)
    requires n <= |p| && i < n
  {
    && (forall c :: 0 < c < n && c != i && Parent(c) != i ==> p[Parent(c)] <= p[c])
    && (i > 0 ==> forall c :: 0 < c < n && Parent(c) == i ==> p[Parent(i)] <= p[c])
  }

  function Swapped(p: seq<int>, i: nat, j: nat): (q: seq<int>)
    requires i < |p| && j < |p|
    ensures |q| == |p|
  {
    p[i := p[j]][j := p[i]]
  }

  lemma AllEdges(p: seq<int>, n: nat, i: nat)
    requires n <= |p| && i < n && Except(p, n, i) && Edge(p, i) && Above(p, n, i)
    ensures Ordered(p, n)
  {
  }

  /** Changing one priority of an ordered heap leaves it in order but for that entry. */
  lemma Changed(p: seq<int>, q: seq<int>, n: nat, i: nat)
    requires n <= |p| && n <= |q| && i < n && Ordered(p, n)
    requires forall c :: 0 <= c < n && c != i ==> q[c] == p[c]
    ensures Except(q, n, i)
  {
    forall c | 0 < c < n && c != i && Parent(c) != i
      ensures q[Parent(c)] <= q[c]
    {
      assert Edge(p, c);
    }
    forall c | 0 < c < n && Parent(c) == i && i > 0
      ensures q[Parent(i)] <= q[c]
    {
      assert Edge(p, c) && Edge(p, i);
    }
  }

  /** Sifting up: an entry less than its parent changes places with it. */
  lemma StepUp(p: seq<int>, n: nat, j: nat)
    requires n <= |p| && 0 < j < n && Except(p, n, j) && Above(p, n, j) && p[j] < p[Parent(j)]
    ensures var q := Swapped(p, Parent(j), j); Except(q, n, Parent(j)) && Above(q, n, Parent(j))
  {
    var i := Parent(j);
    var q := Swapped(p, i, j);
    forall c | 0 < c < n && Parent(c) == i
      ensures q[i] <= q[c]
    {
    }
    forall c | 0 < c < n && c != i && Parent(c) != i
      ensures q[Parent(c)] <= q[c]
    {
    }
    forall c | 0 < c < n && Parent(c) == i && i > 0
      ensures q[Parent(i)] <= q[c]
    {
      assert p[Parent(i)] <= p[i];
    }
  }

  /** Sifting down: an entry greater than a child changes places with its least one. */
  lemma StepDown(p: seq<int>, n: nat, i: nat, j: nat)
    requires n <= |p| && i < n && 0 < j < n && Parent(j) == i && Except(p, n, i) && p[j] < p[i]
    requires forall c :: 0 < c < n && Parent(c) == i ==> p[j] <= p[c]
    ensures var q := Swapped(p, i, j); Except(q, n, j) && Edge(q, j)
  {
    var q := Swapped(p, i, j);
    forall c | 0 < c < n && c != j && Parent(c) != j
      ensures q[Parent(c)] <= q[c]
    {
      if c == i {
        assert p[Parent(i)] <= p[j];
      }
    }
    forall c | 0 < c < n && Parent(c) == j
      ensures q[Parent(j)] <= q[c]
    {
      assert p[j] <= p[c];
    }
  }

  function LeastChild(p: seq<int>, n: nat, i: nat): nat
    requires 2 * i + 1 < n <= |p|
  {
    if 2 * i + 2 < n && p[2 * i + 2] < p[2 * i + 1] then 2 * i + 2 else 2 * i + 1
  }

  lemma LeastChildLeast(p: seq<int>, n: nat, i: nat)
    requires 2 * i + 1 < n <= |p|
    ensures var j := LeastChild(p, n, i);
            && 0 < j < n && Parent(j) == i && (forall c :: 0 < c < n && Parent(c) == i ==> p[j] <= p[c])
            && (p[i] <= p[j] ==> Above(p, n, i))
  {
  }

  lemma NoChild(p: seq<int>, n: nat, i: nat)
    requires n <= |p| && 2 * i + 1 >= n
    ensures Above(p, n, i)
  {
  }

  /** The first entry of an ordered heap is the least. */
  lemma {:induction false} LeastFirst(p: seq<int>, n: nat, c: nat)
    requires n <= |p| && c < n && Ordered(p, n)
    ensures p[0] <= p[c]
    decreases c
  {
    if c > 0 {
      assert Edge(p, c);
      LeastFirst(p, n, Parent(c));
    }
  }
}
