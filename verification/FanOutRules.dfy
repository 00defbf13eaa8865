/** Who is sent a message and who is not, said by the kinds of the connections, for every way a message can be fanned out. */
module FanOutRules {
  import opened Basics
  import opened FanOut

  /** A copy went to the connection. */
  predicate Copied(o: Outcome, conn: Conn) { exists i :: 0 <= i < |o.remote| && o.remote[i].sub.client == conn }

  /** The connection has a plain subscription that matched. */
  predicate Matched(psubs: seq<Sub>, conn: Conn) { exists j :: 0 <= j < |psubs| && psubs[j].client == conn }

  /** A queue group settled on a member reached through the connection. */
  predicate Picked(done: seq<Group>, conn: Conn) {
    exists g :: 0 <= g < |done| && done[g].choice.Elsewhere? && done[g].choice.sub.client == conn
  }

  /** A linear message that was accepted here goes no further. */
  predicate CutOff(c: Source, o: Outcome) { c.linear && (AnyAccepted(o.plain) || AnyHere(o.done)) }

  /** Who hears of a plain match, by where the message comes from and where it would go. */
  predicate Hears(c: Source, to: Conn) {
    match (c.conn.kind, to.kind)
    case (Router, Router) => c.routeToRoute
    case (_, Router) => !c.spoke || c.routeToRoute
    case (Router, Leaf) => to.hub || c.serviceReply
    case (_, Leaf) => to != c.conn
    case _ => false
  }

  /** The message comes from the leaf cluster at the other end. */
  predicate SameCluster(c: Source, to: Conn) { to.kind == Leaf && c.leafOrigin != "" && c.leafOrigin == to.cluster }

  // Both ways.

  lemma {:induction false} RemotesNamed(c: Source, psubs: seq<Sub>, n: nat, conn: Conn)
    requires n <= |psubs|
    ensures Named(RemotesUpTo(c, psubs, n), conn) <==> Matched(psubs[..n], conn) && Hears(c, conn)
  {
    if n > 0 {
      var s, before := psubs[n - 1], RemotesUpTo(c, psubs, n - 1);
      RemotesNamed(c, psubs, n - 1, conn);
      assert Matched(psubs[..n], conn) <==> Matched(psubs[..n - 1], conn) || s.client == conn by {
        assert psubs[..n] == psubs[..n - 1] + [s];
        MatchedMore(psubs[..n - 1], s, conn);
      }
      if PlainRemote(c, s) {
        NamedMore(before + [s], conn);
        assert (before + [s])[..|before|] == before;
      }
    }
  }

  lemma MatchedMore(psubs: seq<Sub>, s: Sub, conn: Conn)
    ensures Matched(psubs + [s], conn) <==> Matched(psubs, conn) || s.client == conn
  {
    var all := psubs + [s];
    assert all[|psubs|] == s;
    if Matched(psubs, conn) {
      var j :| 0 <= j < |psubs| && psubs[j].client == conn;
      assert all[j].client == conn;
    }
  }

  lemma {:induction false} ElsewheresNamed(done: seq<Group>, conn: Conn)
    ensures Named(Elsewheres(done), conn) <==> Picked(done, conn)
  {
    if done != [] {
      var n := |done| - 1;
      var ch, before := done[n].choice, Elsewheres(done[..n]);
      ElsewheresNamed(done[..n], conn);
      PickedMore(done, conn);
      if ch.Elsewhere? {
        NamedMore(before + [ch.sub], conn);
        assert (before + [ch.sub])[..|before|] == before;
      } else {
        assert before + [] == before;
      }
    }
  }

  lemma PickedMore(done: seq<Group>, conn: Conn)
    requires done != []
    ensures var n := |done| - 1;
            Picked(done, conn) <==> Picked(done[..n], conn) || (done[n].choice.Elsewhere? && done[n].choice.sub.client == conn)
  {
    var n := |done| - 1;
    if Picked(done[..n], conn) {
      var g :| 0 <= g < n && done[..n][g].choice.Elsewhere? && done[..n][g].choice.sub.client == conn;
      assert done[g].choice.Elsewhere?;
    }
    if Picked(done, conn) {
      var g :| 0 <= g < |done| && done[g].choice.Elsewhere? && done[g].choice.sub.client == conn;
      assert g < n ==> done[..n][g].choice.Elsewhere?;
    }
  }

  lemma NamedBoth(a: seq<Sub>, b: seq<Sub>, conn: Conn)
    ensures Named(a + b, conn) <==> Named(a, conn) || Named(b, conn)
  {
    if Named(a, conn) {
      var i :| 0 <= i < |a| && a[i].client == conn;
      assert (a + b)[i].client == conn;
    }
    if Named(b, conn) {
      var i :| 0 <= i < |b| && b[i].client == conn;
      assert (a + b)[|a| + i].client == conn;
    }
  }

  /** The copies are the targets that are not echoes. */
  lemma {:induction false} CopiesOf(c: Source, ts: seq<Target>, conn: Conn)
    ensures AmongTargets(Copies(c, ts), conn) <==> AmongTargets(ts, conn) && !SameCluster(c, conn)
    decreases |ts|
  {
    if ts != [] {
      var n := |ts| - 1;
      CopiesOf(c, ts[..n], conn);
      AmongMore(ts[..n], ts[n], conn);
      assert ts[..n] + [ts[n]] == ts;
      if !Echo(c, ts[n].sub) {
        AmongMore(Copies(c, ts[..n]), ts[n], conn);
      } else {
        assert Copies(c, ts[..n]) + [] == Copies(c, ts[..n]);
      }
    }
  }

  predicate AmongTargets(ts: seq<Target>, conn: Conn) { exists i :: 0 <= i < |ts| && ts[i].sub.client == conn }

  lemma AmongMore(ts: seq<Target>, t: Target, conn: Conn)
    ensures AmongTargets(ts + [t], conn) <==> AmongTargets(ts, conn) || t.sub.client == conn
  {
    var all := ts + [t];
    assert all[|ts|] == t;
    if AmongTargets(ts, conn) {
      var i :| 0 <= i < |ts| && ts[i].sub.client == conn;
      assert all[i].sub.client == conn;
    }
  }

  lemma {:induction false} ListedAmong(ts: seq<Target>, conn: Conn)
    ensures Listed(ts, conn) <==> AmongTargets(ts, conn)
    decreases |ts|
  {
    if ts != [] {
      ListedAmong(ts[1..], conn);
      if AmongTargets(ts[1..], conn) {
        var i :| 0 <= i < |ts[1..]| && ts[1..][i].sub.client == conn;
        assert ts[i + 1].sub.client == conn;
      }
      if AmongTargets(ts, conn) {
        var i :| 0 <= i < |ts| && ts[i].sub.client == conn;
        assert i > 0 ==> ts[1..][i - 1].sub.client == conn;
      }
    }
  }

  lemma SentAmong(sends: seq<Attempt>, ts: seq<Target>, conn: Conn)
    requires SentTo(sends, ts)
    ensures (exists i :: 0 <= i < |sends| && sends[i].sub.client == conn) <==> AmongTargets(ts, conn)
  {
    forall i | 0 <= i < |ts|
      ensures sends[i].sub == ts[i].sub
    {
      SentAt(sends, ts, i);
    }
  }

  lemma NamedExactly(c: Source, psubs: seq<Sub>, done: seq<Group>, conn: Conn)
    ensures Named(RemotesOf(c, psubs) + Elsewheres(done), conn) <==>
            (Matched(psubs, conn) && Hears(c, conn)) || Picked(done, conn)
  {
    NamedBoth(RemotesOf(c, psubs), Elsewheres(done), conn);
    RemotesNamed(c, psubs, |psubs|, conn);
    assert psubs[..|psubs|] == psubs;
    ElsewheresNamed(done, conn);
  }

  lemma AmongExactly(c: Source, psubs: seq<Sub>, done: seq<Group>, conn: Conn)
    ensures AmongTargets(Remotes(c, psubs, done), conn) <==>
            !SameCluster(c, conn) && ((Matched(psubs, conn) && Hears(c, conn)) || Picked(done, conn))
  {
    var subs := RemotesOf(c, psubs) + Elsewheres(done);
    NamedExactly(c, psubs, done, conn);
    TargetsExact(subs, conn);
    ListedAmong(Targets(subs), conn);
    CopiesOf(c, Targets(subs), conn);
  }

  /** A connection gets a copy if and only if the message was not cut off, does not come from its leaf cluster, and the
      connection hears of a plain match or a queue group settled on it.
   */
  lemma CopyExactly(c: Source, psubs: seq<Sub>, groups: seq<seq<Sub>>, o: Outcome, conn: Conn)
    requires Fanned(c, psubs, groups, o)
    ensures Copied(o, conn) <==>
            !CutOff(c, o) && !SameCluster(c, conn) && ((Matched(psubs, conn) && Hears(c, conn)) || Picked(o.done, conn))
  {
    if CutOff(c, o) {
      assert o.remote == [];
    } else {
      assert SentTo(o.remote, Remotes(c, psubs, o.done));
      SentAmong(o.remote, Remotes(c, psubs, o.done), conn);
      AmongExactly(c, psubs, o.done, conn);
    }
  }

  // What follows.

  /** A message from a route goes on to another route only if that was asked for, or a queue group settled on it. */
  lemma RouteToRoute(c: Source, psubs: seq<Sub>, groups: seq<seq<Sub>>, o: Outcome, conn: Conn)
    requires Fanned(c, psubs, groups, o) && c.conn.kind == Router && conn.kind == Router && Copied(o, conn)
    ensures c.routeToRoute || Picked(o.done, conn)
  {
    CopyExactly(c, psubs, groups, o, conn);
  }

  /** Every route with a match gets a copy of the message of a client, unless it was cut off. */
  lemma ClientToRoutes(c: Source, psubs: seq<Sub>, groups: seq<seq<Sub>>, o: Outcome, conn: Conn)
    requires Fanned(c, psubs, groups, o) && c.conn.kind == Client && !c.spoke && conn.kind == Router
    requires Matched(psubs, conn) && !CutOff(c, o)
    ensures Copied(o, conn)
  {
    CopyExactly(c, psubs, groups, o, conn);
  }

  /** A leaf connection is not sent its own message, unless its cluster has no name and a queue group settled on it. */
  lemma NoEcho(c: Source, psubs: seq<Sub>, groups: seq<seq<Sub>>, o: Outcome)
    requires Fanned(c, psubs, groups, o) && c.conn.kind == Leaf && c.leafOrigin == c.conn.cluster && Copied(o, c.conn)
    ensures c.conn.cluster == "" && Picked(o.done, c.conn)
  {
    CopyExactly(c, psubs, groups, o, c.conn);
  }

  /** A message from a route reaches a leaf connection only if that is a hub, the message is the reply to a service, or a
      queue group settled on it.
   */
  lemma RouteToLeaf(c: Source, psubs: seq<Sub>, groups: seq<seq<Sub>>, o: Outcome, conn: Conn)
    requires Fanned(c, psubs, groups, o) && c.conn.kind == Router && conn.kind == Leaf && Copied(o, conn)
    ensures conn.hub || c.serviceReply || Picked(o.done, conn)
  {
    CopyExactly(c, psubs, groups, o, conn);
  }

  /** The message does not come from the leaf cluster that a routed member stands for. */
  predicate NotBack(c: Source, s: Sub) { s.origin == "" || c.leafOrigin == "" || c.leafOrigin != s.origin }

  /** Which members of a queue group elsewhere may serve the message, by where it comes from and where it would go. */
  predicate MayServe(c: Source, s: Sub) {
    match (c.conn.kind, s.client.kind)
    case (Router, Router) => true
    case (Router, Leaf) => !SameCluster(c, s.client)
    case (Leaf, Leaf) => !SameCluster(c, s.client)
    case (Leaf, Router) => !c.spoke && NotBack(c, s)
    case (Client, Leaf) => true
    case (_, Router) => NotBack(c, s)
    case (_, Leaf) => NotBack(c, s)
    case _ => false
  }

  /** A queue group settles only on a member that may serve the message.  It goes without one exactly as `AskedOnly` says. */
  lemma SettlesOnServer(c: Source, psubs: seq<Sub>, groups: seq<seq<Sub>>, o: Outcome, conn: Conn)
    requires Fanned(c, psubs, groups, o) && Picked(o.done, conn)
    ensures exists g, s :: 0 <= g < |groups| && s in Members(groups[g]) && s.client == conn && MayServe(c, s)
  {
    var g :| 0 <= g < |o.done| && o.done[g].choice.Elsewhere? && o.done[g].choice.sub.client == conn;
    GroupAt(c, groups, o.done, g);
    assert MayServe(c, o.done[g].choice.sub);
  }

  /** A group of one member elsewhere that the message may go to is served through its connection. */
  lemma QueueReaches(c: Source, s: Sub) returns (o: Outcome)
    requires MemberElsewhere(c, s) && !Echo(c, s) && !SkipsQueues(c) && Passes(c, [s])
    ensures Fanned(c, [], [[s]], o) && Copied(o, s.client)
  {
    var g := Group([], Elsewhere(s));
    o := Outcome([], [g], [Attempt(s, Names(s), true)]);
    assert Members([s]) == {s} by {
      assert [s][..0] == [];
      assert Members([]) == {};
    }
    assert GroupsDone(c, [[s]], [g]) by {
      assert [[s]][..0] == [] && [g][..0] == [];
      assert GroupDone(c, [s], g);
    }
    assert !AnyHere([g]) by {
      assert [g][..0] == [];
    }
    assert Elsewheres([g]) == [s] by {
      assert [g][..0] == [];
      assert Elsewheres([]) + [s] == [s];
    }
    assert RemotesOf(c, []) + [s] == [s];
    assert Targets([s]) == [Target(s, Names(s))] by {
      assert [s][..0] == [];
    }
    assert Copies(c, [Target(s, Names(s))]) == [Target(s, Names(s))] by {
      assert [Target(s, Names(s))][..0] == [];
    }
    assert [Attempt(s, Names(s), true)][..0] == [] && SentTo([], []);
    assert o.remote[0].sub.client == s.client;
  }

  /** So a message from a route can reach a route that was not asked for, or a leaf connection that is no hub, and one from a
      leaf connection without a cluster name can come back to it.
   */
  lemma QueuesCross(from: Conn, to: Conn, queue: string) returns (c: Source, s: Sub, o: Outcome)
    requires (from.kind == Router && (to.kind == Router || to.kind == Leaf)) || (from == to && from.kind == Leaf && from.cluster == "")
    ensures c.conn == from && s.client == to && !c.routeToRoute && !c.serviceReply && (from.kind == Leaf ==> c.leafOrigin == from.cluster)
    ensures Fanned(c, [], [[s]], o) && Copied(o, to)
  {
    c := Source(from, false, "", Some([queue]), false, false, false, false, false);
    s := Sub(to, Some(queue), false, "");
    o := QueueReaches(c, s);
  }

  // Subscribers here.

  function Tries(sends: seq<Attempt>, s: Sub): nat {
    if sends == [] then 0 else Tries(sends[..|sends| - 1], s) + if sends[|sends| - 1].sub == s then 1 else 0
  }

  function Occurrences(subs: seq<Sub>, s: Sub): nat {
    if subs == [] then 0 else Occurrences(subs[..|subs| - 1], s) + if subs[|subs| - 1] == s then 1 else 0
  }

  /** A subscriber on this server, which is not offered what a service import has brought if it is itself an import. */
  predicate Offered(c: Source, s: Sub) {
    match s.client.kind
    case Client => !c.fromService || !s.imported
    case Internal => !c.fromService || !s.imported
    case _ => false
  }

  lemma {:induction false} TriedOften(sends: seq<Attempt>, subs: seq<Sub>, s: Sub)
    requires TriedFor(sends, subs)
    ensures Tries(sends, s) == Occurrences(subs, s)
    decreases |subs|
  {
    if subs != [] {
      TriedOften(sends[..|sends| - 1], subs[..|subs| - 1], s);
    }
  }

  lemma {:induction false} LocalsOften(c: Source, psubs: seq<Sub>, n: nat, s: Sub)
    requires n <= |psubs|
    ensures Occurrences(LocalsUpTo(c, psubs, n), s) == if Offered(c, s) then Occurrences(psubs[..n], s) else 0
  {
    if n > 0 {
      var before := LocalsUpTo(c, psubs, n - 1);
      LocalsOften(c, psubs, n - 1, s);
      assert psubs[..n][..n - 1] == psubs[..n - 1];
      assert (before + [psubs[n - 1]])[..|before|] == before;
    }
  }

  lemma {:induction false} FewerBefore(subs: seq<Sub>, n: nat, s: Sub)
    requires n <= |subs|
    ensures Occurrences(subs[..n], s) <= Occurrences(subs, s)
    decreases |subs|
  {
    if n < |subs| {
      FewerBefore(subs[..|subs| - 1], n, s);
      assert subs[..|subs| - 1][..n] == subs[..n];
    } else {
      assert subs[..n] == subs;
    }
  }

  /** Every matched subscription here is tried once for each time it is listed, and nothing else is; a linear message stops
      at the first that accepts.
   */
  lemma TriedExactly(c: Source, psubs: seq<Sub>, groups: seq<seq<Sub>>, o: Outcome, s: Sub)
    requires Fanned(c, psubs, groups, o)
    ensures var times := if Offered(c, s) then Occurrences(psubs, s) else 0;
            Tries(o.plain, s) <= times && (Tries(o.plain, s) == times || (c.linear && OneAccepted(o.plain)))
  {
    if c.linear && AnyAccepted(o.plain) {
      var k :| 0 <= k <= |psubs| && TriedFor(o.plain, LocalsUpTo(c, psubs, k));
      TriedOften(o.plain, LocalsUpTo(c, psubs, k), s);
      LocalsOften(c, psubs, k, s);
      FewerBefore(psubs, k, s);
    } else {
      TriedOften(o.plain, LocalsOf(c, psubs), s);
      LocalsOften(c, psubs, |psubs|, s);
      assert psubs[..|psubs|] == psubs;
    }
  }

  // Queue groups.

  lemma {:induction false} GroupAt(c: Source, groups: seq<seq<Sub>>, done: seq<Group>, g: nat)
    requires GroupsDone(c, groups, done) && g < |groups|
    ensures GroupDone(c, groups[g], done[g])
    decreases |groups|
  {
    var n := |groups| - 1;
    if g < n {
      GroupAt(c, groups[..n], done[..n], g);
    }
  }

  /** The queue names another server sent with the message. */
  function Asked(c: Source): seq<string> { if c.filter.Some? then c.filter.value else [] }

  /** A client's message is offered to every queue group.  One from another server is offered to none if it comes without queue
      names, unless that is to be ignored.
   */
  lemma GroupsOffered(c: Source, psubs: seq<Sub>, groups: seq<seq<Sub>>, o: Outcome)
    requires Fanned(c, psubs, groups, o) && !(c.linear && AnyAccepted(o.plain))
    ensures c.conn.kind == Client || c.conn.kind == Internal || c.ignoreEmptyFilter || Asked(c) != [] ==> |o.done| == |groups|
    ensures c.conn.kind == Router || c.conn.kind == Leaf || c.conn.kind == Gateway ==>
              Asked(c) == [] && !c.ignoreEmptyFilter ==> o.done == []
  {
  }

  /** A group that was not asked for gets nothing; where it was, or nothing is asked of it, it goes without only if no member
      elsewhere may have the message and all members here were tried and refused.
   */
  lemma AskedOnly(c: Source, psubs: seq<Sub>, groups: seq<seq<Sub>>, o: Outcome, g: nat)
    requires Fanned(c, psubs, groups, o) && g < |o.done|
    ensures g < |groups|
    ensures c.filter.Some? && groups[g] != [] && (forall q :: q in c.filter.value ==> groups[g][0].queue != Some(q)) ==>
              o.done[g] == Group([], Nobody)
    ensures c.filter.None? || (exists q :: q in c.filter.value && groups[g] != [] && groups[g][0].queue == Some(q)) ==>
              o.done[g].choice == Nobody ==>
              forall s :: s in Members(groups[g]) ==>
                !MayServe(c, s) && (Remote(s) || (s.imported && c.fromService) || s in TriedSubs(o.done[g].tries))
  {
    GroupAt(c, groups, o.done, g);
  }
}
