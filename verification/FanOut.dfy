/** Fan-out of a message to the subscriptions it matched (server/client.go), with tracing off: plain subscribers,
one member of each queue group, and one copy for each route or leaf connection.

Whether a delivery attempt is accepted is decided by `accepts`, from the number of attempts before it; random choices
by `start` and `coin`.
 */
module FanOut {
  import opened Basics

  datatype Kind = Client | Router | Gateway | Leaf | Internal

  /** A connection: its number, its kind, the cluster of the leaf node at the other end, and whether that is a hub. */
  datatype Conn = Conn(id: nat, kind: Kind, cluster: string, hub: bool)

  /** A subscription; `imported` if it is from a stream import, `origin` the leaf cluster a routed one is for. */
  datatype Sub = Sub(client: Conn, queue: Option<string>, imported: bool, origin: string)

  /** Where the message comes from, and how it is to be processed. */
  datatype Source = Source(
    conn: Conn, spoke: bool, leafOrigin: string, filter: Option<seq<string>>,
    routeToRoute: bool, fromService: bool, ignoreEmptyFilter: bool, serviceReply: bool, linear: bool)

  /** A route or leaf connection to send to, and the queue names to send with. */
  datatype Target = Target(sub: Sub, names: seq<string>)

  /** An attempt to deliver, with the queue names that went along. */
  datatype Attempt = Attempt(sub: Sub, names: seq<string>, accepted: bool)

  predicate Remote(s: Sub) { s.client.kind == Router || s.client.kind == Leaf }

  function Names(s: Sub): seq<string> { if s.queue.Some? then [s.queue.value] else [] }

  // Targets.

  function Add(ts: seq<Target>, s: Sub): seq<Target> {
    if ts == [] then [Target(s, Names(s))]
    else if ts[0].sub.client == s.client then [Target(ts[0].sub, ts[0].names + Names(s))] + ts[1..]
    else [ts[0]] + Add(ts[1..], s)
  }

  function Targets(subs: seq<Sub>): seq<Target> {
    if subs == [] then [] else Add(Targets(subs[..|subs| - 1]), subs[|subs| - 1])
  }

  /** The queue names of the subscriptions of a connection, in order. */
  function NamesFor(subs: seq<Sub>, conn: Conn): seq<string> {
    if subs == [] then []
    else
      var s := subs[|subs| - 1];
      NamesFor(subs[..|subs| - 1], conn) + if s.client == conn then Names(s) else []
  }

  predicate Named(subs: seq<Sub>, conn: Conn) { exists i :: 0 <= i < |subs| && subs[i].client == conn }

  predicate Listed(ts: seq<Target>, conn: Conn) {
    ts != [] && (ts[0].sub.client == conn || Listed(ts[1..], conn))
  }

  predicate OnceEach(ts: seq<Target>) {
    ts == [] || (!Listed(ts[1..], ts[0].sub.client) && OnceEach(ts[1..]))
  }

  function NamesAt(ts: seq<Target>, conn: Conn): seq<string> {
    if ts == [] then [] else if ts[0].sub.client == conn then ts[0].names else NamesAt(ts[1..], conn)
  }

  lemma {:induction false} AddOne(ts: seq<Target>, s: Sub, conn: Conn)
    requires OnceEach(ts)
    ensures OnceEach(Add(ts, s))
    ensures Listed(Add(ts, s), conn) <==> Listed(ts, conn) || s.client == conn
    ensures NamesAt(Add(ts, s), conn) == NamesAt(ts, conn) + if s.client == conn then Names(s) else []
    decreases |ts|
  {
    if ts == [] {
      assert [Target(s, Names(s))][1..] == [];
      assert [] + Names(s) == Names(s);
    } else if ts[0].sub.client == s.client {
      var first := Target(ts[0].sub, ts[0].names + Names(s));
      assert ([first] + ts[1..])[1..] == ts[1..];
    } else {
      assert ([ts[0]] + Add(ts[1..], s))[1..] == Add(ts[1..], s);
      AddOne(ts[1..], s, conn);
      AddOne(ts[1..], s, ts[0].sub.client);
    }
  }

  /** There is one target for each connection named, with exactly the queue names of its subscriptions. */
  lemma {:induction false} TargetsExact(subs: seq<Sub>, conn: Conn)
    ensures OnceEach(Targets(subs))
    ensures Listed(Targets(subs), conn) <==> Named(subs, conn)
    ensures NamesAt(Targets(subs), conn) == NamesFor(subs, conn)
    decreases |subs|
  {
    if subs != [] {
      var init, last := subs[..|subs| - 1], subs[|subs| - 1];
      TargetsExact(init, conn);
      AddOne(Targets(init), last, conn);
      NamedMore(subs, conn);
    }
  }

  lemma NamedMore(subs: seq<Sub>, conn: Conn)
    requires subs != []
    ensures Named(subs, conn) <==> Named(subs[..|subs| - 1], conn) || subs[|subs| - 1].client == conn
  {
    var init := subs[..|subs| - 1];
    if Named(init, conn) {
      var i :| 0 <= i < |init| && init[i].client == conn;
      assert subs[i].client == conn;
    }
  }

  lemma {:induction false} OnceEachAt(ts: seq<Target>, i: nat, j: nat)
    requires OnceEach(ts) && i < j < |ts|
    ensures ts[i].sub.client != ts[j].sub.client
    decreases |ts|
  {
    if i == 0 {
      ListedAt(ts[1..], j - 1);
    } else {
      OnceEachAt(ts[1..], i - 1, j - 1);
    }
  }

  lemma {:induction false} ListedAt(ts: seq<Target>, j: nat)
    requires j < |ts|
    ensures Listed(ts, ts[j].sub.client)
    decreases |ts|
  {
    if j > 0 {
      ListedAt(ts[1..], j - 1);
    }
  }

  lemma {:induction false} NamesOfTarget(ts: seq<Target>, j: nat)
    requires OnceEach(ts) && j < |ts|
    ensures NamesAt(ts, ts[j].sub.client) == ts[j].names
    decreases |ts|
  {
    if j > 0 {
      ListedAt(ts[1..], j - 1);
      NamesOfTarget(ts[1..], j - 1);
    }
  }

  // Who may be sent to.

  /** Plain subscriptions of routes and leaf nodes that get a copy. */
  predicate PlainRemote(c: Source, s: Sub) {
    match s.client.kind
    case Router => (c.conn.kind != Router && !c.spoke) || c.routeToRoute
    case Leaf => c.conn != s.client && (c.conn.kind != Router || s.client.hub || c.serviceReply)
    case _ => false
  }

  /** Subscriptions on this server that a delivery is tried for. */
  predicate Local(c: Source, s: Sub) {
    s.client.kind != Router && s.client.kind != Leaf && s.client.kind != Gateway && !(s.imported && c.fromService)
  }

  /** Those among the first `n` plain subscriptions that get a copy elsewhere. */
  function RemotesUpTo(c: Source, psubs: seq<Sub>, n: nat): seq<Sub>
    requires n <= |psubs|
  {
    if n == 0 then []
    else if PlainRemote(c, psubs[n - 1]) then RemotesUpTo(c, psubs, n - 1) + [psubs[n - 1]]
    else RemotesUpTo(c, psubs, n - 1)
  }

  function RemotesOf(c: Source, psubs: seq<Sub>): seq<Sub> { RemotesUpTo(c, psubs, |psubs|) }

  /** Those among the first `n` plain subscriptions that a delivery here is tried for. */
  function LocalsUpTo(c: Source, psubs: seq<Sub>, n: nat): seq<Sub>
    requires n <= |psubs|
  {
    if n == 0 then []
    else if Local(c, psubs[n - 1]) then LocalsUpTo(c, psubs, n - 1) + [psubs[n - 1]]
    else LocalsUpTo(c, psubs, n - 1)
  }

  function LocalsOf(c: Source, psubs: seq<Sub>): seq<Sub> { LocalsUpTo(c, psubs, |psubs|) }

  /** Whether the filter of a message from another server lets a queue group through. */
  predicate Passes(c: Source, group: seq<Sub>) {
    c.filter.None? || group == [] || (group[0].queue.Some? && group[0].queue.value in c.filter.value)
  }

  predicate SkipsQueues(c: Source) {
    && (c.conn.kind == Leaf || c.conn.kind == Router || c.conn.kind == Gateway)
    && (c.filter.None? || c.filter.value == []) && !c.ignoreEmptyFilter
  }

  /** A leaf connection to the cluster the message came from gets no copy. */
  predicate Echo(c: Source, s: Sub) { s.client.kind == Leaf && c.leafOrigin != "" && c.leafOrigin == s.client.cluster }

  /** What became of a queue group: no member, one on this server that accepted, or one elsewhere. */
  datatype Choice = Nobody | Here(sub: Sub) | Elsewhere(sub: Sub)

  function Elsewheres(done: seq<Group>): seq<Sub> {
    if done == [] then []
    else
      var ch := done[|done| - 1].choice;
      Elsewheres(done[..|done| - 1]) + if ch.Elsewhere? then [ch.sub] else []
  }

  /** Members of a queue group a delivery is tried for. */
  predicate MemberHere(c: Source, s: Sub) { !Remote(s) && !(s.imported && c.fromService) }

  /** Members of a queue group on other servers that the message may go to: not back to the leaf cluster it is from,
      and not from a spoke leaf node across routes.
   */
  predicate MemberElsewhere(c: Source, s: Sub) {
    && Remote(s)
    && if c.conn.kind == Router then !Echo(c, s)
       else if c.conn.kind == Leaf && c.spoke && s.client.kind == Router then false
       else if (c.conn.kind == Leaf || c.conn.kind == Client) && s.client.kind == Leaf then !(c.conn.kind == Leaf && Echo(c, s))
       else s.origin == "" || c.leafOrigin == "" || c.leafOrigin != s.origin
  }

  /** A member on another server that is taken as soon as it comes up: it is not on a leaf node, nor stands for one.  The
      others, and all where the message is from a route, only stand in for members here.
   */
  predicate Direct(c: Source, s: Sub) {
    && MemberElsewhere(c, s) && c.conn.kind != Router && s.origin == ""
    && !((c.conn.kind == Leaf || c.conn.kind == Client) && s.client.kind == Leaf)
  }

  predicate NoneDirect(c: Source, members: set<Sub>) { forall s :: s in members ==> !Direct(c, s) }

  function Members(group: seq<Sub>): set<Sub> {
    if group == [] then {} else Members(group[..|group| - 1]) + {group[|group| - 1]}
  }

  function TriedSubs(tries: seq<Attempt>): set<Sub> {
    if tries == [] then {} else TriedSubs(tries[..|tries| - 1]) + {tries[|tries| - 1].sub}
  }

  predicate AnyAccepted(sends: seq<Attempt>) {
    sends != [] && (sends[|sends| - 1].accepted || AnyAccepted(sends[..|sends| - 1]))
  }

  /** The tries are for members here, without names, and none but the last was accepted. */
  predicate Orderly(c: Source, members: set<Sub>, tries: seq<Attempt>) {
    tries == [] ||
    var (before, last) := (tries[..|tries| - 1], tries[|tries| - 1]);
    && Orderly(c, members, before) && !AnyAccepted(before)
    && last.sub in members && MemberHere(c, last.sub) && last.names == []
  }

  /** Every member here has been tried. */
  predicate AllTried(c: Source, members: set<Sub>, tries: seq<Attempt>) {
    forall s :: s in members && MemberHere(c, s) ==> s in TriedSubs(tries)
  }

  predicate NoneElsewhere(c: Source, members: set<Sub>) { forall s :: s in members ==> !MemberElsewhere(c, s) }

  /** At most one member of a group is chosen: one here that accepted, or one elsewhere if none here that was tried
      accepted; one that stands in is chosen, and nobody is, only after all members here refused and if no member can be
      taken at once; and it goes to nobody only if no member elsewhere will do.
   */
  predicate Chosen(c: Source, members: set<Sub>, tries: seq<Attempt>, ch: Choice) {
    match ch
    case Here(s) => Orderly(c, members, tries) && tries != [] && tries[|tries| - 1] == Attempt(s, [], true)
    case Elsewhere(s) =>
      && Orderly(c, members, tries) && !AnyAccepted(tries)
      && s in members && MemberElsewhere(c, s) && (!Direct(c, s) ==> AllTried(c, members, tries) && NoneDirect(c, members))
    case Nobody =>
      && Orderly(c, members, tries) && !AnyAccepted(tries)
      && AllTried(c, members, tries) && NoneElsewhere(c, members)
  }

  /** The copies that are sent: one to each target but those the message would echo to. */
  function Copies(c: Source, ts: seq<Target>): seq<Target> {
    if ts == [] then []
    else
      var t := ts[|ts| - 1];
      Copies(c, ts[..|ts| - 1]) + if Echo(c, t.sub) then [] else [t]
  }

  /** One attempt for each target, with its names. */
  predicate SentTo(sends: seq<Attempt>, ts: seq<Target>) {
    |sends| == |ts| &&
    (ts == [] ||
     var n := |ts| - 1;
     SentTo(sends[..n], ts[..n]) && sends[n].sub == ts[n].sub && sends[n].names == ts[n].names)
  }

  class Fan {
    const c: Source
    const accepts: nat -> bool
    const start: nat -> nat
    const coin: nat -> bool
    var rts: seq<Target>
    var sent: seq<Attempt>
    var didDeliver: bool
    ghost var added: seq<Sub>

    /** The targets are those of the subscriptions added, and whether something was accepted is known. */
    ghost predicate Noted()
      reads this
    {
      rts == Targets(added) && didDeliver == AnyAccepted(sent)
    }

    constructor (c: Source, accepts: nat -> bool, start: nat -> nat, coin: nat -> bool)
      ensures added == [] && sent == [] && this.c == c && Noted()
    {
      this.c, this.accepts, this.start, this.coin := c, accepts, start, coin;
      rts, sent, didDeliver, added := [], [], false, [];
    }

    method AddSubToRouteTargets(s: Sub)
      requires Noted()
      modifies this`rts, this`added
      ensures Noted() && added == old(added) + [s]
    {
      AddTarget(s);
      TargetsMore(added, s);
      added := added + [s];
    }

    method AddTarget(s: Sub)
      modifies this`rts
      ensures rts == Add(old(rts), s)
    {
      for i := 0 to |rts|
        invariant rts == old(rts) && Add(rts, s) == rts[..i] + Add(rts[i..], s)
      {
        var rt := rts[i];
        if rt.sub.client == s.client {
          rts := rts[i := Target(rt.sub, rt.names + Names(s))];
          assert old(rts)[i..][1..] == old(rts)[i + 1..];
          return;
        }
        assert rts[i..][1..] == rts[i + 1..];
        assert rts[..i] + ([rt] + Add(rts[i + 1..], s)) == rts[..i + 1] + Add(rts[i + 1..], s);
      }
      rts := rts + [Target(s, Names(s))];
    }

    /** Tries to deliver. */
    method DeliverMsg(s: Sub, names: seq<string>) returns (accepted: bool)
      requires Noted()
      modifies this`sent, this`didDeliver
      ensures sent == old(sent) + [Attempt(s, names, accepted)] && Noted()
    {
      accepted := accepts(|sent|);
      AcceptedMore(sent, Attempt(s, names, accepted));
      sent := sent + [Attempt(s, names, accepted)];
      didDeliver := didDeliver || accepted;
    }

    /** Whether a plain subscription becomes a target, or is tried here. */
    method Audience(s: Sub) returns (target: bool, here: bool)
      ensures target == PlainRemote(c, s) && here == Local(c, s)
    {
      target, here := false, false;
      match s.client.kind {
        case Router =>
          if (c.conn.kind != Router && !c.spoke) || c.routeToRoute {
            target := true;
          }
        case Gateway =>
        case Leaf =>
          if c.conn != s.client && (c.conn.kind != Router || s.client.hub || c.serviceReply) {
            target := true;
          }
        case _ => here := !s.imported || !c.fromService;
      }
    }

    /** Plain subscribers: each one here is tried in turn, up to the first that accepts a linear message; routes and
        leaf nodes become targets.
     */
    method PlainSubs(psubs: seq<Sub>) returns (stop: bool, ghost upTo: nat)
      requires added == [] && sent == [] && Noted()
      modifies this
      ensures Noted() && stop == (c.linear && AnyAccepted(sent)) && upTo <= |psubs|
      ensures TriedFor(sent, LocalsUpTo(c, psubs, upTo))
      ensures if stop then added == [] && OneAccepted(sent) else added == RemotesOf(c, psubs) && upTo == |psubs|
    {
      ghost var locals: seq<Sub> := [];
      for i := 0 to |psubs|
        invariant added == RemotesUpTo(c, psubs, i) && locals == LocalsUpTo(c, psubs, i)
        invariant TriedFor(sent, locals) && (c.linear ==> !AnyAccepted(sent)) && Noted()
      {
        var s := psubs[i];
        var target, here := Audience(s);
        if target {
          AddSubToRouteTargets(s);
        } else if here {
          TryPlain(s, locals);
          locals := locals + [s];
          if c.linear && didDeliver {
            rts, added := [], [];
            stop, upTo := true, i + 1;
            return;
          }
        }
      }
      stop, upTo := false, |psubs|;
    }

    /** Tries one plain subscriber here. */
    method TryPlain(s: Sub, ghost locals: seq<Sub>)
      requires Noted() && TriedFor(sent, locals) && (c.linear ==> !AnyAccepted(sent))
      modifies this`sent, this`didDeliver
      ensures Noted() && TriedFor(sent, locals + [s])
      ensures c.linear && AnyAccepted(sent) ==> OneAccepted(sent)
    {
      ghost var before := sent;
      var accepted := DeliverMsg(s, []);
      OneMoreTry(before, locals, s, accepted);
    }

    /** For a message from a route: the members here, and a member elsewhere in case they all refuse, on a leaf node
        if there is one.
     */
    method SplitRouted(group: seq<Sub>, k: nat) returns (locals: seq<Sub>, rsub: Option<Sub>)
      requires c.conn.kind == Router
      ensures forall s :: s in Members(locals) <==> s in Members(group) && !Remote(s)
      ensures rsub.Some? ==> rsub.value in Members(group) && MemberElsewhere(c, rsub.value)
      ensures rsub.None? ==> NoneElsewhere(c, Members(group))
      ensures rsub.Some? && rsub.value.client.kind == Router ==>
                forall s :: s in Members(group) && s.client.kind == Leaf ==> Echo(c, s)
    {
      locals, rsub := [], None;
      ghost var seen: set<Sub>, here: set<Sub> := {}, {};
      for i := 0 to |group|
        invariant seen == Members(group[..i]) && here == Members(locals)
        invariant forall s :: s in here <==> s in seen && !Remote(s)
        invariant rsub.Some? ==> rsub.value in seen && MemberElsewhere(c, rsub.value)
        invariant rsub.None? ==> NoneElsewhere(c, seen)
        invariant rsub.Some? && rsub.value.client.kind == Router ==>
                    forall s :: s in seen && s.client.kind == Leaf ==> Echo(c, s)
      {
        var s := group[i];
        MembersAt(group, i);
        seen := seen + {s};
        if Remote(s) {
          if Echo(c, s) {
            continue;
          }
          if rsub.None? || (rsub.value.client.kind == Router && s.client.kind == Leaf) {
            rsub := Some(s);
          } else if s.client.kind == Leaf {
            if coin(k + i) {
              rsub := Some(s);
            }
          }
        } else {
          MembersMore(locals, s);
          locals, here := locals + [s], here + {s};
        }
      }
      assert group[..|group|] == group;
    }

    /** One member of a group is tried if it is here, or kept in mind if it is elsewhere. */
    method TryMember(s: Sub, rsub: Option<Sub>) returns (stop: bool, keep: Option<Sub>)
      requires Noted() && (c.conn.kind == Router ==> !Remote(s))
      modifies this`sent, this`didDeliver
      ensures Noted()
      ensures MemberHere(c, s) ==> sent == old(sent) + [Attempt(s, [], stop)] && keep == if stop then None else rsub
      ensures !MemberHere(c, s) ==> sent == old(sent) && (keep == rsub || (MemberElsewhere(c, s) && keep == Some(s)))
      ensures !MemberHere(c, s) && stop ==> keep == Some(s) && Direct(c, s)
      ensures !MemberHere(c, s) && !stop ==> !Direct(c, s)
      ensures !MemberHere(c, s) && MemberElsewhere(c, s) ==> keep.Some?
    {
      stop, keep := false, rsub;
      if c.conn.kind == Leaf && c.spoke && s.client.kind == Router {
        return;
      }
      if Remote(s) {
        if (c.conn.kind == Leaf || c.conn.kind == Client) && s.client.kind == Leaf {
          if c.conn.kind == Leaf && c.leafOrigin != "" && c.leafOrigin == s.client.cluster {
            return;
          }
          if rsub.None? {
            keep := Some(s);
          }
        } else if s.origin != "" {
          if rsub.None? && (c.leafOrigin == "" || c.leafOrigin != s.origin) {
            keep := Some(s);
          }
        } else {
          stop, keep := true, Some(s);
        }
      } else if !(s.imported && c.fromService) {
        stop := DeliverMsg(s, []);
        if stop {
          keep := None;
        }
      }
    }

    /** Goes through the members from a random one on, until one here accepts or one elsewhere is settled on. */
    method TryMembers(ghost members: set<Sub>, qsubs: seq<Sub>, first: nat, kept: Option<Sub>)
      returns (ch: Choice, ghost tries: seq<Attempt>)
      requires Members(qsubs) <= members && Noted()
      requires c.conn.kind == Router ==> forall s :: s in Members(qsubs) ==> !Remote(s)
      requires forall s :: s in members - Members(qsubs) ==> !MemberHere(c, s) && (kept.None? ==> !MemberElsewhere(c, s))
      requires kept.Some? ==> c.conn.kind == Router && kept.value in members && MemberElsewhere(c, kept.value)
      modifies this`sent, this`didDeliver
      ensures Noted() && sent == old(sent) + tries && Chosen(c, members, tries, ch)
    {
      var n := |qsubs|;
      var sindex := if n > 1 then first % n else 0;
      ghost var turned := qsubs[sindex..] + qsubs[..sindex];
      MembersTurned(qsubs, sindex);
      tries := [];
      ghost var seen: set<Sub> := {};
      var rsub := kept;
      for i := 0 to n
        invariant Noted() && sent == old(sent) + tries && seen == Members(turned[..i]) && Searched(c, members, seen, tries)
        invariant rsub.Some? ==> rsub.value in members && MemberElsewhere(c, rsub.value) && !Direct(c, rsub.value)
        invariant rsub.None? ==> kept.None? && NoneElsewhere(c, seen)
        invariant NoneDirect(c, seen)
      {
        var s := if sindex + i < n then qsubs[sindex + i] else qsubs[(sindex + i) % n];
        Turned(qsubs, sindex, i);
        MembersAt(turned, i);
        MemberOf(qsubs, s);
        SearchedMore(c, members, seen, tries, s);
        var stop;
        stop, rsub := TryMember(s, rsub);
        if MemberHere(c, s) {
          Assoc(old(sent), tries, [Attempt(s, [], stop)]);
          tries := tries + [Attempt(s, [], stop)];
        }
        if stop {
          ch := if rsub.None? then Here(s) else Elsewhere(s);
          return;
        }
        seen := seen + {s};
      }
      assert turned[..n] == turned;
      ch := if rsub.Some? then Elsewhere(rsub.value) else Nobody;
    }

    /** The choice of at most one member of a queue group; one elsewhere becomes a target. */
    method SelectQueueSub(group: seq<Sub>, k: nat) returns (ch: Choice, ghost tries: seq<Attempt>)
      requires Noted()
      modifies this
      ensures Noted() && sent == old(sent) + tries && Chosen(c, Members(group), tries, ch)
      ensures added == old(added) + if ch.Elsewhere? then [ch.sub] else []
    {
      var qsubs, rsub := group, None;
      if c.conn.kind == Router {
        qsubs, rsub := SplitRouted(group, k);
      }
      ch, tries := TryMembers(Members(group), qsubs, start(k), rsub);
      if ch.Elsewhere? {
        AddSubToRouteTargets(ch.sub);
      }
    }

    /** Sends one copy to each target. */
    method SendToRemotes() returns (ghost sends: seq<Attempt>)
      requires Noted()
      modifies this`sent, this`didDeliver
      ensures Noted() && sent == old(sent) + sends && SentTo(sends, Copies(c, rts))
    {
      sends := [];
      for i := 0 to |rts|
        invariant Noted() && sent == old(sent) + sends && SentTo(sends, Copies(c, rts[..i]))
      {
        var rt := rts[i];
        if rt.sub.client.kind == Leaf && c.leafOrigin != "" && c.leafOrigin == rt.sub.client.cluster {
          OneMoreCopy(c, rts, i);
          continue;
        }
        var accepted := DeliverMsg(rt.sub, rt.names);
        OneMoreRemote(c, rts, i, sends, accepted);
        Assoc(old(sent), sends, [Attempt(rt.sub, rt.names, accepted)]);
        sends := sends + [Attempt(rt.sub, rt.names, accepted)];
      }
      assert rts[..|rts|] == rts;
    }

    /** Queue groups are left out where another server sent the message and named none of them. */
    method NoQueues() returns (skip: bool)
      ensures skip == SkipsQueues(c)
    {
      var names := if c.filter.Some? then c.filter.value else [];
      skip := false;
      match c.conn.kind {
        case Leaf => skip := |names| == 0 && !c.ignoreEmptyFilter;
        case Router => skip := |names| == 0 && !c.ignoreEmptyFilter;
        case Gateway => skip := |names| == 0 && !c.ignoreEmptyFilter;
        case _ =>
      }
    }

    /** Looks for the name of a group among those of the filter. */
    method PassesFilter(group: seq<Sub>) returns (passes: bool)
      ensures passes == Passes(c, group)
    {
      if c.filter.None? || group == [] {
        return true;
      }
      var names := c.filter.value;
      for i := 0 to |names|
        invariant forall j :: 0 <= j < i ==> Some(names[j]) != group[0].queue
      {
        if Some(names[i]) == group[0].queue {
          return true;
        }
      }
      return false;
    }

    /** One member of each queue group that passes the filter. */
    method QueueSubs(groups: seq<seq<Sub>>) returns (ghost done: seq<Group>)
      requires Noted()
      modifies this
      ensures Noted() && sent == old(sent) + Flat(done) && added == old(added) + Elsewheres(done)
      ensures GroupsDone(c, groups, done)
    {
      done := [];
      ghost var flat: seq<Attempt>, others: seq<Sub> := [], [];
      for i := 0 to |groups|
        invariant Noted() && sent == old(sent) + flat && added == old(added) + others
        invariant flat == Flat(done) && others == Elsewheres(done) && GroupsDone(c, groups[..i], done)
      {
        ghost var ch, tries := Nobody, [];
        Unit(sent);
        Unit(added);
        var passes := PassesFilter(groups[i]);
        if passes {
          ch, tries := SelectQueueSub(groups[i], i);
        }
        OneMoreGroup(c, groups, i, done, Group(tries, ch));
        Assoc(old(sent), flat, tries);
        Assoc(old(added), others, if ch.Elsewhere? then [ch.sub] else []);
        flat, others := flat + tries, others + if ch.Elsewhere? then [ch.sub] else [];
        done := done + [Group(tries, ch)];
      }
      assert groups[..|groups|] == groups;
    }

    /** Processes the matches of a message. */
    method ProcessMsgResults(psubs: seq<Sub>, groups: seq<seq<Sub>>) returns (ghost o: Outcome)
      requires added == [] && sent == [] && Noted()
      modifies this
      ensures Fanned(c, psubs, groups, o) && sent == o.plain + Flat(o.done) + o.remote && Noted()
    {
      var stop;
      ghost var upTo;
      stop, upTo := PlainSubs(psubs);
      if stop {
        o := Outcome(sent, [], []);
      } else {
        o := QueuesAndRemotes(psubs, groups);
      }
    }

    /** The queue groups and the other servers, after the plain subscribers. */
    method QueuesAndRemotes(ghost psubs: seq<Sub>, groups: seq<seq<Sub>>) returns (ghost o: Outcome)
      requires added == RemotesOf(c, psubs) && TriedFor(sent, LocalsOf(c, psubs)) && (c.linear ==> !AnyAccepted(sent)) && Noted()
      modifies this
      ensures Fanned(c, psubs, groups, o) && sent == o.plain + Flat(o.done) + o.remote && Noted()
    {
      ghost var plain, done: seq<Group> := sent, [];
      var skip := NoQueues();
      if !skip {
        done := QueueSubs(groups);
        SomeoneHere(c, groups, done);
        AcceptedBoth(plain, Flat(done));
        if c.linear && didDeliver {
          o := Outcome(plain, done, []);
          rts, added := [], [];
          return;
        }
      }
      assert added == RemotesOf(c, psubs) + Elsewheres(done);
      ghost var remote := SendToRemotes();
      o := Outcome(plain, done, remote);
    }
  }

  // The whole.

  /** What became of a queue group. */
  datatype Group = Group(tries: seq<Attempt>, choice: Choice)

  /** All attempts: for plain subscribers, for each queue group, and to other servers. */
  datatype Outcome = Outcome(plain: seq<Attempt>, done: seq<Group>, remote: seq<Attempt>)

  function Flat(done: seq<Group>): seq<Attempt> {
    if done == [] then [] else Flat(done[..|done| - 1]) + done[|done| - 1].tries
  }

  predicate GroupDone(c: Source, group: seq<Sub>, g: Group) {
    match Passes(c, group)
    case true => Chosen(c, Members(group), g.tries, g.choice)
    case false => g == Group([], Nobody)
  }

  predicate GroupsDone(c: Source, groups: seq<seq<Sub>>, done: seq<Group>) {
    |groups| == |done| &&
    (groups == [] ||
     (GroupsDone(c, groups[..|groups| - 1], done[..|done| - 1]) && GroupDone(c, groups[|groups| - 1], done[|done| - 1])))
  }

  predicate AnyHere(done: seq<Group>) { done != [] && (done[|done| - 1].choice.Here? || AnyHere(done[..|done| - 1])) }

  /** What is sent elsewhere: one copy to each connection of a plain subscription or a chosen queue member. */
  function Remotes(c: Source, psubs: seq<Sub>, done: seq<Group>): seq<Target> {
    Copies(c, Targets(RemotesOf(c, psubs) + Elsewheres(done)))
  }

  predicate Fanned(c: Source, psubs: seq<Sub>, groups: seq<seq<Sub>>, o: Outcome) {
    if c.linear && AnyAccepted(o.plain) then
      && OneAccepted(o.plain) && o.done == [] && o.remote == []
      && (exists k | 0 <= k <= |psubs| :: TriedFor(o.plain, LocalsUpTo(c, psubs, k)))
    else
      && TriedFor(o.plain, LocalsOf(c, psubs))
      && (if SkipsQueues(c) then o.done == [] else GroupsDone(c, groups, o.done))
      && if c.linear && AnyHere(o.done) then o.remote == [] else SentTo(o.remote, Remotes(c, psubs, o.done))
  }

  // Steps.

  /** One attempt for each subscription, without names. */
  predicate TriedFor(sends: seq<Attempt>, subs: seq<Sub>) {
    |sends| == |subs| &&
    (subs == [] || var n := |subs| - 1; TriedFor(sends[..n], subs[..n]) && sends[n].sub == subs[n] && sends[n].names == [])
  }

  /** Exactly one attempt was accepted, the last. */
  predicate OneAccepted(sends: seq<Attempt>) {
    sends != [] && sends[|sends| - 1].accepted && !AnyAccepted(sends[..|sends| - 1])
  }

  lemma AcceptedMore(sends: seq<Attempt>, a: Attempt)
    ensures AnyAccepted(sends + [a]) <==> AnyAccepted(sends) || a.accepted
    ensures OneAccepted(sends + [a]) <==> !AnyAccepted(sends) && a.accepted
  {
    assert (sends + [a])[..|sends|] == sends;
  }

  lemma {:induction false} AcceptedBoth(a: seq<Attempt>, b: seq<Attempt>)
    ensures AnyAccepted(a + b) <==> AnyAccepted(a) || AnyAccepted(b)
    decreases |b|
  {
    if b == [] {
      assert a + b == a;
    } else {
      assert (a + b)[..|a + b| - 1] == a + b[..|b| - 1];
      AcceptedBoth(a, b[..|b| - 1]);
    }
  }

  lemma OneMoreTry(sends: seq<Attempt>, subs: seq<Sub>, s: Sub, accepted: bool)
    requires TriedFor(sends, subs)
    ensures var more := sends + [Attempt(s, [], accepted)];
            && TriedFor(more, subs + [s])
            && (AnyAccepted(more) <==> AnyAccepted(sends) || accepted)
            && (OneAccepted(more) <==> !AnyAccepted(sends) && accepted)
  {
    AcceptedMore(sends, Attempt(s, [], accepted));
    assert (sends + [Attempt(s, [], accepted)])[..|sends|] == sends && (subs + [s])[..|subs|] == subs;
  }

  lemma OneMoreSent(sends: seq<Attempt>, ts: seq<Target>, t: Target, accepted: bool)
    requires SentTo(sends, ts)
    ensures SentTo(sends + [Attempt(t.sub, t.names, accepted)], ts + [t])
  {
    assert (sends + [Attempt(t.sub, t.names, accepted)])[..|sends|] == sends && (ts + [t])[..|ts|] == ts;
  }

  lemma TargetsMore(subs: seq<Sub>, s: Sub)
    ensures Targets(subs + [s]) == Add(Targets(subs), s)
  {
    assert (subs + [s])[..|subs|] == subs;
  }

  lemma OneMoreCopy(c: Source, ts: seq<Target>, i: nat)
    requires i < |ts|
    ensures Copies(c, ts[..i + 1]) == if Echo(c, ts[i].sub) then Copies(c, ts[..i]) else Copies(c, ts[..i]) + [ts[i]]
  {
    assert ts[..i + 1][..i] == ts[..i];
  }

  lemma OneMoreRemote(c: Source, ts: seq<Target>, i: nat, sends: seq<Attempt>, accepted: bool)
    requires i < |ts| && SentTo(sends, Copies(c, ts[..i])) && !Echo(c, ts[i].sub)
    ensures SentTo(sends + [Attempt(ts[i].sub, ts[i].names, accepted)], Copies(c, ts[..i + 1]))
  {
    OneMoreCopy(c, ts, i);
    OneMoreSent(sends, Copies(c, ts[..i]), ts[i], accepted);
  }

  lemma OneMoreGroup(c: Source, groups: seq<seq<Sub>>, i: nat, done: seq<Group>, g: Group)
    requires i < |groups| && GroupsDone(c, groups[..i], done) && GroupDone(c, groups[i], g)
    ensures Flat(done + [g]) == Flat(done) + g.tries
    ensures Elsewheres(done + [g]) == Elsewheres(done) + if g.choice.Elsewhere? then [g.choice.sub] else []
    ensures GroupsDone(c, groups[..i + 1], done + [g])
  {
    assert (done + [g])[..|done|] == done && groups[..i + 1][..i] == groups[..i];
  }

  /** Something was accepted in the queue groups exactly when a member here was chosen. */
  lemma {:induction false} SomeoneHere(c: Source, groups: seq<seq<Sub>>, done: seq<Group>)
    requires GroupsDone(c, groups, done)
    ensures AnyHere(done) <==> AnyAccepted(Flat(done))
    decreases |done|
  {
    if done != [] {
      var n := |done| - 1;
      SomeoneHere(c, groups[..n], done[..n]);
      AcceptedBoth(Flat(done[..n]), done[n].tries);
      GroupHere(c, groups[n], done[n]);
    }
  }

  lemma GroupHere(c: Source, group: seq<Sub>, g: Group)
    requires GroupDone(c, group, g)
    ensures g.choice.Here? <==> AnyAccepted(g.tries)
  {
  }

  lemma MembersMore(group: seq<Sub>, s: Sub)
    ensures Members(group + [s]) == Members(group) + {s}
  {
    assert (group + [s])[..|group|] == group;
  }

  lemma MembersAt(group: seq<Sub>, i: nat)
    requires i < |group|
    ensures Members(group[..i + 1]) == Members(group[..i]) + {group[i]}
  {
    assert group[..i + 1][..i] == group[..i];
  }

  lemma {:induction false} MembersBoth(a: seq<Sub>, b: seq<Sub>)
    ensures Members(a + b) == Members(a) + Members(b)
    decreases |b|
  {
    if b == [] {
      assert a + b == a;
    } else {
      assert (a + b)[..|a + b| - 1] == a + b[..|b| - 1];
      MembersBoth(a, b[..|b| - 1]);
    }
  }

  lemma MembersTurned(qsubs: seq<Sub>, k: nat)
    requires k <= |qsubs|
    ensures Members(qsubs[k..] + qsubs[..k]) == Members(qsubs)
  {
    MembersBoth(qsubs[k..], qsubs[..k]);
    MembersBoth(qsubs[..k], qsubs[k..]);
    assert qsubs[..k] + qsubs[k..] == qsubs;
  }

  lemma {:induction false} MemberOf(group: seq<Sub>, s: Sub)
    requires s in group
    ensures s in Members(group)
  {
    var n := |group| - 1;
    if group[n] != s {
      MemberOf(group[..n], s);
    }
  }

  lemma Turned(qsubs: seq<Sub>, k: nat, i: nat)
    requires i < |qsubs| && k < |qsubs|
    ensures var n := |qsubs|;
            (qsubs[k..] + qsubs[..k])[i] == if k + i < n then qsubs[k + i] else qsubs[(k + i) % n]
    ensures (qsubs[k..] + qsubs[..k])[i] in qsubs
  {
    if k + i >= |qsubs| {
      ModOnce(k + i, |qsubs|);
    }
  }

  lemma ModOnce(x: nat, n: nat)
    requires n <= x < 2 * n
    ensures x % n == x - n
  {
    var q := x / n;
    assert q * n + x % n == x;
    assert q < 2 by {
      if q >= 2 {
        MulTwice(q, n);
        assert false;
      }
    }
  }

  lemma MulTwice(q: nat, n: nat)
    requires q >= 2
    ensures q * n >= 2 * n
  {
    assert q * n == 2 * n + (q - 2) * n;
  }

  /** The members seen so far: those here were tried and refused. */
  predicate Searched(c: Source, members: set<Sub>, seen: set<Sub>, tries: seq<Attempt>) {
    Orderly(c, members, tries) && !AnyAccepted(tries) && AllTried(c, seen, tries)
  }

  /** After one more member. */
  lemma SearchedMore(c: Source, members: set<Sub>, seen: set<Sub>, tries: seq<Attempt>, s: Sub)
    requires s in members && Searched(c, members, seen, tries)
    ensures MemberHere(c, s) ==> Chosen(c, members, tries + [Attempt(s, [], true)], Here(s))
    ensures Direct(c, s) ==> Chosen(c, members, tries, Elsewhere(s))
    ensures MemberHere(c, s) ==> Searched(c, members, seen + {s}, tries + [Attempt(s, [], false)])
    ensures !MemberHere(c, s) ==> Searched(c, members, seen + {s}, tries)
  {
    assert (tries + [Attempt(s, [], true)])[..|tries|] == tries;
    assert (tries + [Attempt(s, [], false)])[..|tries|] == tries;
  }

  // What holds of every message.

  lemma {:induction false} SentAt(sends: seq<Attempt>, ts: seq<Target>, i: nat)
    requires SentTo(sends, ts) && i < |ts|
    ensures sends[i].sub == ts[i].sub && sends[i].names == ts[i].names
    decreases |ts|
  {
    var n := |ts| - 1;
    if i < n {
      SentAt(sends[..n], ts[..n], i);
    }
  }

  /** Copies are targets, in the same order. */
  lemma {:induction false} CopiesAt(c: Source, ts: seq<Target>, i: nat, j: nat) returns (k: nat, l: nat)
    requires i < j < |Copies(c, ts)|
    ensures k < l < |ts| && ts[k] == Copies(c, ts)[i] && ts[l] == Copies(c, ts)[j] && !Echo(c, ts[k].sub)
    decreases |ts|
  {
    var n := |ts| - 1;
    var before := Copies(c, ts[..n]);
    if j < |before| {
      k, l := CopiesAt(c, ts[..n], i, j);
    } else {
      k := CopyAt(c, ts[..n], i);
      l := n;
    }
  }

  lemma {:induction false} CopyAt(c: Source, ts: seq<Target>, i: nat) returns (k: nat)
    requires i < |Copies(c, ts)|
    ensures k < |ts| && ts[k] == Copies(c, ts)[i] && !Echo(c, ts[k].sub)
    decreases |ts|
  {
    var n := |ts| - 1;
    if i < |Copies(c, ts[..n])| {
      k := CopyAt(c, ts[..n], i);
    } else {
      k := n;
    }
  }

  /** A route or leaf connection is sent at most one copy, with exactly the queue names of the subscriptions that are
      to be served through it, and only if there is such a subscription.
   */
  lemma OneCopyEach(c: Source, psubs: seq<Sub>, groups: seq<seq<Sub>>, o: Outcome, i: nat)
    requires Fanned(c, psubs, groups, o) && i < |o.remote|
    ensures var conn := o.remote[i].sub.client;
            && (forall j :: 0 <= j < |o.remote| && j != i ==> o.remote[j].sub.client != conn)
            && o.remote[i].names == NamesFor(RemotesOf(c, psubs) + Elsewheres(o.done), conn)
            && Named(RemotesOf(c, psubs) + Elsewheres(o.done), conn) && !Echo(c, o.remote[i].sub)
  {
    var subs := RemotesOf(c, psubs) + Elsewheres(o.done);
    var ts := Targets(subs);
    var copies := Copies(c, ts);
    SentAt(o.remote, copies, i);
    var k := CopyAt(c, ts, i);
    TargetsExact(subs, ts[k].sub.client);
    NamesOfTarget(ts, k);
    ListedAt(ts, k);
    forall j | 0 <= j < |o.remote| && j != i
      ensures o.remote[j].sub.client != o.remote[i].sub.client
    {
      SentAt(o.remote, copies, j);
      var a, b := CopiesAt(c, ts, if i < j then i else j, if i < j then j else i);
      OnceEachAt(ts, a, b);
    }
  }

  function CountAccepted(sends: seq<Attempt>): nat {
    if sends == [] then 0 else CountAccepted(sends[..|sends| - 1]) + if sends[|sends| - 1].accepted then 1 else 0
  }

  lemma {:induction false} NoneAccepted(sends: seq<Attempt>)
    ensures CountAccepted(sends) == 0 <==> !AnyAccepted(sends)
  {
    if sends != [] {
      NoneAccepted(sends[..|sends| - 1]);
    }
  }

  /** A queue group takes at most one delivery: one accepted here, or one member elsewhere, never both. */
  lemma OnePerGroup(c: Source, group: seq<Sub>, g: Group)
    requires GroupDone(c, group, g)
    ensures CountAccepted(g.tries) + (if g.choice.Elsewhere? then 1 else 0) <= 1
    ensures CountAccepted(g.tries) == 1 <==> g.choice.Here?
    ensures g.choice.Here? ==> g.choice.sub in Members(group) && MemberHere(c, g.choice.sub)
    ensures g.choice.Elsewhere? ==> g.choice.sub in Members(group) && MemberElsewhere(c, g.choice.sub)
  {
    if g.choice.Here? {
      NoneAccepted(g.tries[..|g.tries| - 1]);
    } else {
      NoneAccepted(g.tries);
    }
  }

  /** A linear message that a plain subscriber here accepts is delivered exactly once; one that only members of queue
      groups here accept is not sent to any other server.
   */
  lemma LinearCutsOff(c: Source, psubs: seq<Sub>, groups: seq<seq<Sub>>, o: Outcome)
    requires c.linear && Fanned(c, psubs, groups, o)
    ensures AnyAccepted(o.plain) ==> CountAccepted(o.plain + Flat(o.done) + o.remote) == 1
    ensures AnyAccepted(Flat(o.done)) ==> o.remote == []
  {
    if AnyAccepted(o.plain) {
      NoneAccepted(o.plain[..|o.plain| - 1]);
      assert o.plain + Flat(o.done) + o.remote == o.plain;
    } else if !SkipsQueues(c) {
      SomeoneHere(c, groups, o.done);
    }
  }
}
