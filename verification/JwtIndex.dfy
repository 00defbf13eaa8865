/** What the JWT directory index holds (server/dirstore.go): an entry for each key, the keys in order of use, and the
exclusive or of all hashes.
 */
module JwtIndex {
  import opened Basics
  import opened Digest

  datatype Entry = Entry(expiration: int, hash: Hash)

  datatype Index = Index(entries: map<string, Entry>, lru: seq<string>, digest: Hash)

  // The order of use.

  predicate NoDup(s: seq<string>) { s == [] || (s[0] !in s[1..] && NoDup(s[1..])) }

  /** All but a key, in order. */
  function Drop(s: seq<string>, k: string): (r: seq<string>)
    ensures forall x :: x in r <==> x in s && x != k
    ensures |r| <= |s| && (k !in s ==> r == s)
  {
    if s == [] then [] else (if s[0] == k then [] else [s[0]]) + Drop(s[1..], k)
  }

  lemma {:induction false} DropNoDup(s: seq<string>, k: string)
    requires NoDup(s)
    ensures NoDup(Drop(s, k)) && (k in s ==> |Drop(s, k)| == |s| - 1)
  {
    if s != [] {
      DropNoDup(s[1..], k);
      if s[0] != k {
        assert Drop(s, k)[1..] == Drop(s[1..], k);
      } else {
        assert Drop(s, k) == s[1..];
      }
    }
  }

  lemma {:induction false} AppendNoDup(s: seq<string>, k: string)
    requires NoDup(s) && k !in s
    ensures NoDup(s + [k])
  {
    if s != [] {
      AppendNoDup(s[1..], k);
      assert (s + [k])[1..] == s[1..] + [k];
    }
  }

  ghost predicate Lists(lru: seq<string>, entries: map<string, Entry>) {
    NoDup(lru) && forall k :: k in lru <==> k in entries
  }

  // The digest.

  function XorAll(keys: seq<string>, entries: map<string, Entry>): Hash
    requires forall k :: k in keys ==> k in entries
  {
    if keys == [] then Zero() else Xor(entries[keys[0]].hash, XorAll(keys[1..], entries))
  }

  lemma XorSwap(a: Hash, b: Hash, c: Hash)
    ensures Xor(a, Xor(b, c)) == Xor(b, Xor(a, c))
  {
    XorAssoc(a, b, c);
    XorAssoc(b, a, c);
    XorComm(a, b);
  }

  /** One key taken out of the exclusive or. */
  lemma {:induction false} XorDrop(keys: seq<string>, entries: map<string, Entry>, k: string)
    requires NoDup(keys) && k in keys && forall x :: x in keys ==> x in entries
    ensures XorAll(keys, entries) == Xor(entries[k].hash, XorAll(Drop(keys, k), entries))
  {
    var rest := keys[1..];
    assert keys == [keys[0]] + rest;
    if keys[0] == k {
      assert Drop(keys, k) == rest;
    } else {
      XorDrop(rest, entries, k);
      XorSwap(entries[keys[0]].hash, entries[k].hash, XorAll(Drop(rest, k), entries));
      assert Drop(keys, k)[1..] == Drop(rest, k);
    }
  }

  /** The digest does not depend on the order of the keys. */
  lemma {:induction false} XorOrder(a: seq<string>, b: seq<string>, entries: map<string, Entry>)
    requires NoDup(a) && NoDup(b) && (forall k :: k in a <==> k in b) && forall k :: k in a ==> k in entries
    ensures XorAll(a, entries) == XorAll(b, entries)
    decreases |a|
  {
    if a == [] {
      HeadIn(b);
    } else {
      var k := a[0];
      XorDrop(b, entries, k);
      DropNoDup(b, k);
      assert a == [k] + a[1..];
      XorOrder(a[1..], Drop(b, k), entries);
    }
  }

  /** Entries of other keys do not matter. */
  lemma {:induction false} XorSame(keys: seq<string>, a: map<string, Entry>, b: map<string, Entry>)
    requires forall k :: k in keys ==> k in a && k in b && a[k].hash == b[k].hash
    ensures XorAll(keys, a) == XorAll(keys, b)
  {
    if keys != [] {
      XorSame(keys[1..], a, b);
    }
  }

  // The index.

  /** The keys in order of use are those with an entry, and the digest is the exclusive or of their hashes. */
  ghost predicate Sound(x: Index) {
    Lists(x.lru, x.entries) && x.digest == XorAll(x.lru, x.entries)
  }

  /** Equal contents have equal digests, whatever their histories. */
  lemma DigestOfContents(x: Index, y: Index)
    requires Sound(x) && Sound(y) && x.entries.Keys == y.entries.Keys
    requires forall k :: k in x.entries ==> x.entries[k].hash == y.entries[k].hash
    ensures x.digest == y.digest
  {
    XorOrder(x.lru, y.lru, y.entries);
    XorSame(x.lru, x.entries, y.entries);
  }

  /** Adds or replaces an entry; a new key is the one last used. */
  function Track(x: Index, k: string, e: Entry): Index {
    if k in x.entries then
      Index(x.entries[k := e], x.lru, Xor(Xor(x.digest, x.entries[k].hash), e.hash))
    else Index(x.entries[k := e], x.lru + [k], Xor(x.digest, e.hash))
  }

  function Untrack(x: Index, k: string): Index {
    if k in x.entries then Index(x.entries - {k}, Drop(x.lru, k), Xor(x.digest, x.entries[k].hash)) else x
  }

  /** A use of a key: a new expiration if entries live for a set time, and if `evict` the key is the one last used. */
  function Touch(x: Index, k: string, expiration: int, ttl: int, evict: bool): Index {
    if k !in x.entries then x
    else
      x.(entries := if ttl != 0 then x.entries[k := Entry(expiration, x.entries[k].hash)] else x.entries,
         lru := if evict then Drop(x.lru, k) + [k] else x.lru)
  }

  lemma XorOut(a: Hash, b: Hash)
    ensures Xor(Xor(a, b), a) == b && Xor(Xor(b, a), a) == b
  {
    XorComm(a, b);
    XorComm(Xor(a, b), a);
    XorSelf(a, b);
  }

  lemma {:induction false} XorAppend(keys: seq<string>, k: string, entries: map<string, Entry>)
    requires k in entries && forall x :: x in keys ==> x in entries
    ensures XorAll(keys + [k], entries) == Xor(XorAll(keys, entries), entries[k].hash)
    decreases |keys|
  {
    if keys == [] {
      assert [k][1..] == [];
      XorSelf(entries[k].hash, Zero());
      XorComm(Zero(), entries[k].hash);
      assert keys + [k] == [k];
    } else {
      assert (keys + [k])[1..] == keys[1..] + [k];
      XorAppend(keys[1..], k, entries);
      XorAssoc(entries[keys[0]].hash, XorAll(keys[1..], entries), entries[k].hash);
    }
  }

  lemma TrackSound(x: Index, k: string, e: Entry)
    requires Sound(x)
    ensures Sound(Track(x, k, e))
  {
    var after := x.entries[k := e];
    if k in x.entries {
      var rest := XorAll(Drop(x.lru, k), x.entries);
      XorDrop(x.lru, x.entries, k);
      XorDrop(x.lru, after, k);
      XorSame(Drop(x.lru, k), x.entries, after);
      XorOut(x.entries[k].hash, rest);
      XorComm(rest, e.hash);
    } else {
      AppendNoDup(x.lru, k);
      XorAppend(x.lru, k, after);
      XorSame(x.lru, x.entries, after);
    }
  }

  lemma UntrackSound(x: Index, k: string)
    requires Sound(x)
    ensures Sound(Untrack(x, k))
  {
    if k in x.entries {
      var rest := XorAll(Drop(x.lru, k), x.entries);
      DropNoDup(x.lru, k);
      XorDrop(x.lru, x.entries, k);
      XorOut(x.entries[k].hash, rest);
      XorSame(Drop(x.lru, k), x.entries, x.entries - {k});
    }
  }

  lemma TouchSound(x: Index, k: string, expiration: int, ttl: int, evict: bool)
    requires Sound(x)
    ensures Sound(Touch(x, k, expiration, ttl, evict))
  {
    if k in x.entries {
      var y := Touch(x, k, expiration, ttl, evict);
      DropNoDup(x.lru, k);
      AppendNoDup(Drop(x.lru, k), k);
      XorSame(x.lru, x.entries, y.entries);
      XorOrder(x.lru, y.lru, y.entries);
    }
  }

  /** Everything due at `now` is gone; the rest keeps its order. */
  function Expire(x: Index, now: int): Index
    requires forall k :: k in x.lru ==> k in x.entries
  {
    var lru := Alive(x.lru, x.entries, now);
    Index(map k | k in x.entries && x.entries[k].expiration > now :: x.entries[k], lru, XorAll(lru, x.entries))
  }

  function Alive(lru: seq<string>, entries: map<string, Entry>, now: int): (r: seq<string>)
    requires forall k :: k in lru ==> k in entries
    ensures forall k :: k in r <==> k in lru && entries[k].expiration > now
  {
    if lru == [] then []
    else (if entries[lru[0]].expiration > now then [lru[0]] else []) + Alive(lru[1..], entries, now)
  }

  lemma {:induction false} AliveNoDup(lru: seq<string>, entries: map<string, Entry>, now: int)
    requires NoDup(lru) && forall k :: k in lru ==> k in entries
    ensures NoDup(Alive(lru, entries, now))
    ensures (forall k :: k in lru ==> entries[k].expiration > now) ==> Alive(lru, entries, now) == lru
  {
    if lru != [] {
      AliveNoDup(lru[1..], entries, now);
      var rest := Alive(lru[1..], entries, now);
      if entries[lru[0]].expiration > now {
        assert ([lru[0]] + rest)[1..] == rest;
      } else {
        assert [] + rest == rest;
      }
    }
  }

  lemma {:induction false} AliveDrop(lru: seq<string>, entries: map<string, Entry>, now: int, k: string)
    requires (forall x :: x in lru ==> x in entries) && k in entries && entries[k].expiration <= now
    ensures Alive(Drop(lru, k), entries - {k}, now) == Alive(lru, entries, now)
  {
    if lru != [] {
      var rest := Drop(lru[1..], k);
      AliveDrop(lru[1..], entries, now, k);
      if lru[0] != k {
        assert Drop(lru, k) == [lru[0]] + rest;
        AliveOne(lru[0], rest, entries - {k}, now);
        assert lru == [lru[0]] + lru[1..];
        AliveOne(lru[0], lru[1..], entries, now);
      } else {
        assert Drop(lru, k) == rest;
      }
    }
  }

  lemma AliveOne(x: string, rest: seq<string>, entries: map<string, Entry>, now: int)
    requires x in entries && forall k :: k in rest ==> k in entries
    ensures Alive([x] + rest, entries, now) == (if entries[x].expiration > now then [x] else []) + Alive(rest, entries, now)
  {
    assert ([x] + rest)[1..] == rest;
  }

  lemma ExpireSound(x: Index, now: int)
    requires Sound(x)
    ensures Sound(Expire(x, now))
    ensures (forall k :: k in x.entries ==> x.entries[k].expiration > now) ==> Expire(x, now) == x
  {
    var y := Expire(x, now);
    AliveNoDup(x.lru, x.entries, now);
    XorSame(y.lru, x.entries, y.entries);
  }

  /** Removing what is due one by one leads to the same. */
  lemma ExpireOne(x: Index, now: int, k: string)
    requires Sound(x) && k in x.entries && x.entries[k].expiration <= now
    ensures Expire(Untrack(x, k), now) == Expire(x, now)
  {
    AliveDrop(x.lru, x.entries, now, k);
    var lru := Alive(x.lru, x.entries, now);
    XorSame(lru, x.entries, x.entries - {k});
    UntrackSound(x, k);
  }

  // The store.

  datatype Config = Config(limit: int, evict: bool, ttl: int)

  /** When a tracked entry expires: after the time entries live, or as its token claims, or never. */
  function FirstExpiry(ttl: int, now: int, claim: int): int {
    if ttl == MAX_INT then MAX_INT
    else if ttl != 0 then Wrap(now + ttl)
    else if Wrap(claim * 1_000_000_000) == 0 then MAX_INT
    else Wrap(claim * 1_000_000_000)
  }

  /** When an entry expires after a use. */
  function NextExpiry(ttl: int, now: int): int { Wrap(now + ttl) }

  function Load(c: Config, x: Index, k: string, now: int): Index {
    Touch(x, k, NextExpiry(c.ttl, now), c.ttl, c.evict)
  }

  datatype Written = Written(index: Index, changed: bool) | Full

  /** A write of a known key is a use of it, and replaces its entry if the token differs; a new key in a full store
      is refused, or takes the place of the key least recently used.
   */
  function Write(c: Config, x: Index, k: string, hash: Hash, now: int, claim: int): Written
    requires c.evict ==> c.limit >= 1
    requires |x.entries| >= 1 ==> x.lru != []
  {
    var e := Entry(FirstExpiry(c.ttl, now, claim), hash);
    if k in x.entries then
      var y := Load(c, x, k, now);
      if x.entries[k].hash == hash then Written(y, false) else Written(Track(y, k, e), true)
    else if |x.entries| >= c.limit then
      if !c.evict then Full else Written(Track(Untrack(x, x.lru[0]), k, e), true)
    else Written(Track(x, k, e), true)
  }

  datatype Event =
    | Loaded(key: string, now: int) | Saved(key: string, hash: Hash, now: int, claim: int)
    | Deleted(key: string) | Expiry(now: int)

  ghost function Step(c: Config, x: Index, ev: Event): Index
    requires Sound(x) && (c.evict ==> c.limit >= 1)
  {
    match ev
    case Loaded(k, now) => Load(c, x, k, now)
    case Saved(k, hash, now, claim) => (
      NonEmpty(x);
      match Write(c, x, k, hash, now, claim)
      case Written(y, _) => y
      case Full => x
    )
    case Deleted(k) => Untrack(x, k)
    case Expiry(now) => Expire(x, now)
  }

  lemma NonEmpty(x: Index)
    requires Sound(x)
    ensures |x.entries| >= 1 ==> x.lru != []
  {
    if x.lru == [] {
      assert x.entries.Keys == {};
      assert |x.entries| == |x.entries.Keys|;
    }
  }

  lemma StepSound(c: Config, x: Index, ev: Event)
    requires Sound(x) && (c.evict ==> c.limit >= 1)
    ensures Sound(Step(c, x, ev))
  {
    match ev
    case Loaded(k, now) => TouchSound(x, k, NextExpiry(c.ttl, now), c.ttl, c.evict);
    case Saved(k, hash, now, claim) =>
      NonEmpty(x);
      WriteSound(c, x, k, hash, now, claim);
    case Deleted(k) => UntrackSound(x, k);
    case Expiry(now) => ExpireSound(x, now);
  }

  lemma WriteSound(c: Config, x: Index, k: string, hash: Hash, now: int, claim: int)
    requires Sound(x) && (c.evict ==> c.limit >= 1) && (|x.entries| >= 1 ==> x.lru != [])
    ensures var w := Write(c, x, k, hash, now, claim); w.Written? ==> Sound(w.index)
  {
    var e := Entry(FirstExpiry(c.ttl, now, claim), hash);
    if k in x.entries {
      TouchSound(x, k, NextExpiry(c.ttl, now), c.ttl, c.evict);
      TrackSound(Load(c, x, k, now), k, e);
    } else if |x.entries| >= c.limit {
      if c.evict {
        UntrackSound(x, x.lru[0]);
        TrackSound(Untrack(x, x.lru[0]), k, e);
      }
    } else {
      TrackSound(x, k, e);
    }
  }

  const START: Index := Index(map[], [], Zero())

  /** Where a history leads, and the keys in the order they were used. */
  ghost function Run(c: Config, evs: seq<Event>): (r: (Index, seq<string>))
    requires c.evict ==> c.limit >= 1
    ensures Sound(r.0)
  {
    if evs == [] then (START, [])
    else
      var ev := evs[|evs| - 1];
      var (x, used) := Run(c, evs[..|evs| - 1]);
      StepSound(c, x, ev);
      (Step(c, x, ev), used + Uses(c, x, ev))
  }

  /** The key an event uses, if any. */
  ghost function Uses(c: Config, x: Index, ev: Event): seq<string> {
    match ev
    case Loaded(k, _) => if k in x.entries then [k] else []
    case Saved(k, _, _, _) => if k in x.entries || |x.entries| < c.limit || c.evict then [k] else []
    case _ => []
  }

  // The order of use in an evicting store.

  /** The position of the last use, or -1. */
  function LastUse(used: seq<string>, k: string): int {
    if used == [] then -1 else if used[|used| - 1] == k then |used| - 1 else LastUse(used[..|used| - 1], k)
  }

  ghost predicate ByUse(lru: seq<string>, used: seq<string>) {
    lru == [] || ((forall k :: k in lru[1..] ==> LastUse(used, lru[0]) < LastUse(used, k)) && ByUse(lru[1..], used))
  }

  lemma UseOne(used: seq<string>, k: string, j: string)
    ensures LastUse(used + [k], j) == if j == k then |used| else LastUse(used, j)
  {
    assert (used + [k])[..|used|] == used;
  }

  lemma {:induction false} UsedBefore(used: seq<string>, k: string)
    ensures LastUse(used, k) < |used|
  {
    if used != [] {
      UsedBefore(used[..|used| - 1], k);
    }
  }

  lemma {:induction false} ByUseDrop(lru: seq<string>, used: seq<string>, k: string)
    requires ByUse(lru, used)
    ensures ByUse(Drop(lru, k), used)
  {
    if lru != [] {
      ByUseDrop(lru[1..], used, k);
      var rest := Drop(lru[1..], k);
      if lru[0] == k {
        assert Drop(lru, k) == rest;
      } else {
        assert Drop(lru, k)[1..] == rest;
      }
    }
  }

  lemma {:induction false} ByUseAlive(lru: seq<string>, used: seq<string>, entries: map<string, Entry>, now: int)
    requires ByUse(lru, used) && forall k :: k in lru ==> k in entries
    ensures ByUse(Alive(lru, entries, now), used)
  {
    if lru != [] {
      ByUseAlive(lru[1..], used, entries, now);
      var rest := Alive(lru[1..], entries, now);
      if entries[lru[0]].expiration > now {
        assert ([lru[0]] + rest)[1..] == rest;
      } else {
        assert [] + rest == rest;
      }
    }
  }

  /** A key used now goes last. */
  lemma {:induction false} ByUseAppend(lru: seq<string>, used: seq<string>, k: string)
    requires ByUse(lru, used) && k !in lru
    ensures ByUse(lru + [k], used + [k])
  {
    if lru == [] {
      assert [k][1..] == [] && lru + [k] == [k];
    } else {
      ByUseAppend(lru[1..], used, k);
      assert (lru + [k])[1..] == lru[1..] + [k];
      UsedBefore(used, lru[0]);
      forall j | j in lru[1..] + [k]
        ensures LastUse(used + [k], lru[0]) < LastUse(used + [k], j)
      {
        UseOne(used, k, lru[0]);
        UseOne(used, k, j);
      }
    }
  }

  /** In an evicting store the keys are kept in the order of their last use. */
  lemma {:induction false} RunByUse(c: Config, evs: seq<Event>)
    requires c.evict && c.limit >= 1
    ensures ByUse(Run(c, evs).0.lru, Run(c, evs).1)
  {
    if evs != [] {
      var init, ev := evs[..|evs| - 1], evs[|evs| - 1];
      RunByUse(c, init);
      var (x, used) := Run(c, init);
      StepByUse(c, x, used, ev);
    }
  }

  lemma StepByUse(c: Config, x: Index, used: seq<string>, ev: Event)
    requires Sound(x) && c.evict && c.limit >= 1 && ByUse(x.lru, used)
    ensures ByUse(Step(c, x, ev).lru, used + Uses(c, x, ev))
  {
    assert used + [] == used;
    match ev
    case Loaded(k, _) =>
      ByUseDrop(x.lru, used, k);
      ByUseAppend(Drop(x.lru, k), used, k);
    case Saved(k, _, _, _) =>
      NonEmpty(x);
      if k in x.entries {
        ByUseDrop(x.lru, used, k);
        ByUseAppend(Drop(x.lru, k), used, k);
      } else if |x.entries| >= c.limit {
        ByUseDrop(x.lru, used, x.lru[0]);
        ByUseAppend(Drop(x.lru, x.lru[0]), used, k);
      } else {
        ByUseAppend(x.lru, used, k);
      }
    case Deleted(k) => ByUseDrop(x.lru, used, k);
    case Expiry(now) => ByUseAlive(x.lru, used, x.entries, now);
  }

  /** After any history, a new key written to a full evicting store removes exactly the key used longest ago. */
  lemma EvictsLeastUsed(c: Config, evs: seq<Event>, k: string, hash: Hash, now: int, claim: int)
    requires c.evict && c.limit >= 1
    requires var x := Run(c, evs).0; k !in x.entries && |x.entries| >= c.limit
    ensures var (x, used) := Run(c, evs);
            && x.lru != [] && x.lru[0] in x.entries
            && (forall u :: u in x.entries && u != x.lru[0] ==> LastUse(used, x.lru[0]) < LastUse(used, u))
            && var w := Write(c, x, k, hash, now, claim);
               w.Written? && w.index.entries == (x.entries - {x.lru[0]})[k := Entry(FirstExpiry(c.ttl, now, claim), hash)]
  {
    var (x, used) := Run(c, evs);
    NonEmpty(x);
    RunByUse(c, evs);
    assert x.lru == [x.lru[0]] + x.lru[1..];
  }

  // Entries meant to live for ever.

  lemma UseWraps(now: int)
    requires 1 <= now < MAX_INT
    ensures NextExpiry(MAX_INT, now) < 0
  {
    assert now + MAX_INT + MAX_INT + 1 == (now - 1) + 2 * (MAX_INT + 1);
    assert (now + MAX_INT + MAX_INT + 1) % (2 * (MAX_INT + 1)) == now - 1;
  }

  /** Loads of a key, and saves of the token it already has. */
  predicate OnlyUses(x: Index, ev: Event) {
    match ev
    case Loaded(k, _) => k in x.entries
    case Saved(k, hash, _, _) => k in x.entries && x.entries[k].hash == hash
    case _ => false
  }

  /** Where entries are to live for ever, the entry of the key of an event falls due exactly when the event was a
      mere use: the time of the use plus the longest duration wraps around.
   */
  lemma UsedFallsDue(c: Config, x: Index, ev: Event, later: int)
    requires Sound(x) && c.ttl == MAX_INT && (c.evict ==> c.limit >= 1)
    requires (ev.Loaded? || ev.Saved?) && 1 <= ev.now <= later < MAX_INT && ev.key in Step(c, x, ev).entries
    ensures Step(c, x, ev).entries[ev.key].expiration <= later <==> OnlyUses(x, ev)
  {
    UseWraps(ev.now);
    NonEmpty(x);
  }
}
