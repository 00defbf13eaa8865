/** When tokens of a store expire, said of its history alone: of the time of the last use, and of what the token claims;
and how many it holds.
 */
module JwtExpiry {
  import opened Basics
  import opened Digest
  import opened JwtIndex

  /** A load or a save of the key. */
  predicate IsUse(ev: Event, k: string) { (ev.Loaded? || ev.Saved?) && ev.key == k }

  predicate IsSave(ev: Event, k: string) { ev.Saved? && ev.key == k }

  /** The time of the last use of the key. */
  function LastUsed(evs: seq<Event>, k: string): int {
    if evs == [] then 0
    else if IsUse(evs[|evs| - 1], k) then evs[|evs| - 1].now
    else LastUsed(evs[..|evs| - 1], k)
  }

  /** The token last saved under the key. */
  function LastSaved(evs: seq<Event>, k: string): Option<Hash> {
    if evs == [] then None
    else if IsSave(evs[|evs| - 1], k) then Some(evs[|evs| - 1].hash)
    else LastSaved(evs[..|evs| - 1], k)
  }

  /** What a token claims is a matter of the token. */
  ghost predicate Claims(evs: seq<Event>, claim: Hash -> int) {
    forall i :: 0 <= i < |evs| && evs[i].Saved? ==> evs[i].claim == claim(evs[i].hash)
  }

  /** An entry holds the token last saved under its key, and expires some time after its last use, or when the token says. */
  ghost predicate Dated(c: Config, used: int, saved: Option<Hash>, claim: Hash -> int, e: Entry) {
    && saved == Some(e.hash)
    && e.expiration == if c.ttl == 0 then FirstExpiry(0, 0, claim(e.hash)) else Wrap(used + c.ttl)
  }

  /** The same of the entry of `k`, if there is one. */
  ghost predicate DatedAt(c: Config, evs: seq<Event>, claim: Hash -> int, x: Index, k: string) {
    k in x.entries ==> Dated(c, LastUsed(evs, k), LastSaved(evs, k), claim, x.entries[k])
  }

  lemma SavedDated(c: Config, evs: seq<Event>, claim: Hash -> int, x: Index, ev: Event, k: string)
    requires Sound(x) && (c.evict ==> c.limit >= 1) && c.ttl != MAX_INT && DatedAt(c, evs, claim, x, k)
    requires ev.Saved? && ev.claim == claim(ev.hash)
    ensures DatedAt(c, evs + [ev], claim, Step(c, x, ev), k)
  {
    NonEmpty(x);
    assert (evs + [ev])[..|evs|] == evs;
    if ev.key == k {
      assert k in x.entries && x.entries[k].hash == ev.hash ==> LastSaved(evs, k) == Some(ev.hash);
    }
  }

  lemma StepDated(c: Config, evs: seq<Event>, claim: Hash -> int, x: Index, ev: Event, k: string)
    requires Sound(x) && (c.evict ==> c.limit >= 1) && c.ttl != MAX_INT && DatedAt(c, evs, claim, x, k)
    requires ev.Saved? ==> ev.claim == claim(ev.hash)
    ensures DatedAt(c, evs + [ev], claim, Step(c, x, ev), k)
  {
    if ev.Saved? {
      SavedDated(c, evs, claim, x, ev, k);
    } else {
      assert (evs + [ev])[..|evs|] == evs;
    }
  }

  lemma {:induction false} RunDated(c: Config, evs: seq<Event>, claim: Hash -> int, k: string)
    requires (c.evict ==> c.limit >= 1) && c.ttl != MAX_INT && Claims(evs, claim)
    ensures DatedAt(c, evs, claim, Run(c, evs).0, k)
    decreases |evs|
  {
    if evs != [] {
      var init, ev := evs[..|evs| - 1], evs[|evs| - 1];
      RunDated(c, init, claim, k);
      StepDated(c, init, claim, Run(c, init).0, ev, k);
      assert init + [ev] == evs;
    }
  }

  /** The time to live, or what the token claims, has passed. */
  predicate Lapsed(c: Config, used: int, claim: int, t: int) {
    if c.ttl != 0 then used + c.ttl <= t else claim != 0 && claim * 1_000_000_000 <= t
  }

  predicate InRange(x: int) { -MAX_INT - 1 <= x <= MAX_INT }

  lemma DueExactly(c: Config, used: int, claim: Hash -> int, e: Entry, t: int)
    requires Dated(c, used, Some(e.hash), claim, e) && t < MAX_INT
    requires InRange(used + c.ttl) && InRange(claim(e.hash) * 1_000_000_000)
    ensures e.expiration > t <==> !Lapsed(c, used, claim(e.hash), t)
  {
  }

  lemma ExpiryLast(c: Config, evs: seq<Event>, t: int)
    requires c.evict ==> c.limit >= 1
    ensures Run(c, evs + [Expiry(t)]).0 == Expire(Run(c, evs).0, t)
  {
    var all := evs + [Expiry(t)];
    assert all[..|evs|] == evs && all[|all| - 1] == Expiry(t);
  }

  /** After any history, expiry at a time removes exactly the tokens whose time to live since their last use, or whose claim
      where there is no time to live, has passed, as long as these times have 64 bits.
   */
  lemma ExpiresExactly(c: Config, evs: seq<Event>, claim: Hash -> int, t: int, k: string)
    requires (c.evict ==> c.limit >= 1) && c.ttl != MAX_INT && Claims(evs, claim) && t < MAX_INT
    requires k in Run(c, evs).0.entries
    requires InRange(LastUsed(evs, k) + c.ttl) && InRange(claim(Run(c, evs).0.entries[k].hash) * 1_000_000_000)
    ensures var e := Run(c, evs).0.entries[k];
            && LastSaved(evs, k) == Some(e.hash)
            && (k in Run(c, evs + [Expiry(t)]).0.entries <==> !Lapsed(c, LastUsed(evs, k), claim(e.hash), t))
  {
    RunDated(c, evs, claim, k);
    DueExactly(c, LastUsed(evs, k), claim, Run(c, evs).0.entries[k], t);
    ExpiryLast(c, evs, t);
  }

  // How many.

  lemma StepWithin(c: Config, x: Index, ev: Event, limit: nat)
    requires Sound(x) && (c.evict ==> c.limit >= 1) && c.limit <= limit && |x.entries| <= limit
    ensures |Step(c, x, ev).entries| <= limit
  {
    NonEmpty(x);
    match ev
    case Loaded(k, _) => SameKeys(x.entries, Step(c, x, ev).entries);
    case Saved(k, hash, now, claim) => WriteWithin(c, x, k, hash, now, claim, limit);
    case Deleted(k) => FewerKeys(Step(c, x, ev).entries, x.entries);
    case Expiry(now) => FewerKeys(Step(c, x, ev).entries, x.entries);
  }

  lemma SameKeys(a: map<string, Entry>, b: map<string, Entry>)
    requires a.Keys == b.Keys
    ensures |a| == |b|
  {
    assert |a| == |a.Keys| && |b| == |b.Keys|;
  }

  lemma FewerKeys(a: map<string, Entry>, b: map<string, Entry>)
    requires a.Keys <= b.Keys
    ensures |a| <= |b|
  {
    assert b.Keys == a.Keys + (b.Keys - a.Keys);
    assert |b.Keys| == |a.Keys| + |b.Keys - a.Keys|;
    assert |a| == |a.Keys| && |b| == |b.Keys|;
  }

  lemma OneKeyMore(a: map<string, Entry>, k: string, e: Entry)
    requires k !in a
    ensures |a[k := e]| == |a| + 1
  {
    assert a[k := e].Keys == a.Keys + {k};
  }

  lemma OneKeyLess(a: map<string, Entry>, k: string)
    requires k in a
    ensures |a - {k}| == |a| - 1
  {
    assert (a - {k}).Keys == a.Keys - {k};
  }

  lemma WriteWithin(c: Config, x: Index, k: string, hash: Hash, now: int, claim: int, limit: nat)
    requires Sound(x) && (c.evict ==> c.limit >= 1) && (|x.entries| >= 1 ==> x.lru != []) && c.limit <= limit && |x.entries| <= limit
    ensures var w := Write(c, x, k, hash, now, claim); w.Written? ==> |w.index.entries| <= limit
  {
    var e, w := Entry(FirstExpiry(c.ttl, now, claim), hash), Write(c, x, k, hash, now, claim);
    if k in x.entries {
      SameKeys(x.entries, w.index.entries);
    } else if |x.entries| < c.limit {
      OneKeyMore(x.entries, k, e);
    } else if c.evict {
      OneKeyLess(x.entries, x.lru[0]);
      OneKeyMore(x.entries - {x.lru[0]}, k, e);
    }
  }

  /** After every history the store holds no more tokens than its limit. */
  lemma {:induction false} RunWithin(c: Config, evs: seq<Event>)
    requires c.evict ==> c.limit >= 1
    ensures |Run(c, evs).0.entries| <= if c.limit < 0 then 0 else c.limit
    decreases |evs|
  {
    if evs != [] {
      RunWithin(c, evs[..|evs| - 1]);
      StepWithin(c, Run(c, evs[..|evs| - 1]).0, evs[|evs| - 1], if c.limit < 0 then 0 else c.limit);
    }
  }
}
