/** The JWT directory (server/dirstore.go): files and the index beside them, which every operation keeps in step.

The hash of a token is given by `sha`, when it says that it expires by `expires`, which keys are account keys by
`valid`, and the time of each write by a clock.  Reading and writing files does not fail.
 */
module JwtStore {
  import opened Basics
  import Digest
  import Index = JwtIndex
  import opened JwtMerge
  import Tracking = JwtTracker
  import opened Strings

  type Hashing = string -> Digest.Hash

  datatype Env = Env(decode: Decode, sha: Hashing, expires: string -> int, valid: string -> bool)

  datatype Store = Store(files: Files, index: Index.Index)

  const EMPTY: Store := Store(map[], Index.START)

  datatype Outcome = Done(store: Store) | Refused

  predicate Usable(c: Index.Config) { c.evict ==> c.limit >= 1 }

  /** The index is sound, and has an entry with its hash for each file and no other. */
  ghost predicate Follows(sha: Hashing, st: Store) {
    && Index.Sound(st.index) && st.index.entries.Keys == st.files.Keys
    && forall k :: k in st.files ==> st.index.entries[k].hash == sha(st.files[k])
  }

  // Operations.

  /** The files left when there is room for a new key. */
  function MadeRoom(c: Index.Config, st: Store, k: string): Files {
    if k !in st.index.entries && |st.index.entries| >= c.limit && st.index.lru != [] then st.files - {st.index.lru[0]}
    else st.files
  }

  /** Writes a token, unless it has the hash of the one that is there or the store is full. */
  ghost function WriteFile(c: Index.Config, env: Env, st: Store, d: Delivery, now: int): Outcome
    requires Usable(c) && Index.Sound(st.index)
  {
    if d.token == "" then Refused
    else (
      Index.NonEmpty(st.index);
      match Index.Write(c, st.index, d.key, env.sha(d.token), now, env.expires(d.token))
      case Full => Refused
      case Written(x, changed) => Done(Store(if changed then MadeRoom(c, st, d.key)[d.key := d.token] else st.files, x))
    )
  }

  /** Writes a token unless the key has a newer one, or the same. */
  ghost function Save(c: Index.Config, env: Env, st: Store, d: Delivery, now: int): Outcome
    requires Usable(c) && Index.Sound(st.index)
  {
    if d.key !in st.files then WriteFile(c, env, st, d, now)
    else if env.decode(d.token).None? then Refused
    else
      match Compare(d.key, env.decode(st.files[d.key]), env.decode(d.token).value)
      case Stays => Done(st)
      case Misfit => Refused
      case Replaced => WriteFile(c, env, st, d, now)
  }

  function DeleteFile(st: Store, k: string): Store { Store(st.files - {k}, Index.Untrack(st.index, k)) }

  ghost function ExpireFiles(st: Store, now: int): Store
    requires Index.Sound(st.index)
  {
    var x := Index.Expire(st.index, now);
    Store(map k | k in st.files && k in x.entries :: st.files[k], x)
  }

  datatype Event =
    | Put(d: Delivery, now: int) | Saved(d: Delivery, now: int)
    | Loaded(key: string, now: int) | Deleted(key: string) | Expired(now: int)

  ghost function Step(c: Index.Config, env: Env, st: Store, e: Event): Store
    requires Usable(c) && Index.Sound(st.index)
  {
    match e
    case Put(d, now) => (
      match WriteFile(c, env, st, d, now)
      case Done(r) => r
      case Refused => st
    )
    case Saved(d, now) => (
      match Save(c, env, st, d, now)
      case Done(r) => r
      case Refused => st
    )
    case Loaded(k, now) => st.(index := Index.Load(c, st.index, k, now))
    case Deleted(k) => DeleteFile(st, k)
    case Expired(now) => ExpireFiles(st, now)
  }

  // The index follows the files.

  /** What a write leaves in the index: one entry goes if there was no room, and the key has the hash. */
  ghost predicate Holds(c: Index.Config, x: Index.Index, k: string, hash: Digest.Hash, w: Index.Written) {
    var kept := if k !in x.entries && |x.entries| >= c.limit && x.lru != [] then x.entries.Keys - {x.lru[0]} else x.entries.Keys;
    w.Written? ==>
      && w.index.entries.Keys == kept + {k} && w.index.entries[k].hash == hash
      && (forall j :: j in kept && j != k ==> w.index.entries[j].hash == x.entries[j].hash)
      && (!w.changed ==> k in x.entries && x.entries[k].hash == hash)
  }

  lemma WriteHolds(c: Index.Config, x: Index.Index, k: string, hash: Digest.Hash, now: int, claim: int)
    requires Usable(c) && Index.Sound(x) && (|x.entries| >= 1 ==> x.lru != [])
    ensures Holds(c, x, k, hash, Index.Write(c, x, k, hash, now, claim))
  {
    var e, w := Index.Entry(Index.FirstExpiry(c.ttl, now, claim), hash), Index.Write(c, x, k, hash, now, claim);
    if k in x.entries {
      var y := Index.Load(c, x, k, now);
      assert y.entries.Keys == x.entries.Keys && forall j :: j in y.entries ==> y.entries[j].hash == x.entries[j].hash;
    } else if |x.entries| < c.limit {
      assert w == Index.Written(Index.Track(x, k, e), true);
    } else if c.evict {
      assert w == Index.Written(Index.Track(Index.Untrack(x, x.lru[0]), k, e), true);
    }
  }

  lemma HoldsFollows(c: Index.Config, sha: Hashing, st: Store, d: Delivery, w: Index.Written)
    requires Follows(sha, st) && w.Written? && Holds(c, st.index, d.key, sha(d.token), w) && Index.Sound(w.index)
    ensures Follows(sha, Store(if w.changed then MadeRoom(c, st, d.key)[d.key := d.token] else st.files, w.index))
  {
    var files := if w.changed then MadeRoom(c, st, d.key)[d.key := d.token] else st.files;
    assert w.index.entries.Keys == files.Keys;
  }

  lemma WriteFollows(c: Index.Config, env: Env, st: Store, d: Delivery, now: int)
    requires Usable(c) && Follows(env.sha, st)
    ensures var r := WriteFile(c, env, st, d, now); r.Done? ==> Follows(env.sha, r.store)
  {
    Index.NonEmpty(st.index);
    Index.WriteSound(c, st.index, d.key, env.sha(d.token), now, env.expires(d.token));
    WriteHolds(c, st.index, d.key, env.sha(d.token), now, env.expires(d.token));
    var w := Index.Write(c, st.index, d.key, env.sha(d.token), now, env.expires(d.token));
    if w.Written? {
      HoldsFollows(c, env.sha, st, d, w);
    }
  }

  lemma SaveFollows(c: Index.Config, env: Env, st: Store, d: Delivery, now: int)
    requires Usable(c) && Follows(env.sha, st)
    ensures var r := Save(c, env, st, d, now); r.Done? ==> Follows(env.sha, r.store)
  {
    WriteFollows(c, env, st, d, now);
  }

  lemma LoadFollows(c: Index.Config, sha: Hashing, st: Store, k: string, now: int)
    requires Follows(sha, st)
    ensures Follows(sha, st.(index := Index.Load(c, st.index, k, now)))
  {
    Index.TouchSound(st.index, k, Index.NextExpiry(c.ttl, now), c.ttl, c.evict);
  }

  lemma DeleteFollows(sha: Hashing, st: Store, k: string)
    requires Follows(sha, st)
    ensures Follows(sha, DeleteFile(st, k))
  {
    Index.UntrackSound(st.index, k);
  }

  lemma ExpireFollows(sha: Hashing, st: Store, now: int)
    requires Follows(sha, st)
    ensures Follows(sha, ExpireFiles(st, now))
  {
    Index.ExpireSound(st.index, now);
  }

  lemma StepFollows(c: Index.Config, env: Env, st: Store, e: Event)
    requires Usable(c) && Follows(env.sha, st)
    ensures Follows(env.sha, Step(c, env, st, e))
  {
    match e
    case Put(d, now) => WriteFollows(c, env, st, d, now);
    case Saved(d, now) => SaveFollows(c, env, st, d, now);
    case Loaded(k, now) => LoadFollows(c, env.sha, st, k, now);
    case Deleted(k) => DeleteFollows(env.sha, st, k);
    case Expired(now) => ExpireFollows(env.sha, st, now);
  }

  /** Where a history leads from an empty store: in any history, with any limits, evictions and expiry, the index
      follows the files.
   */
  ghost function Run(c: Index.Config, env: Env, es: seq<Event>): (st: Store)
    requires Usable(c)
    ensures Follows(env.sha, st)
  {
    if es == [] then EMPTY
    else
      var st := Run(c, env, es[..|es| - 1]);
      StepFollows(c, env, st, es[|es| - 1]);
      Step(c, env, st, es[|es| - 1])
  }

  // The files after each operation.

  /** A write succeeds exactly if the token is not empty and its key is there, or there is room, or something may be evicted.
      The key then has a token with its hash; nothing else changes, and nothing goes, unless a new key takes the last place.
   */
  lemma WriteExactly(c: Index.Config, env: Env, st: Store, d: Delivery, now: int)
    requires Usable(c) && Follows(env.sha, st)
    ensures var r := WriteFile(c, env, st, d, now);
            && (r.Done? <==> d.token != "" && (d.key in st.files || c.evict || |st.files| < c.limit))
            && (r.Done? ==>
                  && d.key in r.store.files && env.sha(r.store.files[d.key]) == env.sha(d.token)
                  && (forall j :: j in r.store.files && j != d.key ==> j in st.files && r.store.files[j] == st.files[j])
                  && (d.key in st.files || |st.files| < c.limit ==> forall j :: j in st.files ==> j in r.store.files))
  {
    Index.NonEmpty(st.index);
    assert |st.files| == |st.files.Keys| == |st.index.entries.Keys| == |st.index.entries|;
    WriteHolds(c, st.index, d.key, env.sha(d.token), now, env.expires(d.token));
  }

  /** After any history, a key that is deleted is gone, and every other file is as it was; a load changes no file. */
  lemma DeletesOnly(c: Index.Config, env: Env, es: seq<Event>, k: string, j: string, now: int)
    requires Usable(c)
    ensures var st := Run(c, env, es);
            var r := Run(c, env, es + [Deleted(k)]);
            && k !in r.files && (j != k ==> (j in r.files <==> j in st.files) && (j in st.files ==> r.files[j] == st.files[j]))
            && Run(c, env, es + [Loaded(k, now)]).files == st.files
  {
    RunMore(c, env, es, Deleted(k));
    RunMore(c, env, es, Loaded(k, now));
  }

  lemma RunMore(c: Index.Config, env: Env, es: seq<Event>, e: Event)
    requires Usable(c)
    ensures Run(c, env, es + [e]) == Step(c, env, Run(c, env, es), e)
  {
    assert (es + [e])[..|es|] == es;
  }

  /** So the digest depends on the files only: two stores with any limits and any histories that hold the same files have
      the same digest.
   */
  lemma DigestOfFiles(c: Index.Config, env: Env, es: seq<Event>, c': Index.Config, env': Env, es': seq<Event>)
    requires Usable(c) && Usable(c') && env.sha == env'.sha && Run(c, env, es).files == Run(c', env', es').files
    ensures Run(c, env, es).index.digest == Run(c', env', es').index.digest
  {
    SameFilesSameDigest(env.sha, Run(c, env, es), Run(c', env', es'));
  }

  lemma SameFilesSameDigest(sha: Hashing, a: Store, b: Store)
    requires Follows(sha, a) && Follows(sha, b) && a.files == b.files
    ensures a.index.digest == b.index.digest
  {
    Index.DigestOfContents(a.index, b.index);
  }

  // Merging.

  /** Deliveries in order, up to the first refusal; the clock gives the time of each. */
  ghost function SaveEach(c: Index.Config, env: Env, st: Store, ds: seq<Delivery>, clock: int -> int): (r: Outcome)
    requires Usable(c) && Follows(env.sha, st)
    ensures r.Done? ==> Follows(env.sha, r.store)
  {
    if ds == [] then Done(st)
    else
      match SaveEach(c, env, st, ds[..|ds| - 1], clock)
      case Refused => Refused
      case Done(m) =>
        SaveFollows(c, env, m, ds[|ds| - 1], clock(|ds|));
        Save(c, env, m, ds[|ds| - 1], clock(|ds|))
  }

  function KeysOf(ds: set<Delivery>): set<string> { set d | d in ds :: d.key }

  /** Different tokens have different hashes. */
  predicate HashedApart(sha: Hashing, ds: set<Delivery>) {
    forall d, e :: d in ds && e in ds && sha(d.token) == sha(e.token) ==> d.token == e.token
  }

  lemma SmallerSet<T>(a: set<T>, b: set<T>, x: T)
    requires a <= b && x in b && x !in a
    ensures |a| < |b|
  {
    assert b == a + (b - a);
    assert x in b - a;
  }

  /** With room for all keys, a save does to the files what the merge of the files does. */
  lemma SaveMerges(c: Index.Config, env: Env, st: Store, d: Delivery, now: int, ds: set<Delivery>)
    requires Usable(c) && Follows(env.sha, st) && |KeysOf(ds)| <= c.limit && d in ds && HashedApart(env.sha, ds)
    requires forall k :: k in st.files ==> Delivery(k, st.files[k]) in ds
    ensures var r := SaveIfNewer(env.decode, st.files, d);
            match Save(c, env, st, d, now)
            case Done(m) => r == Ok(m.files)
            case Refused => r.Fails?
  {
    Index.NonEmpty(st.index);
    if d.key !in st.files {
      assert st.files.Keys <= KeysOf(ds) by {
        forall k | k in st.files
          ensures k in KeysOf(ds)
        {
          assert Delivery(k, st.files[k]) in ds;
        }
      }
      SmallerSet(st.files.Keys, KeysOf(ds), d.key);
      assert |st.index.entries| == |st.index.entries.Keys|;
    } else {
      assert Delivery(d.key, st.files[d.key]) in ds;
      assert st.files[d.key := st.files[d.key]] == st.files;
    }
  }

  lemma AllSeen(decode: Decode, ds: seq<Delivery>, files: Files, all: set<Delivery>)
    requires Seen(ds) <= all && Ranked(decode, all) && SaveAll(decode, map[], ds) == Ok(files)
    ensures forall k :: k in files ==> Delivery(k, files[k]) in all
  {
    SaveAllNewest(decode, ds);
  }

  /** A store with room for all keys ends with the merge of everything delivered. */
  lemma {:induction false} SaveEachMerges(c: Index.Config, env: Env, ds: seq<Delivery>, clock: int -> int, all: set<Delivery>)
    requires Usable(c) && Seen(ds) <= all && |KeysOf(all)| <= c.limit && HashedApart(env.sha, all) && Ranked(env.decode, all)
    ensures var r := SaveEach(c, env, EMPTY, ds, clock); r.Done? && SaveAll(env.decode, map[], ds) == Ok(r.store.files)
    decreases |ds|
  {
    if ds != [] {
      var init, d := ds[..|ds| - 1], ds[|ds| - 1];
      SeenMore(ds);
      SaveEachMerges(c, env, init, clock, all);
      var m := SaveEach(c, env, EMPTY, init, clock).store;
      AllSeen(env.decode, init, m.files, all);
      SaveMerges(c, env, m, d, clock(|ds|), all);
      SaveAllNewest(env.decode, ds);
    }
  }

  /** So each key has its newest token. */
  lemma SaveEachNewest(c: Index.Config, env: Env, ds: seq<Delivery>, clock: int -> int) returns (st: Store)
    requires Usable(c) && Ranked(env.decode, Seen(ds)) && HashedApart(env.sha, Seen(ds)) && |KeysOf(Seen(ds))| <= c.limit
    ensures SaveEach(c, env, EMPTY, ds, clock) == Done(st)
    ensures Newest(env.decode, Seen(ds), st.files) && Follows(env.sha, st)
  {
    SaveEachMerges(c, env, ds, clock, Seen(ds));
    SaveAllNewest(env.decode, ds);
    st := SaveEach(c, env, EMPTY, ds, clock).store;
  }

  /** Two stores that are delivered the same tokens, in whatever order, however often and at whatever times, and have room
      for them, end with the same files and the same digest.
   */
  lemma SameDigest(c: Index.Config, c': Index.Config, env: Env, ds: seq<Delivery>, ds': seq<Delivery>,
                   clock: int -> int, clock': int -> int) returns (a: Store, b: Store)
    requires Usable(c) && Usable(c') && Seen(ds) == Seen(ds')
    requires Ranked(env.decode, Seen(ds)) && HashedApart(env.sha, Seen(ds))
    requires |KeysOf(Seen(ds))| <= c.limit && |KeysOf(Seen(ds))| <= c'.limit
    ensures SaveEach(c, env, EMPTY, ds, clock) == Done(a) && SaveEach(c', env, EMPTY, ds', clock') == Done(b)
    ensures a.files == b.files && a.index.digest == b.index.digest
  {
    a := SaveEachNewest(c, env, ds, clock);
    b := SaveEachNewest(c', env, ds', clock');
    NewestOnce(env.decode, Seen(ds), a.files, b.files);
    SameFilesSameDigest(env.sha, a, b);
  }

  // Packages.

  function LineOf(d: Delivery): string { d.key + Tail('|', [d.token]) }

  function LinesOf(ds: seq<Delivery>): seq<string> {
    seq(|ds|, i requires 0 <= i < |ds| => LineOf(ds[i]))
  }

  /** A line of a package: nothing, a delivery or an error. */
  datatype Line = Blank | Good(delivery: Delivery) | Malformed

  function ParseLine(line: string, valid: string -> bool): Line {
    if line == "" then Blank
    else if |Split(line, '|')| != 2 || !valid(Split(line, '|')[0]) then Malformed
    else Good(Delivery(Split(line, '|')[0], Split(line, '|')[1]))
  }

  /** Lines in order, up to the first that is malformed or refused. */
  ghost function MergeLines(c: Index.Config, env: Env, st: Store, lines: seq<string>, clock: int -> int): (r: Outcome)
    requires Usable(c) && Follows(env.sha, st)
    ensures r.Done? ==> Follows(env.sha, r.store)
  {
    if lines == [] then Done(st)
    else
      match MergeLines(c, env, st, lines[..|lines| - 1], clock)
      case Refused => Refused
      case Done(m) => MergeLine(c, env, m, lines[|lines| - 1], clock(|lines|))
  }

  ghost function MergeLine(c: Index.Config, env: Env, st: Store, line: string, now: int): (r: Outcome)
    requires Usable(c) && Follows(env.sha, st)
    ensures r.Done? ==> Follows(env.sha, r.store)
  {
    match ParseLine(line, env.valid)
    case Blank => Done(st)
    case Malformed => Refused
    case Good(d) => SaveFollows(c, env, st, d, now); Save(c, env, st, d, now)
  }

  predicate Plain(d: Delivery) {
    '|' !in d.key && '|' !in d.token && '\n' !in d.key && '\n' !in d.token
  }

  /** A line made from a delivery is read back as it. */
  lemma LineBack(d: Delivery, valid: string -> bool)
    requires Plain(d) && valid(d.key)
    ensures ParseLine(LineOf(d), valid) == Good(d)
  {
    SplitJoined('|', d.key, [d.token]);
    assert LineOf(d) != "";
  }

  lemma LineWhole(d: Delivery)
    requires Plain(d)
    ensures '\n' !in LineOf(d)
  {
    TailFree('|', [d.token], '\n');
  }

  lemma {:induction false} MergeLinesBack(c: Index.Config, env: Env, st: Store, ds: seq<Delivery>, clock: int -> int)
    requires Usable(c) && Follows(env.sha, st) && forall d :: d in ds ==> Plain(d) && env.valid(d.key)
    ensures MergeLines(c, env, st, LinesOf(ds), clock) == SaveEach(c, env, st, ds, clock)
    decreases |ds|
  {
    if ds != [] {
      var n := |ds| - 1;
      MergeLinesBack(c, env, st, ds[..n], clock);
      assert LinesOf(ds)[..n] == LinesOf(ds[..n]);
      LineBack(ds[n], env.valid);
    }
  }

  lemma LinesWhole(ds: seq<Delivery>)
    requires forall d :: d in ds ==> Plain(d)
    ensures Without('\n', LinesOf(ds))
  {
    forall i | 0 <= i < |ds|
      ensures '\n' !in LinesOf(ds)[i]
    {
      assert ds[i] in ds;
      LineWhole(ds[i]);
    }
  }

  /** Merging a package does what its deliveries do one after the other. */
  lemma PackageBack(c: Index.Config, env: Env, st: Store, first: Delivery, others: seq<Delivery>, clock: int -> int)
    requires Usable(c) && Follows(env.sha, st) && forall d :: d in [first] + others ==> Plain(d) && env.valid(d.key)
    ensures MergeLines(c, env, st, Split(LineOf(first) + Tail('\n', LinesOf(others)), '\n'), clock) ==
            SaveEach(c, env, st, [first] + others, clock)
  {
    var ds := [first] + others;
    assert first in ds && forall d :: d in others ==> d in ds;
    LineWhole(first);
    LinesWhole(others);
    SplitJoined('\n', LineOf(first), LinesOf(others));
    assert [LineOf(first)] + LinesOf(others) == LinesOf(ds);
    MergeLinesBack(c, env, st, ds, clock);
  }

  // The store as an object.

  class DirStore {
    var files: Files
    const tracker: Tracking.Tracker
    const env: Env

    ghost function Contents(): Store
      reads this, tracker
    {
      Store(files, tracker.Contents())
    }

    ghost predicate Valid()
      reads this, tracker
    {
      Usable(tracker.cfg) && tracker.Valid() && Follows(env.sha, Contents())
    }

    constructor (c: Index.Config, env: Env)
      requires Usable(c)
      ensures Valid() && Contents() == EMPTY && fresh(tracker) && tracker.cfg == c && this.env == env
    {
      this.env, files := env, map[];
      tracker := new Tracking.Tracker(c);
    }

    /** Writes a token and keeps the index in step; the file of a key that has to go is removed. */
    method Write(d: Delivery, now: int) returns (ok: bool)
      requires Valid()
      modifies this, tracker
      ensures Valid() && WriteFile(tracker.cfg, env, old(Contents()), d, now) == if ok then Done(Contents()) else Refused
      ensures !ok ==> Contents() == old(Contents())
    {
      WriteFollows(tracker.cfg, env, Contents(), d, now);
      tracker.HeapSize();
      if |d.token| == 0 {
        return false;
      }
      if d.key !in tracker.items && |tracker.heap| >= tracker.cfg.limit && tracker.cfg.evict {
        files := files - {tracker.lru[0]};
      }
      var changed;
      ok, changed := tracker.WriteKey(d.key, env.sha(d.token), now, env.expires(d.token));
      if ok && changed {
        files := files[d.key := d.token];
      }
    }

    /** Writes a token unless the key has a newer one, or the same. */
    method SaveIfNewer(d: Delivery, now: int) returns (ok: bool)
      requires Valid()
      modifies this, tracker
      ensures Valid() && Save(tracker.cfg, env, old(Contents()), d, now) == if ok then Done(Contents()) else Refused
      ensures !ok ==> Contents() == old(Contents())
    {
      if d.key in files {
        var arriving := env.decode(d.token);
        if arriving.None? {
          return false;
        }
        var existing := env.decode(files[d.key]);
        if existing.Some? {
          if existing.value.id == arriving.value.id || existing.value.issuedAt > arriving.value.issuedAt {
            return true;
          }
          if arriving.value.subject != d.key || existing.value.subject != arriving.value.subject {
            return false;
          }
        }
      }
      ok := Write(d, now);
    }

    /** Saves a line of a package. */
    method MergeOne(line: string, now: int) returns (ok: bool)
      requires Valid()
      modifies this, tracker
      ensures Valid() && MergeLine(tracker.cfg, env, old(Contents()), line, now) == if ok then Done(Contents()) else Refused
    {
      match ParseLine(line, env.valid)
      case Blank => ok := true;
      case Malformed => ok := false;
      case Good(d) => ok := SaveIfNewer(d, now);
    }

    /** Saves the lines of a package, up to the first that fails. */
    method Merge(pack: string, clock: int -> int) returns (ok: bool)
      requires Valid()
      modifies this, tracker
      ensures Valid()
      ensures var r := MergeLines(tracker.cfg, env, old(Contents()), Split(pack, '\n'), clock); if ok then r == Done(Contents()) else r.Refused?
    {
      var lines := Split(pack, '\n');
      ghost var before := Contents();
      for i := 0 to |lines|
        invariant Valid() && MergeLines(tracker.cfg, env, before, lines[..i], clock) == Done(Contents())
      {
        MergeStops(tracker.cfg, env, before, lines, i + 1, clock);
        MergeMore(tracker.cfg, env, before, lines, i, clock, Contents());
        var merged := MergeOne(lines[i], clock(i + 1));
        if !merged {
          return false;
        }
      }
      assert lines[..|lines|] == lines;
      return true;
    }

    /** Reads a token, which is a use of it. */
    method Load(k: string, now: int) returns (token: Option<string>)
      requires Valid()
      modifies tracker
      ensures Valid() && Contents() == old(Contents()).(index := Index.Load(tracker.cfg, old(Contents()).index, k, now))
      ensures token == if k in files then Some(files[k]) else None
    {
      LoadFollows(tracker.cfg, env.sha, Contents(), k, now);
      if k !in files {
        return None;
      }
      tracker.LoadKey(k, now);
      return Some(files[k]);
    }

    method Delete(k: string)
      requires Valid()
      modifies this, tracker
      ensures Valid() && Contents() == DeleteFile(old(Contents()), k)
    {
      DeleteFollows(env.sha, Contents(), k);
      if k in files {
        files := files - {k};
        tracker.UnTrack(k);
      } else {
        assert files - {k} == files;
      }
    }

    /** Removes everything due. */
    method Expire(now: int)
      requires Valid()
      modifies this, tracker
      ensures Valid() && Contents() == ExpireFiles(old(Contents()), now)
    {
      ghost var before := Contents();
      ExpireFollows(env.sha, before, now);
      tracker.ExpireDue(now);
      KeepTracked();
      assert files == ExpireFiles(before, now).files;
    }

    method KeepTracked()
      modifies this`files
      ensures files == map k | k in old(files) && k in tracker.Contents().entries :: old(files)[k]
    {
      files := map k | k in files && k in tracker.items :: files[k];
    }
  }

  lemma MergeMore(c: Index.Config, env: Env, st: Store, lines: seq<string>, i: nat, clock: int -> int, m: Store)
    requires Usable(c) && Follows(env.sha, st) && i < |lines| && MergeLines(c, env, st, lines[..i], clock) == Done(m)
    ensures MergeLines(c, env, st, lines[..i + 1], clock) == MergeLine(c, env, m, lines[i], clock(i + 1))
  {
    assert lines[..i + 1][..i] == lines[..i];
  }

  lemma {:induction false} MergeStops(c: Index.Config, env: Env, st: Store, lines: seq<string>, i: nat, clock: int -> int)
    requires Usable(c) && Follows(env.sha, st) && i <= |lines|
    ensures MergeLines(c, env, st, lines[..i], clock).Refused? ==> MergeLines(c, env, st, lines, clock).Refused?
    decreases |lines| - i
  {
    if i < |lines| {
      MergeStops(c, env, st, lines, i + 1, clock);
      assert lines[..i + 1][..i] == lines[..i];
    } else {
      assert lines[..i] == lines;
    }
  }
}
