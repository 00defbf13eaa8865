/** Merging JWTs between servers (server/dirstore.go): a token replaces the stored one for its key only if it is not
older, so that stores that have seen the same tokens agree.

What a token claims is given by `decode`.  This is the merge as far as the files go; limits and expiry come in with the
index beside them.
 */
module JwtMerge {
  import opened Basics

  datatype Claims = Claims(id: string, issuedAt: int, subject: string)

  datatype Delivery = Delivery(key: string, token: string)

  type Files = map<string, string>

  datatype Result = Ok(files: Files) | Fails

  type Decode = string -> Option<Claims>

  /** What a stored token does with an arriving one: it stays, or is replaced, or the subjects do not fit. */
  datatype Verdict = Stays | Replaced | Misfit

  function Compare(key: string, existing: Option<Claims>, arriving: Claims): Verdict {
    if existing.None? then Replaced
    else if existing.value.id == arriving.id || existing.value.issuedAt > arriving.issuedAt then Stays
    else if arriving.subject != key || existing.value.subject != arriving.subject then Misfit
    else Replaced
  }

  /** Stores a token unless the key has a newer one, or the same. */
  function SaveIfNewer(decode: Decode, files: Files, d: Delivery): Result {
    if d.key !in files then Store(files, d)
    else if decode(d.token).None? then Fails
    else
      match Compare(d.key, decode(files[d.key]), decode(d.token).value)
      case Stays => Ok(files)
      case Misfit => Fails
      case Replaced => Store(files, d)
  }

  function Store(files: Files, d: Delivery): Result {
    if d.token == "" then Fails else Ok(files[d.key := d.token])
  }

  /** Deliveries in order, up to the first failure. */
  function SaveAll(decode: Decode, files: Files, ds: seq<Delivery>): Result {
    if ds == [] then Ok(files)
    else
      match SaveAll(decode, files, ds[..|ds| - 1])
      case Fails => Fails
      case Ok(f) => SaveIfNewer(decode, f, ds[|ds| - 1])
  }

  // Tokens that can be told apart.

  /** A token that can be read and is for its key. */
  predicate Proper(decode: Decode, d: Delivery) {
    d.token != "" && decode(d.token).Some? && decode(d.token).value.subject == d.key
  }

  /** The issue time of a token. */
  function Issued(decode: Decode, token: string): int {
    if decode(token).Some? then decode(token).value.issuedAt else 0
  }

  predicate SameId(decode: Decode, a: string, b: string) {
    decode(a).Some? && decode(b).Some? && decode(a).value.id == decode(b).value.id
  }

  /** Tokens for one key that share an issue time, or an id, are the same. */
  predicate Apart(decode: Decode, d: Delivery, e: Delivery) {
    d.key == e.key && (Issued(decode, d.token) == Issued(decode, e.token) || SameId(decode, d.token, e.token)) ==> d == e
  }

  /** All tokens are proper and can be told apart. */
  predicate Ranked(decode: Decode, ds: set<Delivery>) {
    && (forall d :: d in ds ==> Proper(decode, d))
    && (forall d, e :: d in ds && e in ds ==> Apart(decode, d, e))
  }

  function Seen(ds: seq<Delivery>): set<Delivery> { set d | d in ds }

  lemma SeenMore(ds: seq<Delivery>)
    requires ds != []
    ensures Seen(ds) == Seen(ds[..|ds| - 1]) + {ds[|ds| - 1]}
  {
    var init, d := ds[..|ds| - 1], ds[|ds| - 1];
    assert ds == init + [d];
  }

  /** The files hold, for each key delivered and no other, a token delivered for it with the greatest issue time. */
  ghost predicate Newest(decode: Decode, ds: set<Delivery>, files: Files) {
    && (forall k :: k in files ==> Delivery(k, files[k]) in ds)
    && (forall d :: d in ds ==> d.key in files && Issued(decode, d.token) <= Issued(decode, files[d.key]))
  }

  /** After any deliveries, in any order and however repeated, each key has its newest token. */
  lemma {:induction false} SaveAllNewest(decode: Decode, ds: seq<Delivery>)
    requires Ranked(decode, Seen(ds))
    ensures var r := SaveAll(decode, map[], ds); r.Ok? && Newest(decode, Seen(ds), r.files)
    decreases |ds|
  {
    if ds != [] {
      var init, d := ds[..|ds| - 1], ds[|ds| - 1];
      SeenMore(ds);
      SaveAllNewest(decode, init);
      SaveOneNewest(decode, Seen(init), SaveAll(decode, map[], init).files, d);
    }
  }

  lemma SaveOneNewest(decode: Decode, ds: set<Delivery>, files: Files, d: Delivery)
    requires Ranked(decode, ds + {d}) && Newest(decode, ds, files)
    ensures var r := SaveIfNewer(decode, files, d); r.Ok? && Newest(decode, ds + {d}, r.files)
  {
    assert Proper(decode, d);
    if d.key in files {
      var held := Delivery(d.key, files[d.key]);
      assert Proper(decode, held) && Apart(decode, held, d);
    }
  }

  /** Stores that have seen the same tokens hold the same. */
  lemma Converge(decode: Decode, a: seq<Delivery>, b: seq<Delivery>)
    requires Seen(a) == Seen(b) && Ranked(decode, Seen(a))
    ensures SaveAll(decode, map[], a) == SaveAll(decode, map[], b)
  {
    SaveAllNewest(decode, a);
    SaveAllNewest(decode, b);
    NewestOnce(decode, Seen(a), SaveAll(decode, map[], a).files, SaveAll(decode, map[], b).files);
  }

  lemma NewestOnce(decode: Decode, ds: set<Delivery>, f: Files, g: Files)
    requires Ranked(decode, ds) && Newest(decode, ds, f) && Newest(decode, ds, g)
    ensures f == g
  {
    forall k | k in f
      ensures k in g && f[k] == g[k]
    {
      var d := Delivery(k, f[k]);
      assert d in ds;
      var e := Delivery(k, g[k]);
      assert e in ds && Apart(decode, d, e);
    }
    forall k | k in g
      ensures k in f
    {
      assert Delivery(k, g[k]) in ds;
    }
  }

  // Any tokens.

  /** A token that can be read gives way exactly to one that can be read, is for the same key, as the old one was, has
      another id, and is not older; and an arriving one for another subject is refused unless it is the same or older.
   */
  lemma GivesWay(decode: Decode, files: Files, d: Delivery)
    requires d.key in files && decode(files[d.key]).Some? && files[d.key] != d.token && d.token != ""
    ensures var r := SaveIfNewer(decode, files, d);
            r == Ok(files[d.key := d.token]) <==>
            && decode(d.token).Some?
            && var held, come := decode(files[d.key]).value, decode(d.token).value;
               come.subject == d.key && held.subject == d.key && come.id != held.id && come.issuedAt >= held.issuedAt
    ensures var r := SaveIfNewer(decode, files, d); r.Ok? ==> r.files == files || r.files == files[d.key := d.token]
  {
    assert files[d.key := d.token][d.key] != files[d.key];
  }

  /** What became of the file of a key that could be read: it still can be, is not older, and is the same file or one whose
      token is for that key.
   */
  ghost predicate Succeeds(decode: Decode, files: Files, after: Files, k: string)
    requires k in files && decode(files[k]).Some?
  {
    && k in after && decode(after[k]).Some? && Issued(decode, files[k]) <= Issued(decode, after[k])
    && (after[k] == files[k] || decode(after[k]).value.subject == k)
  }

  /** Whatever is delivered, in any order, no token for another subject, none that cannot be read and no older one ever takes
      the place of one that can be read.
   */
  lemma {:induction false} SavesFollow(decode: Decode, files: Files, ds: seq<Delivery>, k: string)
    requires k in files && decode(files[k]).Some?
    ensures var r := SaveAll(decode, files, ds); r.Ok? ==> Succeeds(decode, files, r.files, k)
    decreases |ds|
  {
    if ds != [] {
      SavesFollow(decode, files, ds[..|ds| - 1], k);
    }
  }
}
