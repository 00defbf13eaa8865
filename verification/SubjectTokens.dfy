/** Subjects with partial wildcards, and the destinations that stand for them (server/subject_transform.go): the
wildcards become `$1`, `$2` and so on.
 */
module SubjectTokens {
  import opened Basics
  import opened Strings

  /** The tokens with the wildcards numbered from `i` on. */
  function Marked(ts: seq<string>, i: nat): (r: seq<string>)
    ensures |r| == |ts|
  {
    if ts == [] then []
    else if ts[0] == "*" then ["$" + Decimal(i)] + Marked(ts[1..], i + 1)
    else [ts[0]] + Marked(ts[1..], i)
  }

  function Tokenize(subject: string): string { Join('.', Marked(Split(subject, '.'), 1)) }

  predicate Partial(subject: string) { "*" in Split(subject, '.') }

  lemma {:induction false} MarkedSame(ts: seq<string>, i: nat)
    ensures Marked(ts, i) == ts <==> "*" !in ts
  {
    if ts != [] {
      assert ts == [ts[0]] + ts[1..];
      if ts[0] == "*" {
        assert Marked(ts, i)[0] == "$" + Decimal(i) && ("$" + Decimal(i))[0] == '$';
      } else {
        MarkedSame(ts[1..], i);
        assert Marked(ts, i)[1..] == Marked(ts[1..], i);
      }
    }
  }

  lemma {:induction false} MarkedDotFree(ts: seq<string>, i: nat)
    requires Without('.', ts)
    ensures Without('.', Marked(ts, i))
  {
    if ts != [] {
      MarkedDotFree(ts[1..], if ts[0] == "*" then i + 1 else i);
      DecimalDotFree(i);
    }
  }

  lemma {:induction false} DecimalDotFree(n: nat)
    ensures '.' !in Decimal(n)
  {
    if n >= 10 {
      DecimalDotFree(n / 10);
    }
  }

  /** A subject is its own destination exactly when it has no partial wildcard. */
  lemma TokenizeSame(subject: string)
    ensures Tokenize(subject) == subject <==> !Partial(subject)
  {
    var ts := Split(subject, '.');
    JoinSplit(subject, '.');
    MarkedSame(ts, 1);
    MarkedDotFree(ts, 1);
    var ms := Marked(ts, 1);
    SplitJoined('.', ms[0], ms[1..]);
    assert [ms[0]] + ms[1..] == ms;
  }

  /** Replaces the wildcards of a subject. */
  method TransformTokenize(subject: string) returns (dest: string)
    ensures dest == Tokenize(subject)
  {
    var ts := Split(subject, '.');
    var nda := [];
    var i := 1;
    for j := 0 to |ts|
      invariant |nda| == j && i >= 1 && Marked(ts, 1) == nda + Marked(ts[j..], i)
    {
      var token := if ts[j] == "*" then "$" + Decimal(i) else ts[j];
      MarkedMore(ts, j, i, nda, token);
      nda := nda + [token];
      i := if ts[j] == "*" then i + 1 else i;
    }
    Unit(nda);
    dest := Join('.', nda);
  }

  lemma MarkedMore(ts: seq<string>, j: nat, i: nat, nda: seq<string>, token: string)
    requires j < |ts| && token == if ts[j] == "*" then "$" + Decimal(i) else ts[j]
    ensures nda + Marked(ts[j..], i) == (nda + [token]) + Marked(ts[j + 1..], if ts[j] == "*" then i + 1 else i)
  {
    assert ts[j..][1..] == ts[j + 1..];
    Assoc(nda, [token], Marked(ts[j + 1..], if ts[j] == "*" then i + 1 else i));
  }
}
