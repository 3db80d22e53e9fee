/** Deployment settings: the rewrite that forces `sslmode=disable` onto the database URL,
    and the list of origins allowed to call the API. */
module DbSettings {
  import opened Wrappers
  import opened Text
  import opened Seqs

  const SslDisable: string := "sslmode=disable"

  /** A query parameter that sets the SSL mode. */
  predicate IsSslParam(p: string) {
    StartsWith(p, "sslmode=")
  }

  function KeepParam(): string -> bool {
    (p: string) => !IsSslParam(p)
  }

  /** `url.split('?')[0]`: everything before the first question mark. */
  function Base(u: string): string {
    Split(u, '?')[0]
  }

  /** `url.split('?')[1] if '?' in url else ''`: the text between the first question
      mark and the next one, if any. */
  function QueryPart(u: string): string {
    if '?' in u then Split(u, '?')[1] else ""
  }

  /** The query parameters as `split('&')` sees them; none without a question mark. */
  function Params(u: string): seq<string> {
    if '?' in u then Split(QueryPart(u), '&') else []
  }

  /** `url` ends with `suffix`. */
  predicate EndsWith(u: string, suffix: string) {
    |suffix| <= |u| && u[|u| - |suffix|..] == suffix
  }

  /** The query parameters that survive the rewrite: those not setting the SSL mode. */
  function Kept(u: string): seq<string> {
    Filter(Split(QueryPart(u), '&'), KeepParam())
  }

  /** Pieces free of both separators. */
  predicate Clean(parts: seq<string>) {
    forall k :: 0 <= k < |parts| ==> '?' !in parts[k] && '&' !in parts[k]
  }

  /** `base + '?' + '&'.join(kept) + '&sslmode=disable'`, or `base + '?sslmode=disable'`
      when nothing is kept. */
  function Rebuilt(base: string, kept: seq<string>): string {
    if |kept| > 0 then base + ['?'] + (Join(kept, "&") + ['&'] + SslDisable)
    else base + ['?'] + SslDisable
  }

  /** `url + '&sslmode=disable'` or `url + '?sslmode=disable'`. */
  function Appended(u: string): string {
    if '?' in u then u + ['&'] + SslDisable else u + ['?'] + SslDisable
  }

  /** The rewrite of DATABASE_URL: an empty URL is left alone; otherwise any `sslmode=`
      parameter is dropped and `sslmode=disable` is appended as the last parameter. */
  function DisableSsl(u: string): (r: string)
    ensures u == "" <==> r == ""
    ensures u != "" ==> EndsWith(r, SslDisable)
  {
    if u == "" then u
    else if Contains(u, "sslmode=") then
      var params := QueryPart(u);
      if params != "" then Rebuilt(Base(u), Kept(u))
      else Rebuilt(Base(u), [])
    else Appended(u)
  }

  /** A URL with at most one question mark. */
  predicate SingleQuery(u: string) {
    |Split(u, '?')| <= 2
  }

  lemma SslDisableClean()
    ensures '?' !in SslDisable && '&' !in SslDisable
  {
  }

  /** A rebuilt URL has the given base, one question mark, and the kept parameters
      followed by `sslmode=disable`. */
  lemma RebuiltShape(base: string, kept: seq<string>)
    requires '?' !in base
    requires Clean(kept)
    ensures var r := Rebuilt(base, kept);
            Base(r) == base && SingleQuery(r) && '?' in r && Params(r) == kept + [SslDisable]
  {
    SslDisableClean();
    if |kept| > 0 {
      var j := Join(kept, "&");
      JoinLacks(kept, '&', '?');
      SplitAfter(base, '?', j + ['&'] + SslDisable);
      SplitAppend(j, '&', SslDisable);
      SplitJoin(kept, '&');
    } else {
      SplitAfter(base, '?', SslDisable);
    }
  }

  /** Appending keeps the base; with at most one question mark the old parameters are
      all kept and `sslmode=disable` follows. */
  lemma AppendedShape(u: string)
    ensures Base(Appended(u)) == Base(u)
    ensures SingleQuery(u) ==> SingleQuery(Appended(u)) && '?' in Appended(u)
    ensures SingleQuery(u) ==> Params(Appended(u)) == Params(u) + [SslDisable]
  {
    if '?' in u {
      var i := IndexOf(u, '?');
      var b, q := u[..i], u[i + 1..];
      assert u == b + ['?'] + q;
      AppendedQueryShape(b, q);
    } else {
      SslDisableClean();
      SplitAfter(u, '?', SslDisable);
    }
  }

  /** `AppendedShape` for a URL `b?q` whose base `b` has no question mark. */
  lemma AppendedQueryShape(b: string, q: string)
    requires '?' !in b
    ensures var u := b + ['?'] + q;
            && Base(Appended(u)) == b && Base(u) == b
            && (SingleQuery(u) ==> SingleQuery(Appended(u)) && '?' in Appended(u))
            && (SingleQuery(u) ==> Params(Appended(u)) == Params(u) + [SslDisable])
  {
    var u := b + ['?'] + q;
    SslDisableClean();
    SplitAfter(b, '?', q);
    assert Appended(u) == b + ['?'] + (q + ['&'] + SslDisable);
    SplitAfter(b, '?', q + ['&'] + SslDisable);
    if SingleQuery(u) {
      assert '?' !in q;
      SplitAppend(q, '&', SslDisable);
    }
  }

  /** The part before the first question mark is never changed. */
  lemma BaseKept(u: string)
    ensures Base(DisableSsl(u)) == Base(u)
  {
    if u != "" {
      if Contains(u, "sslmode=") {
        var kept := if QueryPart(u) != "" then Kept(u) else [];
        KeptClean(u);
        RebuiltShape(Base(u), kept);
      } else {
        AppendedShape(u);
      }
    }
  }

  /** The base and the kept parameters are free of both separators. */
  lemma KeptClean(u: string)
    ensures '?' !in Base(u)
    ensures Clean(Kept(u))
  {
    assert '?' !in QueryPart(u);
    SplitPiecesAvoid(QueryPart(u), '&', '?');
  }

  /** For a URL with at most one question mark, the result has exactly one, and its
      parameters are the old ones without any `sslmode=` parameter, in their order,
      followed by `sslmode=disable`. The one exception is a URL that mentions
      `sslmode=` outside an empty query: its empty parameter is dropped as well. */
  lemma RewrittenParams(u: string)
    requires u != "" && SingleQuery(u)
    ensures SingleQuery(DisableSsl(u)) && '?' in DisableSsl(u)
    ensures Params(DisableSsl(u)) == Surviving(u) + [SslDisable]
  {
    KeptClean(u);
    if !Contains(u, "sslmode=") {
      AppendedShape(u);
      PlainPieces(u);
    } else if QueryPart(u) != "" {
      RebuiltShape(Base(u), Kept(u));
    } else {
      RebuiltShape(Base(u), []);
      if '?' in u {
        assert Params(u) == [""];
        FilterSingle("", KeepParam());
      }
    }
  }

  /** Without `sslmode=` in the URL no parameter is an SSL parameter. */
  lemma PlainPieces(u: string)
    requires !Contains(u, "sslmode=")
    ensures Filter(Params(u), KeepParam()) == Params(u)
  {
    if '?' in u {
      QueryLacks(u, "sslmode=");
      SplitPiecesLack(QueryPart(u), '&', "sslmode=");
      FilterAll(Split(QueryPart(u), '&'), KeepParam());
    }
  }

  /** Rewriting an already rewritten URL changes nothing, so the settings may be loaded
      again from a URL they produced. */
  lemma RewriteIdempotent(u: string)
    requires SingleQuery(u)
    ensures DisableSsl(DisableSsl(u)) == DisableSsl(u)
  {
    if u != "" {
      var r := DisableSsl(u);
      var k := Surviving(u);
      RewrittenParams(u);
      BaseKept(u);
      SecondPass(r, Base(u), k);
      RewriteIsRebuilt(u, k);
    }
  }

  /** The parameters a rewrite keeps ahead of `sslmode=disable`. */
  function Surviving(u: string): seq<string> {
    if '?' in u && QueryPart(u) == "" && Contains(u, "sslmode=") then [] else Filter(Params(u), KeepParam())
  }

  /** A second rewrite rebuilds the URL from the same base and kept parameters. */
  lemma SecondPass(r: string, b: string, k: seq<string>)
    requires EndsWith(r, SslDisable) && '?' in r && Base(r) == b && Params(r) == k + [SslDisable]
    requires forall i :: 0 <= i < |k| ==> KeepParam()(k[i])
    ensures DisableSsl(r) == Rebuilt(b, k)
  {
    RewrittenMentionsSsl(r);
    assert QueryPart(r) != "";
    KeptAgain(k);
    assert Kept(r) == k;
  }

  /** A rewritten URL mentions `sslmode=`. */
  lemma RewrittenMentionsSsl(r: string)
    requires EndsWith(r, SslDisable)
    ensures Contains(r, "sslmode=")
  {
    assert OccursAt(SslDisable, "sslmode=", 0);
    ContainsAt(SslDisable, "sslmode=", 0);
    ContainsInfix(r[..|r| - |SslDisable|], SslDisable, [], "sslmode=");
    assert r[..|r| - |SslDisable|] + SslDisable + [] == r;
  }

  /** Filtering the kept parameters and `sslmode=disable` leaves the kept parameters. */
  lemma KeptAgain(k: seq<string>)
    requires forall i :: 0 <= i < |k| ==> KeepParam()(k[i])
    ensures Filter(k + [SslDisable], KeepParam()) == k
  {
    assert IsSslParam(SslDisable);
    FilterSnoc(k, SslDisable, KeepParam());
    FilterAll(k, KeepParam());
  }

  /** Every rewritten URL is its base followed by its kept parameters and
      `sslmode=disable`. */
  lemma RewriteIsRebuilt(u: string, k: seq<string>)
    requires u != "" && SingleQuery(u)
    requires k == Surviving(u)
    ensures DisableSsl(u) == Rebuilt(Base(u), k)
  {
    if !Contains(u, "sslmode=") {
      PlainPieces(u);
      if '?' in u {
        AppendedIsRebuilt(u);
      }
    } else if '?' !in u {
      assert Params(u) == [];
    }
  }

  /** Appending to a URL with one question mark is re-joining its parameters. */
  lemma AppendedIsRebuilt(u: string)
    requires '?' in u && SingleQuery(u)
    ensures Appended(u) == Rebuilt(Base(u), Params(u))
  {
    var i := IndexOf(u, '?');
    var b, q := u[..i], u[i + 1..];
    assert u == b + ['?'] + q;
    SplitAfter(b, '?', q);
    assert '?' !in q;
    assert Base(u) == b && QueryPart(u) == q;
    var ps := Split(q, '&');
    JoinSplit(q, '&');
    assert Params(u) == ps && |ps| > 0;
    assert Rebuilt(b, ps) == b + ['?'] + (q + ['&'] + SslDisable);
    assert Appended(u) == (b + ['?'] + q) + ['&'] + SslDisable;
  }

  /** The query of a URL lacking `x` lacks `x`. */
  lemma QueryLacks(u: string, x: string)
    requires '?' in u && !Contains(u, x)
    ensures !Contains(QueryPart(u), x)
  {
    var i := IndexOf(u, '?');
    var b, q := u[..i], u[i + 1..];
    assert u == b + ['?'] + q;
    SplitAfter(b, '?', q);
    assert QueryPart(u) == Split(q, '?')[0];
    FirstPieceContains(q, '?', x);
    ContainsInfix(b + ['?'], q, [], x);
    assert b + ['?'] + q + [] == u;
  }

  /** What the first piece of a split contains, the whole string contains. */
  lemma FirstPieceContains(q: string, sep: char, x: string)
    ensures Contains(Split(q, sep)[0], x) ==> Contains(q, x)
  {
    if sep in q {
      var i := IndexOf(q, sep);
      assert q == q[..i] + q[i..];
      if Contains(q[..i], x) {
        ContainsInfix([], q[..i], q[i..], x);
        assert [] + q[..i] + q[i..] == q;
      }
    }
  }

  /** Joining pieces that lack `c` with a separator other than `c` gives a string
      lacking `c`. */
  lemma {:induction false} JoinLacks(parts: seq<string>, sep: char, c: char)
    requires sep != c
    requires forall k :: 0 <= k < |parts| ==> c !in parts[k]
    ensures c !in Join(parts, [sep])
    decreases |parts|
  {
    if |parts| > 1 {
      JoinLacks(parts[1..], sep, c);
    }
  }

  /** Origins always allowed to call the API. */
  const DefaultOrigins: seq<string> := ["http://localhost:5173", "http://localhost:3000", "https://fluxtrader.xyz"]

  /** CORS_ALLOWED_ORIGINS: the defaults, then FRONTEND_URL when it is set and non-empty. */
  function AllowedOrigins(frontendUrl: Option<string>): (r: seq<string>)
    ensures |r| >= |DefaultOrigins| && r[..|DefaultOrigins|] == DefaultOrigins
    ensures |r| == |DefaultOrigins| + 1 <==> (frontendUrl.Some? && frontendUrl.value != "")
    ensures |r| > |DefaultOrigins| ==> frontendUrl.Some? && r == DefaultOrigins + [frontendUrl.value]
  {
    match frontendUrl
    case Some(url) => if url != "" then DefaultOrigins + [url] else DefaultOrigins
    case None => DefaultOrigins
  }
}
