/**
 * The database settings: whether the configured URL names SQLite, and the
 * URL handed to the async engine, whose scheme names an async driver.
 */
module Config {
  import opened PyStr

  /** `Settings.database_url` when the environment does not set it. */
  const DefaultDatabaseUrl := "sqlite:///hatchery.db"

  const SqliteScheme := "sqlite:///"
  const SqliteAsyncScheme := "sqlite+aiosqlite:///"
  const PostgresScheme := "postgresql://"
  const PostgresAsyncScheme := "postgresql+asyncpg://"

  /** `Settings.is_sqlite` */
  predicate IsSqlite(url: string) {
    StartsWith(url, "sqlite")
  }

  // -------------------------------------------------------- `replace` facts

  /** `replace` on a string that begins with the pattern: the first replacement comes first. */
  lemma ReplaceAllLeading(pat: string, rep: string, rest: string)
    requires pat != []
    ensures ReplaceAll(pat + rest, pat, rep) == rep + ReplaceAll(rest, pat, rep)
  {
    assert (pat + rest)[..|pat|] == pat;
    assert (pat + rest)[|pat|..] == rest;
  }

  /** A prefix in which no occurrence of the pattern begins is copied as it is. */
  lemma {:induction false} ReplaceAllSkips(a: string, b: string, pat: string, rep: string)
    requires pat != []
    requires forall k :: 0 <= k < |a| ==> !OccursAt(a + b, pat, k)
    ensures ReplaceAll(a + b, pat, rep) == a + ReplaceAll(b, pat, rep)
    decreases |a|
  {
    var s := a + b;
    if a != [] {
      assert !OccursAt(s, pat, 0);
      assert s[1..] == a[1..] + b;
      forall k | 0 <= k < |a[1..]| ensures !OccursAt(a[1..] + b, pat, k) {
        assert !OccursAt(s, pat, k + 1);
        if k + |pat| <= |s[1..]| {
          assert s[1..][k..k + |pat|] == s[k + 1..k + 1 + |pat|];
        }
      }
      ReplaceAllSkips(a[1..], b, pat, rep);
      assert [s[0]] + a[1..] == a;
      if |s| < |pat| {
        assert ReplaceAll(a[1..] + b, pat, rep) == a[1..] + b;
      } else {
        assert s[0..|pat|] == s[..|pat|];
        assert ReplaceAll(s, pat, rep) == [s[0]] + ReplaceAll(s[1..], pat, rep);
      }
    } else {
      assert s == b;
    }
  }

  // ------------------------------------------------------ as written

  /**
   * `Settings.async_database_url` as written: for a SQLite URL every
   * occurrence of `sqlite:///` is rewritten, also the one inside a URL that
   * already names the async driver.
   */
  function AsyncDatabaseUrlAsWritten(url: string): (r: string)
    ensures !IsSqlite(url) && !StartsWith(url, PostgresScheme) ==> r == url
  {
    if IsSqlite(url) then ReplaceAll(url, SqliteScheme, SqliteAsyncScheme)
    else if StartsWith(url, PostgresScheme) then ReplaceAll(url, PostgresScheme, PostgresAsyncScheme)
    else url
  }

  /**
   * An async SQLite URL is rewritten a second time and names the driver
   * twice: `sqlite+aiosqlite:///hatchery.db` becomes
   * `sqlite+aiosqlite+aiosqlite:///hatchery.db`.
   */
  lemma AsyncSqliteUrlRewrittenAgain(path: string)
    requires !Contains(path, SqliteScheme)
    ensures AsyncDatabaseUrlAsWritten(SqliteAsyncScheme + path) == "sqlite+aiosqlite+aiosqlite:///" + path
  {
    var head := "sqlite+aio";
    var x := SqliteScheme + path;
    var url := head + x;
    assert url == SqliteAsyncScheme + path;
    assert IsSqlite(url) by { assert url[..6] == head[..6]; }
    assert ReplaceAll(url, SqliteScheme, SqliteAsyncScheme) == head + ReplaceAll(x, SqliteScheme, SqliteAsyncScheme) by {
      NoSchemeInHead(x);
      ReplaceAllSkips(head, x, SqliteScheme, SqliteAsyncScheme);
    }
    assert ReplaceAll(x, SqliteScheme, SqliteAsyncScheme) == SqliteAsyncScheme + path by {
      ReplaceAllLeading(SqliteScheme, SqliteAsyncScheme, path);
      ReplaceAllAbsent(path, SqliteScheme, SqliteAsyncScheme);
    }
    assert head + (SqliteAsyncScheme + path) == "sqlite+aiosqlite+aiosqlite:///" + path;
  }

  lemma NoSchemeInHead(b: string)
    ensures forall k :: 0 <= k < 10 ==> !OccursAt("sqlite+aio" + b, SqliteScheme, k)
  {
    var s := "sqlite+aio" + b;
    forall k | 0 <= k < 10 ensures !OccursAt(s, SqliteScheme, k) {
      if k + 10 <= |s| {
        var w := s[k..k + 10];
        assert w[0] == s[k] == "sqlite+aio"[k];
        if k == 0 {
          assert w[6] == s[6] == '+';
        }
      }
    }
  }

  /** The default database file name holds no scheme. */
  lemma DefaultPathHasNoScheme()
    ensures !Contains("hatchery.db", SqliteScheme)
  {
    var tail := "hatchery.db";
    forall k | 0 <= k ensures !OccursAt(tail, SqliteScheme, k) {
      if k + 10 <= |tail| {
        assert tail[k..k + 10][0] == tail[k] != 's';
      }
    }
    ContainsIff(tail, SqliteScheme);
  }

  // ------------------------------------------------------ corrected

  /** The URL for the async engine: only a leading `sqlite:///` or `postgresql://` scheme is rewritten. */
  function AsyncDatabaseUrl(url: string): (r: string)
    ensures StartsWith(url, SqliteScheme) ==> r == SqliteAsyncScheme + url[|SqliteScheme|..]
    ensures StartsWith(url, PostgresScheme) ==> r == PostgresAsyncScheme + url[|PostgresScheme|..]
    ensures !StartsWith(url, SqliteScheme) && !StartsWith(url, PostgresScheme) ==> r == url
    ensures IsSqlite(r) <==> IsSqlite(url)
  {
    if StartsWith(url, SqliteScheme) then
      var r := SqliteAsyncScheme + url[|SqliteScheme|..];
      assert r[..6] == SqliteAsyncScheme[..6] == url[..6];
      assert !StartsWith(url, PostgresScheme) by { assert url[0] == 's'; }
      r
    else if StartsWith(url, PostgresScheme) then
      var r := PostgresAsyncScheme + url[|PostgresScheme|..];
      assert r[0] == url[0] == 'p';
      r
    else url
  }

  /** The default settings give the async SQLite driver on the same file. */
  lemma DefaultAsyncUrl()
    ensures IsSqlite(DefaultDatabaseUrl)
    ensures AsyncDatabaseUrl(DefaultDatabaseUrl) == "sqlite+aiosqlite:///hatchery.db"
  {
    assert DefaultDatabaseUrl == SqliteScheme + "hatchery.db";
  }

  /** An URL already rewritten for the async engine is kept as it is. */
  lemma AsyncDatabaseUrlIdempotent(url: string)
    ensures AsyncDatabaseUrl(AsyncDatabaseUrl(url)) == AsyncDatabaseUrl(url)
  {
    var r := AsyncDatabaseUrl(url);
    if StartsWith(url, SqliteScheme) {
      assert r[6] == '+';
      assert !StartsWith(r, SqliteScheme) by { assert SqliteScheme[6] == ':'; }
      assert !StartsWith(r, PostgresScheme) by { assert r[0] == 's'; }
    } else if StartsWith(url, PostgresScheme) {
      assert r[10] == '+';
      assert !StartsWith(r, PostgresScheme) by { assert PostgresScheme[10] == ':'; }
      assert !StartsWith(r, SqliteScheme) by { assert r[0] == 'p'; }
    }
  }

  /** No occurrence of `p` begins after the first character of `url`. */
  ghost predicate OnlyLeading(url: string, p: string) {
    forall k :: 1 <= k ==> !OccursAt(url, p, k)
  }

  /**
   * Where no scheme occurs past the start of the URL the corrected URL is the
   * one the code as written produces.
   */
  lemma AsyncDatabaseUrlAgrees(url: string)
    requires OnlyLeading(url, SqliteScheme) && OnlyLeading(url, PostgresScheme)
    ensures AsyncDatabaseUrl(url) == AsyncDatabaseUrlAsWritten(url)
  {
    if IsSqlite(url) {
      if StartsWith(url, SqliteScheme) {
        RewriteLeadingOnly(url, SqliteScheme, SqliteAsyncScheme);
      } else {
        forall k | 0 <= k ensures !OccursAt(url, SqliteScheme, k) {
          if k == 0 && |SqliteScheme| <= |url| {
            assert url[..|SqliteScheme|] == url[0..|SqliteScheme|];
          }
        }
        ContainsIff(url, SqliteScheme);
        ReplaceAllAbsent(url, SqliteScheme, SqliteAsyncScheme);
      }
    } else if StartsWith(url, PostgresScheme) {
      RewriteLeadingOnly(url, PostgresScheme, PostgresAsyncScheme);
    }
  }

  /** `replace` on a URL whose only occurrence of the pattern is at its start. */
  lemma RewriteLeadingOnly(url: string, pat: string, rep: string)
    requires pat != [] && StartsWith(url, pat) && OnlyLeading(url, pat)
    ensures ReplaceAll(url, pat, rep) == rep + url[|pat|..]
  {
    var rest := url[|pat|..];
    assert url == pat + rest;
    ReplaceAllLeading(pat, rep, rest);
    forall k | 0 <= k ensures !OccursAt(rest, pat, k) {
      if k + |pat| <= |rest| {
        assert rest[k..k + |pat|] == url[k + |pat|..k + |pat| + |pat|];
      }
      assert !OccursAt(url, pat, k + |pat|);
    }
    ContainsIff(rest, pat);
    ReplaceAllAbsent(rest, pat, rep);
  }
}
