/**
 * The database settings read at start-up: the URL taken from the
 * DATABASE_URL environment variable (SQLite in a local file when it is
 * unset or empty), the "postgres://" scheme some hosting providers hand out
 * rewritten to the "postgresql://" scheme SQLAlchemy expects, and the
 * check_same_thread=False connect argument passed to SQLite engines only.
 */
module DatabaseConfig {
  import opened Wrappers
  import opened Text

  const DefaultUrl: string := "sqlite:///./finance.db"

  /** The scheme the providers hand out. */
  const LegacyScheme: string := "postgres://"

  /** The scheme SQLAlchemy accepts for PostgreSQL. */
  const PostgresScheme: string := "postgresql://"

  /** `os.getenv("DATABASE_URL")`, replaced by the SQLite default when it is
      None or the empty string (both falsy). */
  function WithDefault(env: Option<string>): (url: string)
    ensures url != ""
    ensures env.None? || env.value == "" ==> url == DefaultUrl
    ensures env.Some? && env.value != "" ==> url == env.value
  {
    if env.None? || env.value == "" then DefaultUrl else env.value
  }

  /** Python's `s.replace(target, replacement, 1)`: the leftmost occurrence
      of target, if any, replaced. */
  function ReplaceFirst(s: string, target: string, replacement: string): (r: string)
    requires target != ""
    ensures !Contains(s, target) ==> r == s
    decreases |s|
  {
    if StartsWith(s, target) then replacement + s[|target|..]
    else if s == [] then s
    else [s[0]] + ReplaceFirst(s[1..], target, replacement)
  }

  /** When target first occurs at k, exactly that occurrence is replaced and
      everything around it is kept. */
  lemma {:induction false} ReplaceFirstLeftmost(s: string, target: string, replacement: string, k: nat)
    requires target != ""
    requires k <= |s| && StartsWith(s[k..], target)
    requires forall j :: 0 <= j < k ==> !StartsWith(s[j..], target)
    ensures ReplaceFirst(s, target, replacement) == s[..k] + replacement + s[k + |target|..]
    decreases k
  {
    if k == 0 {
      assert s[0..] == s;
    } else {
      NoEarlierShift(s, target, k);
      ReplaceFirstStep(s, target, replacement);
      ReplaceFirstLeftmost(s[1..], target, replacement, k - 1);
      ConsSlices(s, k, |target|, replacement);
    }
  }

  /** With no occurrence at 0, the first character is copied. */
  lemma ReplaceFirstStep(s: string, target: string, replacement: string)
    requires target != "" && s != [] && !StartsWith(s, target)
    ensures ReplaceFirst(s, target, replacement) == [s[0]] + ReplaceFirst(s[1..], target, replacement)
  {
  }

  /** No occurrence before k in s is no occurrence before k - 1 in its tail. */
  lemma NoEarlierShift(s: string, target: string, k: nat)
    requires 0 < k <= |s| && StartsWith(s[k..], target)
    requires forall j :: 0 <= j < k ==> !StartsWith(s[j..], target)
    ensures s != [] && !StartsWith(s, target)
    ensures StartsWith(s[1..][k - 1..], target)
    ensures forall j :: 0 <= j < k - 1 ==> !StartsWith(s[1..][j..], target)
  {
    assert !StartsWith(s[0..], target);
    assert s[0..] == s;
    assert s[1..][k - 1..] == s[k..];
    forall j | 0 <= j < k - 1
      ensures !StartsWith(s[1..][j..], target)
    {
      assert s[1..][j..] == s[j + 1..];
    }
  }

  /** Putting the first character back in front of the tail's pieces. */
  lemma ConsSlices(s: string, k: nat, n: nat, x: string)
    requires 0 < k && k + n <= |s|
    ensures [s[0]] + (s[1..][..k - 1] + x + s[1..][k - 1 + n..]) == s[..k] + x + s[k + n..]
  {
    assert s[1..][..k - 1] == s[1..k];
    assert s[1..][k - 1 + n..] == s[k + n..];
    assert [s[0]] + s[1..k] == s[..k];
  }

  /** The rewrite guarded by `startswith("postgres://")`. */
  function FixScheme(url: string): (r: string)
    ensures StartsWith(url, LegacyScheme) ==> r == PostgresScheme + url[|LegacyScheme|..]
    ensures !StartsWith(url, LegacyScheme) ==> r == url
  {
    if StartsWith(url, LegacyScheme) then ReplaceFirst(url, LegacyScheme, PostgresScheme) else url
  }

  /** The URL the engine is created with. */
  function DatabaseUrl(env: Option<string>): string
  {
    FixScheme(WithDefault(env))
  }

  /** What create_engine is given: the URL, and whether connect_args carries
      check_same_thread=False. */
  datatype EngineConfig = EngineConfig(url: string, sameThreadCheckOff: bool)

  function Engine(env: Option<string>): (c: EngineConfig)
    ensures c.url == DatabaseUrl(env)
    ensures c.sameThreadCheckOff <==> Contains(c.url, "sqlite")
  {
    var url := DatabaseUrl(env);
    EngineConfig(url, Contains(url, "sqlite"))
  }

  // ---------------------------------------------------------------- properties

  /** A "postgresql://" URL does not start with "postgres://": the ninth
      character is 'q', not ':'. */
  lemma NewSchemeIsNotLegacy(rest: string)
    ensures !StartsWith(PostgresScheme + rest, LegacyScheme)
  {
    var u := PostgresScheme + rest;
    assert u[8] == 'q';
    assert LegacyScheme[8] == ':';
  }

  /** The URL the engine gets never carries the legacy scheme. */
  lemma NoLegacyScheme(env: Option<string>)
    ensures !StartsWith(DatabaseUrl(env), LegacyScheme)
  {
    var url := WithDefault(env);
    if StartsWith(url, LegacyScheme) {
      NewSchemeIsNotLegacy(url[|LegacyScheme|..]);
    } else {
      assert DatabaseUrl(env) == url;
    }
  }

  /** Normalising twice gives what normalising once gives. */
  lemma NormaliseIdempotent(env: Option<string>)
    ensures DatabaseUrl(Some(DatabaseUrl(env))) == DatabaseUrl(env)
  {
    NoLegacyScheme(env);
    var url := DatabaseUrl(env);
    assert WithDefault(env) != "" && url != "" by {
      if StartsWith(WithDefault(env), LegacyScheme) {
        assert |url| == |PostgresScheme| + |WithDefault(env)| - |LegacyScheme|;
      }
    }
    assert WithDefault(Some(url)) == url;
  }

  /** A URL already in the "postgresql://" scheme, or in any scheme but the
      legacy one, is passed through unchanged. */
  lemma OtherUrlsUnchanged(url: string)
    requires url != ""
    requires StartsWith(url, PostgresScheme) || !StartsWith(url, LegacyScheme)
    ensures DatabaseUrl(Some(url)) == url
  {
    if StartsWith(url, PostgresScheme) {
      assert url == PostgresScheme + url[|PostgresScheme|..];
      NewSchemeIsNotLegacy(url[|PostgresScheme|..]);
    }
  }

  /** With no DATABASE_URL (or an empty one) the engine is the local SQLite
      file, with the same-thread check switched off. */
  lemma DefaultEngine(env: Option<string>)
    requires env.None? || env.value == ""
    ensures Engine(env) == EngineConfig(DefaultUrl, true)
  {
    assert !StartsWith(DefaultUrl, LegacyScheme) by {
      assert DefaultUrl[0] == 's';
    }
    assert DefaultUrl[..6] == "sqlite";
    ContainsAt(DefaultUrl, "sqlite", 0);
  }
}
