/** `loadConfig`: the application configuration, each setting read from
    the environment with a fallback, and the CORS origin list extended
    with the production URLs when running in production.

    `NODE_ENV` is read before the `.env` files are loaded, every other
    variable after, so the model takes both environments: `processEnv`
    as the process started, and `env` once the files have been loaded. */
module Config {
  import opened Wrappers
  import opened Env

  const DEFAULT_CLIENT_URL: string := "http://localhost:4200"

  const PRODUCTION_URLS: seq<string> := [
    "https://auth-web-production.up.railway.app",
    "https://auth-production-32b4.up.railway.app"
  ]

  // ---------------------------------------------------------------------
  // `String.prototype.split` on one separator character

  /** Joins the parts with the separator between consecutive parts. */
  function Join(parts: seq<string>, sep: char): string
    decreases |parts|
  {
    if parts == [] then ""
    else if |parts| == 1 then parts[0]
    else parts[0] + [sep] + Join(parts[1..], sep)
  }

  /** `s.split(sep)`: the maximal separator-free pieces, empty ones
      included, so that joining them again gives `s` back. */
  function Split(s: string, sep: char): (r: seq<string>)
    ensures |r| >= 1
    ensures forall i :: 0 <= i < |r| ==> sep !in r[i]
    ensures Join(r, sep) == s
    decreases |s|
  {
    if s == [] then [""]
    else
      var rest := Split(s[1..], sep);
      if s[0] == sep then
        assert s == [sep] + Join(rest, sep);
        [""] + rest
      else
        var r := [[s[0]] + rest[0]] + rest[1..];
        assert r[1..] == rest[1..];
        assert s == [s[0]] + Join(rest, sep);
        r
  }

  /** Splitting a join of separator-free parts gives the parts back. */
  lemma {:induction false} SplitJoin(parts: seq<string>, sep: char)
    requires |parts| >= 1
    requires forall i :: 0 <= i < |parts| ==> sep !in parts[i]
    ensures Split(Join(parts, sep), sep) == parts
    decreases |parts|, |parts[0]|
  {
    var p := parts[0];
    if |parts| == 1 {
      SplitPiece(p, sep);
      assert Split(p, sep) == [p];
    } else if p == [] {
      var rest := parts[1..];
      SplitJoin(rest, sep);
      assert Join(parts, sep) == [sep] + Join(rest, sep);
      assert ([sep] + Join(rest, sep))[1..] == Join(rest, sep);
    } else {
      var shorter := [p[1..]] + parts[1..];
      assert shorter[1..] == parts[1..];
      assert forall i :: 0 <= i < |shorter| ==> sep !in shorter[i] by {
        forall i | 0 <= i < |shorter| ensures sep !in shorter[i] {
          if i == 0 {
            assert forall c :: c in p[1..] ==> c in p;
          } else {
            assert shorter[i] == parts[i];
          }
        }
      }
      SplitJoin(shorter, sep);
      var joined := Join(parts, sep);
      assert joined == [p[0]] + Join(shorter, sep) by {
        if |parts| == 1 {
        } else {
          assert joined == p + [sep] + Join(parts[1..], sep);
          assert Join(shorter, sep) == p[1..] + [sep] + Join(parts[1..], sep);
          assert p == [p[0]] + p[1..];
        }
      }
      assert joined[0] == p[0] && joined[1..] == Join(shorter, sep);
      assert p[0] != sep by { assert p[0] in p; }
      var rest := Split(Join(shorter, sep), sep);
      assert rest == shorter;
      assert [p[0]] + rest[0] == p;
    }
  }

  /** A separator-free string splits into itself. */
  lemma {:induction false} SplitPiece(p: string, sep: char)
    requires sep !in p
    ensures Split(p, sep) == [p]
    decreases |p|
  {
    if p != [] {
      assert forall c :: c in p[1..] ==> c in p;
      SplitPiece(p[1..], sep);
      assert p[0] in p;
      assert [p[0]] + p[1..] == p;
    }
  }

  // ---------------------------------------------------------------------
  // `parseInt` on decimal digit strings

  predicate IsDigit(c: char) {
    '0' <= c <= '9'
  }

  predicate AllDigits(s: string) {
    forall i :: 0 <= i < |s| ==> IsDigit(s[i])
  }

  /** The number a digit string denotes, most significant digit first. */
  function DigitsValue(s: string): nat
    requires AllDigits(s)
    decreases |s|
  {
    if s == [] then 0
    else 10 * DigitsValue(s[..|s| - 1]) + ((s[|s| - 1] as int) - ('0' as int))
  }

  /** `parseInt(s)` for the strings this model parses: a non-empty string
      of decimal digits. Anything else gives `None`. */
  function ParseDecimal(s: string): Option<nat> {
    if s != [] && AllDigits(s) then Some(DigitsValue(s)) else None
  }

  /** The decimal numeral of `n`, without leading zeros. */
  function DecimalString(n: nat): (r: string)
    ensures r != [] && AllDigits(r)
  {
    var last := [((n % 10) + ('0' as int)) as char];
    if n < 10 then last else DecimalString(n / 10) + last
  }

  /** Parsing the numeral of `n` gives `n` back. */
  lemma {:induction false} ParseDecimalString(n: nat)
    ensures ParseDecimal(DecimalString(n)) == Some(n)
  {
    var s := DecimalString(n);
    var d := n % 10;
    var last := [(d + ('0' as int)) as char];
    assert last[0] as int - ('0' as int) == d;
    if n < 10 {
      assert s == last && s[..0] == [];
      assert DigitsValue(s) == 10 * DigitsValue([]) + d;
    } else {
      var prefix := DecimalString(n / 10);
      ParseDecimalString(n / 10);
      assert s == prefix + last;
      assert s[..|s| - 1] == prefix && s[|s| - 1] == last[0];
      assert DigitsValue(s) == 10 * DigitsValue(prefix) + d;
      assert n == 10 * (n / 10) + d;
    }
  }

  // ---------------------------------------------------------------------
  // The CORS origin merge

  predicate NoDuplicates(s: seq<string>) {
    forall i, j :: 0 <= i < j < |s| ==> s[i] != s[j]
  }

  /** Appends, in order, each of `urls` that is not yet in the list. The
      old list stays a prefix, every appended entry is one of `urls` that
      was missing, and every url ends up in the list. */
  function AppendMissing(origins: seq<string>, urls: seq<string>): (r: seq<string>)
    ensures |origins| <= |r| <= |origins| + |urls|
    ensures r[..|origins|] == origins
    ensures forall i :: |origins| <= i < |r| ==> r[i] in urls && r[i] !in origins
    ensures forall x :: x in r <==> x in origins || x in urls
    decreases |urls|
  {
    if urls == [] then origins
    else
      var next := if urls[0] in origins then origins else origins + [urls[0]];
      assert next[..|origins|] == origins;
      assert forall x :: x in urls <==> x == urls[0] || x in urls[1..];
      AppendMissing(next, urls[1..])
  }

  /** Every missing url is appended exactly once and no other entry's
      count changes. */
  lemma {:induction false} AppendMissingCounts(origins: seq<string>, urls: seq<string>, x: string)
    ensures multiset(AppendMissing(origins, urls))[x]
         == if x in urls && x !in origins then 1 else multiset(origins)[x]
    decreases |urls|
  {
    if urls != [] {
      var u := urls[0];
      var next := if u in origins then origins else origins + [u];
      AppendMissingCounts(next, urls[1..], x);
      assert x in urls <==> x == u || x in urls[1..];
      if u !in origins {
        assert multiset(next) == multiset(origins) + multiset{u};
      }
    }
  }

  /** A list without duplicates keeps that property through the merge. */
  lemma {:induction false} AppendMissingNoDuplicates(origins: seq<string>, urls: seq<string>)
    requires NoDuplicates(origins)
    ensures NoDuplicates(AppendMissing(origins, urls))
    decreases |urls|
  {
    if urls != [] {
      var u := urls[0];
      var next := if u in origins then origins else origins + [u];
      if u !in origins {
        forall i, j | 0 <= i < j < |next| ensures next[i] != next[j] {
          if j == |origins| {
            assert next[i] == origins[i];
          }
        }
      }
      AppendMissingNoDuplicates(next, urls[1..]);
    }
  }

  /** The merge as the source writes it: a loop over the production URLs
      that pushes each one the list does not include. */
  method AddProductionUrls(corsOrigins: seq<string>) returns (r: seq<string>)
    ensures r == AppendMissing(corsOrigins, PRODUCTION_URLS)
  {
    r := corsOrigins;
    var i := 0;
    while i < |PRODUCTION_URLS|
      invariant 0 <= i <= |PRODUCTION_URLS|
      invariant AppendMissing(r, PRODUCTION_URLS[i..]) == AppendMissing(corsOrigins, PRODUCTION_URLS)
    {
      var url := PRODUCTION_URLS[i];
      assert PRODUCTION_URLS[i..][1..] == PRODUCTION_URLS[i + 1..];
      if url !in r {
        r := r + [url];
      }
      i := i + 1;
    }
  }

  // ---------------------------------------------------------------------
  // The configuration record

  datatype DatabaseConfig = DatabaseConfig(
    url: Option<string>,
    host: string,
    port: Option<nat>,
    username: string,
    password: string,
    name: string)

  datatype JwtConfig = JwtConfig(secret: string, expiresIn: string)
  datatype CorsConfig = CorsConfig(origins: seq<string>)
  datatype ClientConfig = ClientConfig(url: string)
  datatype LoggingConfig = LoggingConfig(level: string)

  datatype AppConfig = AppConfig(
    env: string,
    port: Option<nat>,
    host: string,
    database: DatabaseConfig,
    jwt: JwtConfig,
    cors: CorsConfig,
    client: ClientConfig,
    logging: LoggingConfig)

  /** `process.env.NODE_ENV || 'development'`, read before any `.env` file. */
  function NodeEnv(processEnv: Environment): string {
    Or(processEnv, "NODE_ENV", "development")
  }

  /** The comma split of `CORS_ORIGINS`, or the local client alone. */
  function InitialOrigins(env: Environment): seq<string> {
    if IsSet(env, "CORS_ORIGINS") then Split(env["CORS_ORIGINS"], ',') else [DEFAULT_CLIENT_URL]
  }

  function CorsOrigins(processEnv: Environment, env: Environment): seq<string> {
    var initial := InitialOrigins(env);
    if NodeEnv(processEnv) == "production" then AppendMissing(initial, PRODUCTION_URLS) else initial
  }

  /** `process.env.KEY` with no fallback: present even when empty. */
  function Lookup(env: Environment, key: string): Option<string> {
    if key in env then Some(env[key]) else None
  }

  function LoadConfig(processEnv: Environment, env: Environment): AppConfig {
    AppConfig(
      NodeEnv(processEnv),
      ParseDecimal(Or(env, "PORT", "3000")),
      Or(env, "HOST", "localhost"),
      DatabaseConfig(
        Lookup(env, "DATABASE_URL"),
        Or(env, "DB_HOST", "localhost"),
        ParseDecimal(Or(env, "DB_PORT", "5432")),
        Or(env, "DB_USERNAME", "postgres"),
        Or(env, "DB_PASSWORD", "postgres"),
        Or(env, "DB_NAME", "auth_db")),
      JwtConfig(Or(env, "JWT_SECRET", "fallback-secret-key"), Or(env, "JWT_EXPIRES_IN", "24h")),
      CorsConfig(CorsOrigins(processEnv, env)),
      ClientConfig(Or(env, "CLIENT_URL", DEFAULT_CLIENT_URL)),
      LoggingConfig(Or(env, "LOG_LEVEL", "info")))
  }

  // ---------------------------------------------------------------------
  // Properties of the configuration

  lemma DigitsOfDefaultPorts()
    ensures ParseDecimal("3000") == Some(3000)
    ensures ParseDecimal("5432") == Some(5432)
  {
    assert "3000"[..3] == "300" && "300"[..2] == "30" && "30"[..1] == "3" && "3"[..0] == "";
    assert "5432"[..3] == "543" && "543"[..2] == "54" && "54"[..1] == "5" && "5"[..0] == "";
  }

  /** `env` is `NODE_ENV` when the process was started with it, and
      `'development'` otherwise. */
  lemma EnvDefault(processEnv: Environment, env: Environment)
    ensures IsSet(processEnv, "NODE_ENV") ==> LoadConfig(processEnv, env).env == processEnv["NODE_ENV"]
    ensures !IsSet(processEnv, "NODE_ENV") ==> LoadConfig(processEnv, env).env == "development"
  {
  }

  /** A `NODE_ENV` that only a `.env` file provides does not switch to
      production: the origins stay the split or default list. */
  lemma NodeEnvFromFileIgnored(processEnv: Environment, env: Environment)
    requires "NODE_ENV" !in processEnv
    requires "NODE_ENV" in env && env["NODE_ENV"] == "production"
    ensures LoadConfig(processEnv, env).env == "development"
    ensures LoadConfig(processEnv, env).cors.origins == InitialOrigins(env)
  {
  }

  /** Without `CORS_ORIGINS` the list starts as the local client alone;
      with it, as its comma-separated pieces, which join back to it. */
  lemma InitialOriginsFromEnv(env: Environment)
    ensures !IsSet(env, "CORS_ORIGINS") ==> InitialOrigins(env) == [DEFAULT_CLIENT_URL]
    ensures IsSet(env, "CORS_ORIGINS") ==>
      InitialOrigins(env) == Split(env["CORS_ORIGINS"], ',')
      && Join(InitialOrigins(env), ',') == env["CORS_ORIGINS"]
      && forall i :: 0 <= i < |InitialOrigins(env)| ==> ',' !in InitialOrigins(env)[i]
  {
  }

  /** Outside production the origins are exactly the initial list. */
  lemma NonProductionOrigins(processEnv: Environment, env: Environment)
    requires NodeEnv(processEnv) != "production"
    ensures LoadConfig(processEnv, env).cors.origins == InitialOrigins(env)
  {
  }

  /** In production both production URLs are present, the initial list is
      kept as a prefix, only missing production URLs are appended, and no
      duplicate is introduced. */
  lemma ProductionOrigins(processEnv: Environment, env: Environment)
    requires NodeEnv(processEnv) == "production"
    ensures var initial := InitialOrigins(env);
      var origins := LoadConfig(processEnv, env).cors.origins;
      PRODUCTION_URLS[0] in origins && PRODUCTION_URLS[1] in origins
      && |initial| <= |origins| <= |initial| + 2
      && origins[..|initial|] == initial
      && (forall i :: |initial| <= i < |origins| ==> origins[i] in PRODUCTION_URLS && origins[i] !in initial)
      && (NoDuplicates(initial) ==> NoDuplicates(origins))
  {
    var initial := InitialOrigins(env);
    if NoDuplicates(initial) {
      AppendMissingNoDuplicates(initial, PRODUCTION_URLS);
    }
  }

  /** With the local default list, production yields the default followed
      by both production URLs. */
  lemma ProductionDefaultOrigins(processEnv: Environment, env: Environment)
    requires NodeEnv(processEnv) == "production" && !IsSet(env, "CORS_ORIGINS")
    ensures LoadConfig(processEnv, env).cors.origins == [DEFAULT_CLIENT_URL] + PRODUCTION_URLS
  {
  }

  /** The JWT settings fall back to a fixed secret and a 24-hour expiry. */
  lemma JwtDefaults(processEnv: Environment, env: Environment)
    ensures !IsSet(env, "JWT_SECRET") ==> LoadConfig(processEnv, env).jwt.secret == "fallback-secret-key"
    ensures !IsSet(env, "JWT_EXPIRES_IN") ==> LoadConfig(processEnv, env).jwt.expiresIn == "24h"
    ensures IsSet(env, "JWT_SECRET") ==> LoadConfig(processEnv, env).jwt.secret == env["JWT_SECRET"]
  {
  }

  /** The remaining fallbacks: host, port, database port, client URL and
      log level. */
  lemma OtherDefaults(processEnv: Environment, env: Environment)
    ensures var c := LoadConfig(processEnv, env);
      (!IsSet(env, "HOST") ==> c.host == "localhost")
      && (!IsSet(env, "PORT") ==> c.port == Some(3000))
      && (!IsSet(env, "DB_PORT") ==> c.database.port == Some(5432))
      && (!IsSet(env, "CLIENT_URL") ==> c.client.url == DEFAULT_CLIENT_URL)
      && (!IsSet(env, "LOG_LEVEL") ==> c.logging.level == "info")
      && (!IsSet(env, "DB_HOST") ==> c.database.host == "localhost")
      && (!IsSet(env, "DB_USERNAME") ==> c.database.username == "postgres")
      && (!IsSet(env, "DB_PASSWORD") ==> c.database.password == "postgres")
      && (!IsSet(env, "DB_NAME") ==> c.database.name == "auth_db")
      && ("DATABASE_URL" !in env <==> c.database.url == None)
  {
    DigitsOfDefaultPorts();
  }

  /** A port given as a numeral is read back as that number. */
  lemma PortFromEnv(processEnv: Environment, env: Environment, n: nat)
    requires "PORT" in env && env["PORT"] == DecimalString(n)
    ensures LoadConfig(processEnv, env).port == Some(n)
  {
    ParseDecimalString(n);
  }

  /** With nothing set at all, the whole configuration is its defaults. */
  lemma EmptyEnvironment()
    ensures LoadConfig(map[], map[]) == AppConfig(
      "development", Some(3000), "localhost",
      DatabaseConfig(None, "localhost", Some(5432), "postgres", "postgres", "auth_db"),
      JwtConfig("fallback-secret-key", "24h"),
      CorsConfig([DEFAULT_CLIENT_URL]),
      ClientConfig(DEFAULT_CLIENT_URL),
      LoggingConfig("info"))
  {
    DigitsOfDefaultPorts();
  }
}
