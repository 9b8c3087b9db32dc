/** The settings of config.py, as a record of values already read from the
    environment, and the helpers that derive connection settings from them and
    check them for the mistakes a deployment must not make. */
module Settings {
  import opened Common

  /** The settings the modelled helpers read. */
  datatype Config = Config(
    postgresHost: string,
    postgresPort: int,
    postgresDb: string,
    postgresUser: string,
    postgresPassword: string,
    redisHost: string,
    redisPort: int,
    redisPassword: Option<string>,
    redisDb: int,
    environment: string,
    apiDebug: bool,
    secretKey: string)

  const DefaultSecretKey := "dev-secret-key-change-me"

  /** The settings when no environment variable is set. */
  const DefaultConfig := Config(
    "localhost", 5432, "contract_forge", "admin", "",
    "localhost", 6379, None, 0,
    "development", ParseApiDebug(None), DefaultSecretKey)

  // ---------------------------------------------------------------------
  // str.lower() and API_DEBUG
  // ---------------------------------------------------------------------

  function LowerChar(c: char): char {
    if 'A' <= c <= 'Z' then (c as int + 32) as char else c
  }

  /** `s.lower()` on ASCII letters; every other character is kept. */
  function Lower(s: string): (r: string)
    ensures |r| == |s|
  {
    seq(|s|, i requires 0 <= i < |s| => LowerChar(s[i]))
  }

  /** Two strings that differ at most in the case of their letters. */
  predicate SameIgnoringCase(s: string, t: string) {
    |s| == |t| && forall i :: 0 <= i < |s| ==> LowerChar(s[i]) == LowerChar(t[i])
  }

  /** Comparing the lowered text with an all-lowercase word is comparing with
      that word ignoring case. */
  lemma LowerEquals(s: string, word: string)
    requires Lower(word) == word
    ensures Lower(s) == word <==> SameIgnoringCase(s, word)
  {
    if SameIgnoringCase(s, word) {
      forall i | 0 <= i < |s| ensures Lower(s)[i] == word[i] {
        assert Lower(word)[i] == LowerChar(word[i]);
      }
    }
    if Lower(s) == word {
      forall i | 0 <= i < |s| ensures LowerChar(s[i]) == LowerChar(word[i]) {
        assert Lower(word)[i] == LowerChar(word[i]);
      }
    }
  }

  /** `API_DEBUG = os.getenv('API_DEBUG', 'True').lower() == 'true'`, given the
      variable's raw text if it is set. */
  function ParseApiDebug(raw: Option<string>): bool {
    Lower(if raw.Some? then raw.value else "True") == "true"
  }

  /** API_DEBUG is on exactly when the text is "true" in any case, and when unset. */
  lemma ApiDebugSpec(raw: string)
    ensures ParseApiDebug(Some(raw)) <==> SameIgnoringCase(raw, "true")
    ensures ParseApiDebug(None)
    ensures !ParseApiDebug(Some("1")) && !ParseApiDebug(Some("yes")) && ParseApiDebug(Some("TRUE"))
  {
    LowerEquals(raw, "true");
    assert Lower("True") == "true";
    assert Lower("TRUE") == "true";
  }

  // ---------------------------------------------------------------------
  // is_production / is_development / is_testing
  // ---------------------------------------------------------------------

  predicate IsProduction(c: Config) {
    Lower(c.environment) == "production"
  }

  predicate IsDevelopment(c: Config) {
    Lower(c.environment) == "development"
  }

  predicate IsTesting(c: Config) {
    Lower(c.environment) == "testing"
  }

  /** Each predicate is a case-insensitive comparison, and at most one holds. */
  lemma EnvironmentSpec(c: Config)
    ensures IsProduction(c) <==> SameIgnoringCase(c.environment, "production")
    ensures IsDevelopment(c) <==> SameIgnoringCase(c.environment, "development")
    ensures IsTesting(c) <==> SameIgnoringCase(c.environment, "testing")
    ensures !(IsProduction(c) && IsDevelopment(c))
    ensures !(IsProduction(c) && IsTesting(c))
    ensures !(IsDevelopment(c) && IsTesting(c))
  {
    LowerEquals(c.environment, "production");
    LowerEquals(c.environment, "development");
    LowerEquals(c.environment, "testing");
  }

  // ---------------------------------------------------------------------
  // validate
  // ---------------------------------------------------------------------

  const PasswordMissing := "POSTGRES_PASSWORD 未设置"
  const InsecureSecretKey := "生产环境必须设置安全的 SECRET_KEY"
  const DebugInProduction := "生产环境不应开启 API_DEBUG"

  function When(b: bool, message: string): seq<string> {
    if b then [message] else []
  }

  /** The errors a configuration has, in the order they are reported. */
  function ValidationErrors(c: Config): seq<string> {
    When(c.postgresPassword == "", PasswordMissing)
    + When(IsProduction(c) && c.secretKey == DefaultSecretKey, InsecureSecretKey)
    + When(IsProduction(c) && c.apiDebug, DebugInProduction)
  }

  /** Position of each message in the fixed reporting order. */
  function Rank(message: string): int {
    if message == PasswordMissing then 0
    else if message == InsecureSecretKey then 1
    else if message == DebugInProduction then 2
    else 3
  }

  /** Each error is reported exactly when its condition holds; the two
      production errors never appear outside production; there are at most
      three, without repetition, in the order password, secret key, debug. */
  lemma ValidationErrorsSpec(c: Config)
    ensures var errors := ValidationErrors(c);
      && (PasswordMissing in errors <==> c.postgresPassword == "")
      && (InsecureSecretKey in errors <==> IsProduction(c) && c.secretKey == DefaultSecretKey)
      && (DebugInProduction in errors <==> IsProduction(c) && c.apiDebug)
      && (forall e :: e in errors ==> e == PasswordMissing || e == InsecureSecretKey || e == DebugInProduction)
      && (!IsProduction(c) ==> errors == When(c.postgresPassword == "", PasswordMissing))
      && |errors| <= 3
      && (forall i, j :: 0 <= i < j < |errors| ==> Rank(errors[i]) < Rank(errors[j]))
  {
    assert PasswordMissing != InsecureSecretKey && PasswordMissing != DebugInProduction;
    assert InsecureSecretKey != DebugInProduction;
  }

  /** The shipped defaults pass validation except for the missing password. */
  lemma DefaultConfigSpec()
    ensures IsDevelopment(DefaultConfig) && DefaultConfig.apiDebug
    ensures ValidationErrors(DefaultConfig) == [PasswordMissing]
  {
    assert Lower("True") == "true";
    assert Lower("development") == "development";
    assert Lower("development") != "production";
  }

  /** `Config.validate()`: the error list, built one append at a time. */
  method Validate(c: Config) returns (errors: seq<string>)
    ensures errors == ValidationErrors(c)
  {
    errors := [];
    if c.postgresPassword == "" {
      errors := errors + [PasswordMissing];
    }
    if IsProduction(c) {
      if c.secretKey == DefaultSecretKey {
        errors := errors + [InsecureSecretKey];
      }
      if c.apiDebug {
        errors := errors + [DebugInProduction];
      }
    }
  }

  // ---------------------------------------------------------------------
  // Connection settings
  // ---------------------------------------------------------------------

  /** `get_redis_config()`: the fixed keys, plus `password` when one is set and
      not empty. */
  method GetRedisConfig(c: Config) returns (config: map<string, Value>)
    ensures config.Keys == {"host", "port", "db", "decode_responses"}
                         + (if c.redisPassword.Some? && c.redisPassword.value != "" then {"password"} else {})
    ensures config["host"] == VStr(c.redisHost) && config["port"] == VInt(c.redisPort)
    ensures config["db"] == VInt(c.redisDb) && config["decode_responses"] == VBool(true)
    ensures "password" in config <==> c.redisPassword.Some? && c.redisPassword.value != ""
    ensures "password" in config ==> config["password"] == VStr(c.redisPassword.value)
  {
    config := map[
      "host" := VStr(c.redisHost),
      "port" := VInt(c.redisPort),
      "db" := VInt(c.redisDb),
      "decode_responses" := VBool(true)];
    if c.redisPassword.Some? && c.redisPassword.value != "" {
      config := config["password" := VStr(c.redisPassword.value)];
    }
  }

  /** `get_database_config()`: the keyword arguments of `psycopg2.connect`. */
  function DatabaseConfig(c: Config): map<string, Value> {
    map[
      "host" := VStr(c.postgresHost),
      "port" := VInt(c.postgresPort),
      "database" := VStr(c.postgresDb),
      "user" := VStr(c.postgresUser),
      "password" := VStr(c.postgresPassword)]
  }

  const Scheme := "postgresql://"

  /** `get_database_url()`; the parts are not percent-encoded. */
  function DatabaseUrl(c: Config): string {
    Scheme + c.postgresUser + ":" + c.postgresPassword + "@" + c.postgresHost + ":"
    + Decimal(c.postgresPort) + "/" + c.postgresDb
  }

  /** The five parts of a connection URL. */
  datatype UrlParts = UrlParts(user: string, password: string, host: string, port: int, database: string)

  /** The text before and after the first `sep`, if there is one. */
  function SplitAt(s: string, sep: char): (r: Option<(string, string)>)
    ensures r.Some? ==> sep !in r.value.0 && s == r.value.0 + [sep] + r.value.1
    ensures r.None? ==> sep !in s
  {
    if s == [] then None
    else if s[0] == sep then Some(([], s[1..]))
    else
      match SplitAt(s[1..], sep)
      case None => None
      case Some(p) => Some(([s[0]] + p.0, p.1))
  }

  /** Splitting at a separator the head does not contain finds that head. */
  lemma {:induction false} SplitAtJoin(a: string, sep: char, b: string)
    requires sep !in a
    ensures SplitAt(a + [sep] + b, sep) == Some((a, b))
  {
    var s := a + [sep] + b;
    if a == [] {
      assert s == [sep] + b && s[1..] == b;
    } else {
      SplitAtJoin(a[1..], sep, b);
      assert s[0] == a[0] && s[0] != sep;
      assert s[1..] == a[1..] + [sep] + b;
      assert [a[0]] + a[1..] == a;
    }
  }

  /** How a client reads `user:password@host:port/database` back. */
  function ParseDatabaseUrl(url: string): Option<UrlParts> {
    if |url| < |Scheme| || url[..|Scheme|] != Scheme then None
    else
      match SplitAt(url[|Scheme|..], ':')
      case None => None
      case Some(p1) =>
        match SplitAt(p1.1, '@')
        case None => None
        case Some(p2) =>
          match SplitAt(p2.1, ':')
          case None => None
          case Some(p3) =>
            match SplitAt(p3.1, '/')
            case None => None
            case Some(p4) =>
              match ParseDecimal(p4.0)
              case None => None
              case Some(port) => Some(UrlParts(p1.0, p2.0, p3.0, port, p4.1))
  }

  /** Parts a client can tell apart in the URL, since nothing is encoded. */
  predicate UrlSafe(c: Config) {
    ':' !in c.postgresUser && '@' !in c.postgresPassword && ':' !in c.postgresHost
  }

  /** Reading back a URL assembled from parts without stray separators. */
  lemma ParseJoinedUrl(user: string, password: string, host: string, portText: string, database: string)
    requires ':' !in user && '@' !in password && ':' !in host && '/' !in portText
    ensures ParseDatabaseUrl(Scheme + (user + [':'] + (password + ['@'] + (host + [':'] + (portText + ['/'] + database)))))
      == match ParseDecimal(portText)
         case None => None
         case Some(port) => Some(UrlParts(user, password, host, port, database))
  {
    var tail4 := portText + ['/'] + database;
    var tail3 := host + [':'] + tail4;
    var tail2 := password + ['@'] + tail3;
    var rest := user + [':'] + tail2;
    assert (Scheme + rest)[..|Scheme|] == Scheme;
    assert (Scheme + rest)[|Scheme|..] == rest;
    SplitAtJoin(user, ':', tail2);
    SplitAtJoin(password, '@', tail3);
    SplitAtJoin(host, ':', tail4);
    SplitAtJoin(portText, '/', database);
  }

  /** Reading the URL back gives the five settings it was built from. */
  lemma DatabaseUrlRoundTrip(c: Config)
    requires UrlSafe(c)
    ensures ParseDatabaseUrl(DatabaseUrl(c)) ==
      Some(UrlParts(c.postgresUser, c.postgresPassword, c.postgresHost, c.postgresPort, c.postgresDb))
  {
    var port := Decimal(c.postgresPort);
    DecimalRoundTrip(c.postgresPort);
    DecimalChars(c.postgresPort);
    assert '/' !in port by {
      forall i | 0 <= i < |port| ensures port[i] != '/' {
        assert port[i] == '-' || IsDigit(port[i]);
      }
    }
    assert DatabaseUrl(c) == Scheme + (c.postgresUser + [':'] + (c.postgresPassword + ['@']
      + (c.postgresHost + [':'] + (port + ['/'] + c.postgresDb))));
    ParseJoinedUrl(c.postgresUser, c.postgresPassword, c.postgresHost, port, c.postgresDb);
  }

  /** The dictionary has exactly the five keys `psycopg2.connect` expects, and
      under them the same settings a client reads back from the URL. */
  lemma DatabaseConfigAgreesWithUrl(c: Config)
    requires UrlSafe(c)
    ensures ParseDatabaseUrl(DatabaseUrl(c)).Some?
    ensures var d, parts := DatabaseConfig(c), ParseDatabaseUrl(DatabaseUrl(c)).value;
      && d.Keys == {"host", "port", "database", "user", "password"}
      && d["user"] == VStr(parts.user) && d["password"] == VStr(parts.password)
      && d["host"] == VStr(parts.host) && d["port"] == VInt(parts.port)
      && d["database"] == VStr(parts.database)
  {
    DatabaseUrlRoundTrip(c);
  }
}
