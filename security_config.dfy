/**
 * The backend's security settings (backend/core/security_config.py): each one
 * read from an environment variable with a default, the numeric ones through
 * Python's `int()`, the CORS origins split on commas.
 *
 * The settings are built by field factories whose results the settings class
 * does not re-validate, so `environment` keeps whatever text the variable
 * holds; only `int()` can make construction fail.
 */
module SecurityConfig {
  import opened Common

  // ---------------------------------------------------------------------------
  // Python `int(text)` in base 10: surrounding whitespace, an optional sign,
  // and ASCII digits with single underscores between them.

  /** Digits in groups separated by single underscores, nothing else. */
  predicate DigitGroups(b: string) {
    && |b| > 0 && IsDigit(b[0]) && IsDigit(b[|b| - 1])
    && (forall i :: 0 <= i < |b| ==> IsDigit(b[i]) || b[i] == '_')
    && (forall i :: 0 <= i < |b| - 1 && b[i] == '_' ==> IsDigit(b[i + 1]))
  }

  /** The digits of `b` with the underscores taken out. */
  function DropUnderscores(b: string): (d: string)
    ensures (forall i :: 0 <= i < |b| ==> IsDigit(b[i]) || b[i] == '_') ==> AllDigits(d)
  {
    if |b| == 0 then "" else (if b[0] == '_' then "" else [b[0]]) + DropUnderscores(b[1..])
  }

  lemma {:induction false} DropUnderscoresOfDigits(b: string)
    requires AllDigits(b)
    ensures DropUnderscores(b) == b
    decreases |b|
  {
    if |b| > 0 {
      DropUnderscoresOfDigits(b[1..]);
      assert [b[0]] + b[1..] == b;
    }
  }

  /** The sign-free part of trimmed text. */
  function Unsigned(t: string): string {
    if |t| > 0 && (t[0] == '+' || t[0] == '-') then t[1..] else t
  }

  /** Text whose sign-free part is digit groups holds only digits, underscores and a leading sign. */
  lemma SignedDigits(t: string)
    requires DigitGroups(Unsigned(t))
    ensures forall i :: 0 <= i < |t| ==> IsDigit(t[i]) || t[i] == '_' || (i == 0 && (t[i] == '+' || t[i] == '-'))
  {
    var body := Unsigned(t);
    forall i | 0 <= i < |t| ensures IsDigit(t[i]) || t[i] == '_' || (i == 0 && (t[i] == '+' || t[i] == '-')) {
      if body == t {
        assert t[i] == body[i];
      } else if i > 0 {
        assert t[i] == body[i - 1];
      }
    }
  }

  /**
   * `int(text)`, or None where Python raises ValueError. Anything but
   * digits, underscores and one leading sign inside the whitespace is rejected.
   */
  function ParseInt(text: string): (r: Option<int>)
    ensures r.Some? ==> var t := Trim(Py, text);
      forall i :: 0 <= i < |t| ==> IsDigit(t[i]) || t[i] == '_' || (i == 0 && (t[i] == '+' || t[i] == '-'))
  {
    ParseStripped(Trim(Py, text))
  }

  /** `int` on text already stripped of surrounding whitespace. */
  function ParseStripped(t: string): (r: Option<int>)
    ensures r.Some? ==>
      forall i :: 0 <= i < |t| ==> IsDigit(t[i]) || t[i] == '_' || (i == 0 && (t[i] == '+' || t[i] == '-'))
  {
    var body := Unsigned(t);
    if DigitGroups(body) then
      var magnitude: int := DigitsValue(DropUnderscores(body));
      SignedDigits(t);
      Some(if |t| > 0 && t[0] == '-' then -magnitude else magnitude)
    else None
  }

  /** Text that starts and ends with a non-space character is its own `strip()`. */
  lemma StripUntouched(s: string)
    requires |s| > 0 && !IsSpace(Py, s[0]) && !IsSpace(Py, s[|s| - 1])
    ensures Trim(Py, s) == s
  {
    assert TrimStart(Py, s) == s;
  }

  /** A run of digits is digit groups, and its value is the value of its digits. */
  lemma DigitsMagnitude(n: nat)
    ensures DigitGroups(Decimal(n))
    ensures DigitsValue(DropUnderscores(Decimal(n))) == n
  {
    DropUnderscoresOfDigits(Decimal(n));
    DecimalValue(n);
  }

  /** The decimal text of any natural number parses back to it. */
  lemma ParseIntDecimal(n: nat)
    ensures ParseInt(Decimal(n)) == Some(n)
  {
    var s := Decimal(n);
    StripUntouched(s);
    assert Unsigned(s) == s;
    DigitsMagnitude(n);
  }

  /** A minus sign before the digits negates the value. */
  lemma ParseIntNegative(n: nat)
    ensures ParseInt(['-'] + Decimal(n)) == Some(-(n as int))
  {
    var d := Decimal(n);
    var s := ['-'] + d;
    DigitsMagnitude(n);
    assert s[|s| - 1] == d[|d| - 1];
    StripUntouched(s);
    assert s[1..] == d;
    assert Unsigned(s) == d;
    assert ParseStripped(s) == Some(-(n as int));
  }

  /** Two underscores in a row are never accepted, wherever they are. */
  lemma DoubleUnderscoreRejected(text: string, i: nat)
    requires var t := Trim(Py, text); i + 1 < |t| && t[i] == '_' && t[i + 1] == '_'
    ensures ParseInt(text) == None
  {
    var t := Trim(Py, text);
    var body := Unsigned(t);
    var k := if body == t then i else i - 1;
    assert body[k] == '_' && body[k + 1] == '_';
  }

  // ---------------------------------------------------------------------------
  // The settings

  const DefaultSecret: string := "dev-secret-key-change-in-production"
  /** The Vite and Tauri dev-server origins. */
  const DevOrigins: seq<string> :=
    ["http://localhost:5173", "http://127.0.0.1:5173", "http://localhost:1420", "http://127.0.0.1:1420"]
  /** The default `CORS_ALLOWED_ORIGINS` text: the dev-server origins joined by commas. */
  const DefaultOrigins: string := Join(DevOrigins, ',')

  datatype Config = Config(
    jwtSecretKey: string,
    accessTokenExpireMinutes: int,
    refreshTokenExpireDays: int,
    maxRequestSizeMb: int,
    maxUploadSizeMb: int,
    rateLimitPerMinute: int,
    corsAllowedOrigins: seq<string>,
    environment: string)

  /** `os.getenv(name, default)` */
  function Getenv(env: map<string, string>, name: string, default: string): string {
    if name in env then env[name] else default
  }

  /** The numeric settings, in declaration order. */
  datatype Numeric = AccessTokenExpireMinutes | RefreshTokenExpireDays | MaxRequestSizeMb | MaxUploadSizeMb | RateLimitPerMinute

  const NumericOrder: seq<Numeric> :=
    [AccessTokenExpireMinutes, RefreshTokenExpireDays, MaxRequestSizeMb, MaxUploadSizeMb, RateLimitPerMinute]

  /** The environment variable a numeric setting is read from. */
  function VarName(n: Numeric): string {
    match n
    case AccessTokenExpireMinutes => "ACCESS_TOKEN_EXPIRE_MINUTES"
    case RefreshTokenExpireDays => "REFRESH_TOKEN_EXPIRE_DAYS"
    case MaxRequestSizeMb => "MAX_REQUEST_SIZE_MB"
    case MaxUploadSizeMb => "MAX_UPLOAD_SIZE_MB"
    case RateLimitPerMinute => "RATE_LIMIT_PER_MINUTE"
  }

  /** The value when the variable is unset. */
  function DefaultValue(n: Numeric): nat {
    match n
    case AccessTokenExpireMinutes => 60
    case RefreshTokenExpireDays => 30
    case MaxRequestSizeMb => 100
    case MaxUploadSizeMb => 100
    case RateLimitPerMinute => 120
  }

  /**
   * `int(os.getenv(name, default))`. The default text is the decimal form of
   * `DefaultValue(n)`, which `int()` reads back (`DefaultTextParses`), so an
   * unset variable gives the default value directly.
   */
  function Setting(env: map<string, string>, n: Numeric): Option<int> {
    if VarName(n) in env then ParseInt(env[VarName(n)]) else Some(DefaultValue(n))
  }

  /** The default texts "60", "30", "100", "100", "120" are the decimal forms of the default values. */
  lemma DefaultTexts()
    ensures Decimal(DefaultValue(AccessTokenExpireMinutes)) == "60"
    ensures Decimal(DefaultValue(RefreshTokenExpireDays)) == "30"
    ensures Decimal(DefaultValue(MaxRequestSizeMb)) == "100"
    ensures Decimal(DefaultValue(MaxUploadSizeMb)) == "100"
    ensures Decimal(DefaultValue(RateLimitPerMinute)) == "120"
  {
  }

  /** So the unset case agrees with converting the default text. */
  lemma DefaultTextParses(n: Numeric)
    ensures ParseInt(Decimal(DefaultValue(n))) == Some(DefaultValue(n))
  {
    ParseIntDecimal(DefaultValue(n));
  }

  /** Each numeric setting in declaration order, paired with its variable name. */
  function Parsed(env: map<string, string>): (p: seq<(string, Option<int>)>)
    ensures |p| == |NumericOrder|
    ensures forall i :: 0 <= i < |p| ==> p[i] == (VarName(NumericOrder[i]), Setting(env, NumericOrder[i]))
  {
    [(VarName(AccessTokenExpireMinutes), Setting(env, AccessTokenExpireMinutes)),
     (VarName(RefreshTokenExpireDays), Setting(env, RefreshTokenExpireDays)),
     (VarName(MaxRequestSizeMb), Setting(env, MaxRequestSizeMb)),
     (VarName(MaxUploadSizeMb), Setting(env, MaxUploadSizeMb)),
     (VarName(RateLimitPerMinute), Setting(env, RateLimitPerMinute))]
  }

  /**
   * Conversions done one after the other: all the values, or the name of the
   * first one that failed (Python stops at the first exception).
   */
  function Collect(parsed: seq<(string, Option<int>)>): (r: Result<seq<int>, string>)
    ensures r.Ok? <==> forall i :: 0 <= i < |parsed| ==> parsed[i].1.Some?
    ensures r.Ok? ==> |r.value| == |parsed| && forall i :: 0 <= i < |parsed| ==> r.value[i] == parsed[i].1.value
    ensures r.Err? ==> exists i :: (0 <= i < |parsed| && parsed[i].1.None? && r.error == parsed[i].0
      && forall j :: 0 <= j < i ==> parsed[j].1.Some?)
  {
    if |parsed| == 0 then Ok([])
    else match parsed[0].1
      case None => Err(parsed[0].0)
      case Some(v) =>
        match Collect(parsed[1..])
        case Ok(rest) => Ok([v] + rest)
        case Err(name) =>
          var i :| 0 <= i < |parsed[1..]| && parsed[1..][i].1.None? && name == parsed[1..][i].0
            && forall j :: 0 <= j < i ==> parsed[1..][j].1.Some?;
          assert forall j :: 0 <= j < i + 1 ==> parsed[j].1.Some? by {
            forall j | 0 <= j < i + 1 ensures parsed[j].1.Some? {
              if j > 0 { assert parsed[j] == parsed[1..][j - 1]; }
            }
          }
          Err(name)
  }

  /**
   * `SecurityConfig()`: every numeric variable must hold an integer, else
   * construction fails, naming the first variable (in declaration order) that
   * does not; the other settings take the variable's text or the default.
   */
  function Load(env: map<string, string>): (r: Result<Config, string>)
    ensures r.Ok? <==> Collect(Parsed(env)).Ok?
    ensures r.Err? ==> r.error == Collect(Parsed(env)).error
    ensures r.Ok? ==>
      && r.value.jwtSecretKey == Getenv(env, "JWT_SECRET_KEY", DefaultSecret)
      && [r.value.accessTokenExpireMinutes, r.value.refreshTokenExpireDays, r.value.maxRequestSizeMb,
          r.value.maxUploadSizeMb, r.value.rateLimitPerMinute] == Collect(Parsed(env)).value
      && r.value.corsAllowedOrigins == Split(Getenv(env, "CORS_ALLOWED_ORIGINS", DefaultOrigins), ',')
      && r.value.environment == Getenv(env, "ENVIRONMENT", "development")
  {
    match Collect(Parsed(env))
    case Err(name) => Err(name)
    case Ok(v) =>
      Ok(Config(
        Getenv(env, "JWT_SECRET_KEY", DefaultSecret),
        v[0], v[1], v[2], v[3], v[4],
        Split(Getenv(env, "CORS_ALLOWED_ORIGINS", DefaultOrigins), ','),
        Getenv(env, "ENVIRONMENT", "development")))
  }

  /** The origins are split without trimming: the default text gives exactly the four dev-server origins. */
  lemma DefaultOriginsSplit()
    ensures Split(DefaultOrigins, ',') == DevOrigins
  {
    SplitJoin(DevOrigins, ',');
  }

  /** With no variables set: 60 minutes, 30 days, 100 MB, 100 MB, 120 per minute, the four origins, development. */
  lemma DefaultConfig()
    ensures Load(map[]) == Ok(Config(
      DefaultSecret, 60, 30, 100, 100, 120, DevOrigins, "development"))
  {
    var v := Collect(Parsed(map[]));
    assert v.Ok? && v.value == [60, 30, 100, 100, 120];
    DefaultOriginsSplit();
  }

  /** `is_development` */
  predicate IsDevelopment(c: Config)
    ensures IsDevelopment(c) ==> !IsProduction(c)
  {
    c.environment == "development"
  }

  /** `is_production` */
  predicate IsProduction(c: Config)
    ensures IsProduction(c) ==> c.environment != "development"
  {
    c.environment == "production"
  }

  /** The two modes exclude each other, and any other text (which the settings accept) is neither. */
  lemma ModesExclusive(c: Config)
    ensures !(IsDevelopment(c) && IsProduction(c))
    ensures c.environment != "development" && c.environment != "production" ==> !IsDevelopment(c) && !IsProduction(c)
  {
  }
}
