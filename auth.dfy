/**
 * Token issue and checking (backend/core/auth.py). A token is an HS256 JSON
 * Web Token (RFC 7519, algorithm per section 3.2 of RFC 7518); the signature
 * is abstracted to the key it was signed with, so decoding with the same key
 * gives back the claims and decoding with another fails.
 *
 * Time is an integer: microseconds since the epoch in UTC, as `utcnow()`
 * reads it. The `exp` claim holds whole seconds (the encoder drops the
 * microseconds). `offset` is the server's local UTC offset in seconds, which
 * `datetime.fromtimestamp` applies when it turns `exp` back into a datetime.
 */
module Auth {
  import opened Common
  import opened Exceptions
  import opened SecurityConfig

  const UsPerSecond: int := 1_000_000
  const UsPerMinute: int := 60 * UsPerSecond
  const UsPerDay: int := 86_400 * UsPerSecond

  /** The claims of a token; a claim that is absent from the payload is None. */
  datatype Claims = Claims(
    userId: Option<string>,
    ownerId: Option<string>,
    role: Option<string>,
    exp: Option<int>,
    tokenType: Option<string>)

  datatype Token =
    | Signed(claims: Claims, key: string)  // a well-formed token and the key that signed it
    | Garbled(reason: string)              // text that is not a token; the decoder's message

  datatype Role = Owner | Admin

  /** `TokenData`: `exp` is the naive datetime `fromtimestamp` gives, in microseconds. */
  datatype TokenData = TokenData(userId: string, ownerId: string, role: Role, exp: int)

  datatype TokenPair = TokenPair(accessToken: Token, refreshToken: Token, tokenType: string)

  /** The `role` field of `TokenData` accepts exactly "owner" and "admin". */
  function ParseRole(role: Option<string>): (r: Option<Role>)
    ensures r == Some(Owner) <==> role == Some("owner")
    ensures r == Some(Admin) <==> role == Some("admin")
  {
    if role == Some("owner") then Some(Owner) else if role == Some("admin") then Some(Admin) else None
  }

  function RoleName(r: Role): (name: string)
    ensures ParseRole(Some(name)) == Some(r)
  {
    match r
    case Owner => "owner"
    case Admin => "admin"
  }

  /** The `exp` claim for a lifetime starting now: whole seconds, rounded down. */
  function ExpiresAt(nowUs: int, lifetimeUs: int): (exp: int)
    ensures exp * UsPerSecond <= nowUs + lifetimeUs < (exp + 1) * UsPerSecond
  {
    (nowUs + lifetimeUs) / UsPerSecond
  }

  /** The access lifetime: a non-zero `expires_delta` (a zero timedelta is falsy), else the configured minutes. */
  function AccessLifetime(config: Config, expiresDeltaUs: Option<int>): (us: int)
    ensures expiresDeltaUs.Some? && expiresDeltaUs.value != 0 ==> us == expiresDeltaUs.value
    ensures expiresDeltaUs.None? || expiresDeltaUs.value == 0 ==> us == config.accessTokenExpireMinutes * UsPerMinute
  {
    if expiresDeltaUs.Some? && expiresDeltaUs.value != 0 then expiresDeltaUs.value
    else config.accessTokenExpireMinutes * UsPerMinute
  }

  /** `create_access_token(user_id, owner_id, role, expires_delta)` at time `nowUs`. */
  function CreateAccessToken(config: Config, nowUs: int, userId: string, ownerId: string, role: string,
                             expiresDeltaUs: Option<int>): (t: Token)
    ensures t.Signed? && t.key == config.jwtSecretKey
    ensures t.claims == Claims(Some(userId), Some(ownerId), Some(role),
                               Some(ExpiresAt(nowUs, AccessLifetime(config, expiresDeltaUs))), Some("access"))
  {
    var exp := ExpiresAt(nowUs, AccessLifetime(config, expiresDeltaUs));
    Signed(Claims(Some(userId), Some(ownerId), Some(role), Some(exp), Some("access")), config.jwtSecretKey)
  }

  /** `create_refresh_token(user_id, owner_id, role)` at time `nowUs`: the configured number of days. */
  function CreateRefreshToken(config: Config, nowUs: int, userId: string, ownerId: string, role: string): (t: Token)
    ensures t.Signed? && t.key == config.jwtSecretKey
    ensures t.claims == Claims(Some(userId), Some(ownerId), Some(role),
                               Some(ExpiresAt(nowUs, config.refreshTokenExpireDays * UsPerDay)), Some("refresh"))
  {
    var exp := ExpiresAt(nowUs, config.refreshTokenExpireDays * UsPerDay);
    Signed(Claims(Some(userId), Some(ownerId), Some(role), Some(exp), Some("refresh")), config.jwtSecretKey)
  }

  /** `create_token_pair(user_id, owner_id, role)`: an access and a refresh token for the same identity. */
  function CreateTokenPair(config: Config, nowUs: int, userId: string, ownerId: string, role: string): (p: TokenPair)
    ensures p.tokenType == "bearer"
    ensures p.accessToken.Signed? && p.refreshToken.Signed?
    ensures p.accessToken.key == config.jwtSecretKey && p.refreshToken.key == config.jwtSecretKey
    ensures p.accessToken.claims.tokenType == Some("access") && p.refreshToken.claims.tokenType == Some("refresh")
    ensures p.accessToken.claims.exp == Some(ExpiresAt(nowUs, config.accessTokenExpireMinutes * UsPerMinute))
  {
    TokenPair(CreateAccessToken(config, nowUs, userId, ownerId, role, None),
              CreateRefreshToken(config, nowUs, userId, ownerId, role), "bearer")
  }

  /** Both tokens of a pair carry the same identity, differ only in type and expiry, and the pair is "bearer". */
  lemma PairSharesIdentity(config: Config, nowUs: int, userId: string, ownerId: string, role: string)
    ensures var p := CreateTokenPair(config, nowUs, userId, ownerId, role);
      && p.tokenType == "bearer"
      && p.accessToken.Signed? && p.refreshToken.Signed?
      && p.accessToken.claims.(exp := None, tokenType := None) == p.refreshToken.claims.(exp := None, tokenType := None)
      && p.accessToken.claims.userId == Some(userId) && p.accessToken.claims.ownerId == Some(ownerId)
      && p.accessToken.claims.role == Some(role)
      && p.accessToken.claims.tokenType == Some("access") && p.refreshToken.claims.tokenType == Some("refresh")
  {
  }

  /**
   * The library's `jwt.decode(token, key)`: a token signed with another key
   * fails verification, and one whose `exp` lies before the current whole
   * second is expired. Both failures are `JWTError`s.
   */
  function JwtDecode(token: Token, key: string, nowUs: int): (r: Result<Claims, string>)
    ensures r.Ok? <==> token.Signed? && token.key == key
                       && (token.claims.exp.None? || token.claims.exp.value >= nowUs / UsPerSecond)
    ensures r.Ok? ==> r.value == token.claims
  {
    match token
    case Garbled(reason) => Err(reason)
    case Signed(claims, signer) =>
      if signer != key then Err("Signature verification failed.")
      else if claims.exp.Some? && claims.exp.value < nowUs / UsPerSecond then Err("Signature has expired.")
      else Ok(claims)
  }

  const MissingFieldsMessage: string := "Invalid token: missing required fields"
  const CredentialsPrefix: string := "Could not validate credentials: "
  const ExpiredMessage: string := "Token has expired"

  /**
   * `decode_token(token)` on a server whose local offset is `offset` seconds.
   * A `JWTError` becomes 401 "Could not validate credentials: <reason>"; a
   * missing user or owner id becomes 401 "Invalid token: missing required
   * fields". The other failures are not `JWTError`s and escape as they are: a
   * missing `exp` makes `fromtimestamp` raise TypeError, and a role other than
   * "owner" or "admin" fails the `TokenData` validation.
   */
  function DecodeTokenAt(config: Config, nowUs: int, offset: int, token: Token): (r: Result<TokenData, Raised>)
    ensures JwtDecode(token, config.jwtSecretKey, nowUs).Err? <==>
      r.Err? && r.error.Http? && r.error.exc.statusCode == Unauthorized && StartsWith(r.error.exc.detail, CredentialsPrefix)
    ensures r.Ok? <==>
      && JwtDecode(token, config.jwtSecretKey, nowUs).Ok?
      && token.claims.userId.Some? && token.claims.ownerId.Some? && token.claims.exp.Some?
      && ParseRole(token.claims.role).Some?
    ensures r.Ok? ==> r.value == TokenData(token.claims.userId.value, token.claims.ownerId.value,
                                           ParseRole(token.claims.role).value,
                                           (token.claims.exp.value + offset) * UsPerSecond)
  {
    match JwtDecode(token, config.jwtSecretKey, nowUs)
    case Err(reason) =>
      assert StartsWith(CredentialsPrefix + reason, CredentialsPrefix);
      Err(Http(RaiseUnauthorized(Some(CredentialsPrefix + reason))))
    case Ok(claims) =>
      if claims.userId.None? || claims.ownerId.None? then
        assert !StartsWith(MissingFieldsMessage, CredentialsPrefix) by {
          assert MissingFieldsMessage[0] != CredentialsPrefix[0];
        }
        Err(Http(RaiseUnauthorized(Some(MissingFieldsMessage))))
      else if claims.exp.None? then Err(Other("TypeError"))
      else if ParseRole(claims.role).None? then Err(Other("ValidationError"))
      else Ok(TokenData(claims.userId.value, claims.ownerId.value, ParseRole(claims.role).value,
                        (claims.exp.value + offset) * UsPerSecond))
  }

  /** `decode_token` never looks at the "type" claim: a refresh token decodes exactly like an access token. */
  lemma DecodeIgnoresType(config: Config, nowUs: int, offset: int, claims: Claims, key: string, t1: string, t2: string)
    ensures DecodeTokenAt(config, nowUs, offset, Signed(claims.(tokenType := Some(t1)), key))
         == DecodeTokenAt(config, nowUs, offset, Signed(claims.(tokenType := Some(t2)), key))
  {
  }

  /** A token without a user or owner id is refused with the "missing required fields" message. */
  lemma MissingIdRefused(config: Config, nowUs: int, offset: int, claims: Claims)
    requires claims.exp.None? || claims.exp.value >= nowUs / UsPerSecond
    requires claims.userId.None? || claims.ownerId.None?
    ensures DecodeTokenAt(config, nowUs, offset, Signed(claims, config.jwtSecretKey))
         == Err(Http(HttpException(Unauthorized, MissingFieldsMessage, [("WWW-Authenticate", "Bearer")])))
  {
  }

  /**
   * `get_current_user` as written: the decoded `exp` is local time (the
   * naive `fromtimestamp`) but is compared with `utcnow()`, which is UTC.
   */
  function CurrentUserAt(config: Config, nowUs: int, offset: int, token: Token): (r: Result<TokenData, Raised>)
    ensures r.Ok? <==> DecodeTokenAt(config, nowUs, offset, token).Ok? && DecodeTokenAt(config, nowUs, offset, token).value.exp >= nowUs
    ensures r.Ok? ==> r == DecodeTokenAt(config, nowUs, offset, token)
    ensures DecodeTokenAt(config, nowUs, offset, token).Ok? && r.Err? ==>
      r.error == Http(RaiseUnauthorized(Some(ExpiredMessage)))
  {
    match DecodeTokenAt(config, nowUs, offset, token)
    case Err(e) => Err(e)
    case Ok(data) =>
      if data.exp < nowUs then Err(Http(RaiseUnauthorized(Some(ExpiredMessage)))) else Ok(data)
  }

  /**
   * The evidently intended `get_current_user`: `exp` read back in UTC, the
   * zone it was written in. The rest of the model authenticates with this.
   */
  function CurrentUser(config: Config, nowUs: int, token: Token): (r: Result<TokenData, Raised>)
    ensures r.Ok? ==> token.Signed? && token.key == config.jwtSecretKey && r.value.exp >= nowUs
    ensures r.Ok? ==> token.Signed? && token.claims.userId == Some(r.value.userId) && token.claims.ownerId == Some(r.value.ownerId)
  {
    CurrentUserAt(config, nowUs, 0, token)
  }

  /**
   * On a server west of UTC by more than the access lifetime (five hours
   * behind, with the default 60 minutes), every fresh access token is refused
   * as expired at the very moment it is issued.
   */
  lemma WestOfUtcRejectsFreshToken(config: Config, nowUs: int, offset: int, userId: string, ownerId: string)
    requires config.accessTokenExpireMinutes >= 0
    requires offset * UsPerSecond < -(config.accessTokenExpireMinutes * UsPerMinute)
    ensures CurrentUserAt(config, nowUs, offset, CreateAccessToken(config, nowUs, userId, ownerId, "owner", None))
         == Err(Http(RaiseUnauthorized(Some(ExpiredMessage))))
  {
    var lifetime := config.accessTokenExpireMinutes * UsPerMinute;
    var token := CreateAccessToken(config, nowUs, userId, ownerId, "owner", None);
    var exp := ExpiresAt(nowUs, lifetime);
    assert exp >= nowUs / UsPerSecond by {
      assert exp * UsPerSecond <= nowUs + lifetime;
      assert (nowUs / UsPerSecond) * UsPerSecond <= nowUs;
    }
    assert DecodeTokenAt(config, nowUs, offset, token).Ok?;
    assert (exp + offset) * UsPerSecond == exp * UsPerSecond + offset * UsPerSecond;
  }

  /** The concrete case: default settings on a server at UTC-5 refuse a token issued the same instant. */
  lemma EasternTimeRejectsFreshToken(nowUs: int)
    ensures CurrentUserAt(Load(map[]).value, nowUs, -18_000,
                          CreateAccessToken(Load(map[]).value, nowUs, "dev", "dev", "owner", None))
         == Err(Http(RaiseUnauthorized(Some(ExpiredMessage))))
  {
    DefaultConfig();
    WestOfUtcRejectsFreshToken(Load(map[]).value, nowUs, -18_000, "dev", "dev");
  }

  /**
   * On a server at or east of UTC, a token issued at `issuedUs` is accepted,
   * with the identity it was issued for, at any time up to a second before
   * its lifetime runs out.
   */
  lemma FreshTokenAcceptedAt(config: Config, issuedUs: int, nowUs: int, offset: int, userId: string, ownerId: string, role: Role)
    requires offset >= 0
    requires issuedUs <= nowUs <= issuedUs + config.accessTokenExpireMinutes * UsPerMinute - UsPerSecond
    ensures CurrentUserAt(config, nowUs, offset, CreateAccessToken(config, issuedUs, userId, ownerId, RoleName(role), None))
         == Ok(TokenData(userId, ownerId, role,
                         (ExpiresAt(issuedUs, config.accessTokenExpireMinutes * UsPerMinute) + offset) * UsPerSecond))
  {
    var lifetime := config.accessTokenExpireMinutes * UsPerMinute;
    var exp := ExpiresAt(issuedUs, lifetime);
    assert nowUs < exp * UsPerSecond;
    assert (exp + offset) * UsPerSecond == exp * UsPerSecond + offset * UsPerSecond;
    assert exp >= nowUs / UsPerSecond by {
      assert (nowUs / UsPerSecond) * UsPerSecond <= nowUs;
    }
  }

  /** The same in UTC, the check the evidently intended `get_current_user` makes. */
  lemma FreshTokenAccepted(config: Config, issuedUs: int, nowUs: int, userId: string, ownerId: string, role: Role)
    requires issuedUs <= nowUs <= issuedUs + config.accessTokenExpireMinutes * UsPerMinute - UsPerSecond
    ensures CurrentUser(config, nowUs, CreateAccessToken(config, issuedUs, userId, ownerId, RoleName(role), None))
         == Ok(TokenData(userId, ownerId, role,
                         ExpiresAt(issuedUs, config.accessTokenExpireMinutes * UsPerMinute) * UsPerSecond))
  {
    FreshTokenAcceptedAt(config, issuedUs, nowUs, 0, userId, ownerId, role);
  }

  /** Once the expiry second has passed, the library itself refuses the token, whatever the zone. */
  lemma ExpiredTokenRefused(config: Config, nowUs: int, offset: int, claims: Claims)
    requires claims.exp.Some? && (claims.exp.value + 1) * UsPerSecond <= nowUs
    ensures CurrentUserAt(config, nowUs, offset, Signed(claims, config.jwtSecretKey))
         == Err(Http(RaiseUnauthorized(Some(CredentialsPrefix + "Signature has expired."))))
  {
    assert claims.exp.value < nowUs / UsPerSecond by {
      assert (nowUs / UsPerSecond + 1) * UsPerSecond > nowUs;
    }
  }

  /** `verify_dev_credentials`: only "dev"/"dev", and only in development. */
  function VerifyDevCredentials(config: Config, username: string, password: string): (ok: bool)
    ensures ok <==> IsDevelopment(config) && username == "dev" && password == "dev"
  {
    if IsDevelopment(config) then username == "dev" && password == "dev" else false
  }

  /** Production never accepts the development credentials. */
  lemma ProductionRefusesDev(config: Config, username: string, password: string)
    requires IsProduction(config)
    ensures !VerifyDevCredentials(config, username, password)
  {
    ModesExclusive(config);
  }
}
