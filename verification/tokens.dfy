/**
 * `TokenService`: issuing, reading and validating the RS256-signed JSON Web
 * Tokens (RFC 7519) that carry a user id.
 *
 * jjwt is abstracted as a pair of functions: `sign` turns a claims set into a
 * compact token with a private key, `parse` verifies a token with a public key
 * at an instant and returns its claims or one of the failures jjwt reports.
 * Two facts about the library are part of the model:
 *  - numeric dates are written as whole seconds (section 2 of RFC 7519,
 *    "NumericDate"), so milliseconds are lost;
 *  - a JSON number read back becomes an Integer when it fits in 32 bits and a
 *    Long otherwise, which is why `getUserIdFromToken` widens Integers.
 */
module Tokens {
  import opened Common
  import opened Envelope
  import opened SecretKeys

  /** Access-token lifetime: 7 days in milliseconds. */
  const Expiration: int := 1000 * 60 * 60 * 24 * 7
  /** Refresh-token lifetime: 30 days in milliseconds. */
  const RefreshExpiration: int := 1000 * 60 * 60 * 24 * 30

  const ClaimKeyUserId: string := "userId"
  const ClaimKeyCreated: string := "created"

  const IntMin: int := -0x8000_0000
  const IntMax: int := 0x7fff_ffff

  /** A custom claim value: as put by the builder (`Long`, `Date`) or as read back (`Integer`, `Long`). */
  datatype ClaimValue = IntegerValue(i: int) | LongValue(l: int) | DateValue(ms: int) | OtherValue

  /** A claims set: the custom claims plus `iat` and `exp`, in epoch milliseconds. */
  datatype Claims = Claims(custom: map<string, ClaimValue>, issuedAt: Option<int>, expiration: Option<int>)

  /** The jjwt exception classes `getClaimsFromToken` distinguishes. */
  datatype ParseFailure = ExpiredJwt | MalformedJwt | SignatureInvalid | OtherJwtFailure(msg: string)

  datatype ParseResult = Parsed(claims: Claims) | ParseFailed(failure: ParseFailure)

  /** The parts of jjwt the service calls. */
  datatype JwtLibrary = JwtLibrary(sign: (Claims, PrivateKey) -> string,
                                   parse: (string, PublicKey, int) -> ParseResult)

  /** What the service reads from its collaborators: the library and the active key pair. */
  datatype TokenEnv = TokenEnv(lib: JwtLibrary, privateKey: PrivateKey, publicKey: PublicKey)

  /** Java's `long` division by a positive divisor, which truncates toward zero. */
  function JavaDiv(a: int, b: int): int
    requires b > 0
  {
    if a >= 0 then a / b else -((-a) / b)
  }

  /** A `Date` after a trip through a NumericDate: the milliseconds are dropped. */
  function WholeSeconds(ms: int): int
  {
    JavaDiv(ms, 1000) * 1000
  }

  /** A number after a trip through JSON: Integer when it fits in 32 bits, Long otherwise. */
  function JsonNumber(n: int): (v: ClaimValue)
    ensures v.IntegerValue? || v.LongValue?
    ensures (v.IntegerValue? && v.i == n) || (v.LongValue? && v.l == n)
  {
    if IntMin <= n <= IntMax then IntegerValue(n) else LongValue(n)
  }

  function ReadBack(v: ClaimValue): ClaimValue
  {
    match v
    case IntegerValue(n) => JsonNumber(n)
    case LongValue(n) => JsonNumber(n)
    case DateValue(ms) => JsonNumber(ms)
    case OtherValue => OtherValue
  }

  /** The claims `parse` hands back for a token that `sign` produced from `c`. */
  function Decoded(c: Claims): Claims
  {
    Claims(map k | k in c.custom :: ReadBack(c.custom[k]),
           if c.issuedAt.Some? then Some(WholeSeconds(c.issuedAt.value)) else None,
           if c.expiration.Some? then Some(WholeSeconds(c.expiration.value)) else None)
  }

  /**
   * The claims `generateToken(userId)` (ttl = `Expiration`) and
   * `generateRefreshToken(userId)` (ttl = `RefreshExpiration`) sign at instant
   * `now`. A null user id puts no `userId` claim.
   */
  function BuildClaims(userId: Option<int>, now: int, ttl: int): (c: Claims)
    ensures c.issuedAt == Some(now) && c.expiration == Some(now + ttl)
    ensures userId.Some? <==> ClaimKeyUserId in c.custom
    ensures userId.Some? ==> c.custom[ClaimKeyUserId] == LongValue(userId.value)
    ensures c.custom.Keys <= {ClaimKeyUserId, ClaimKeyCreated}
  {
    var created := map[ClaimKeyCreated := DateValue(now)];
    var custom := if userId.Some? then created[ClaimKeyUserId := LongValue(userId.value)] else created;
    Claims(custom, Some(now), Some(now + ttl))
  }

  /**
   * `generateToken(userId)`: whenever jjwt reads the token back, it yields the
   * same user id and is accepted up to 7 days (in whole seconds) after `now`.
   */
  function GenerateToken(env: TokenEnv, userId: Option<int>, now: int): (token: string)
    ensures token == env.lib.sign(BuildClaims(userId, now, Expiration), env.privateKey)
    ensures forall t :: ReadsBack(env, token, t, BuildClaims(userId, now, Expiration)) ==>
              && GetUserIdFromToken(env, token, t) == Ok(userId)
              && ValidateToken(env, token, t) == Ok(t <= WholeSeconds(now + Expiration))
  {
    var token := env.lib.sign(BuildClaims(userId, now, Expiration), env.privateKey);
    assert forall t :: ReadsBack(env, token, t, BuildClaims(userId, now, Expiration)) ==>
                         GetUserIdFromToken(env, token, t) == Ok(userId) by {
      forall t | ReadsBack(env, token, t, BuildClaims(userId, now, Expiration)) {
        UserIdRoundTrip(env, userId, now, Expiration, t);
      }
    }
    token
  }

  /**
   * `generateRefreshToken(userId)`: whenever jjwt reads the token back, it
   * yields the same user id and is accepted up to 30 days after `now`.
   */
  function GenerateRefreshToken(env: TokenEnv, userId: Option<int>, now: int): (token: string)
    ensures token == env.lib.sign(BuildClaims(userId, now, RefreshExpiration), env.privateKey)
    ensures forall t :: ReadsBack(env, token, t, BuildClaims(userId, now, RefreshExpiration)) ==>
              && GetUserIdFromToken(env, token, t) == Ok(userId)
              && ValidateToken(env, token, t) == Ok(t <= WholeSeconds(now + RefreshExpiration))
  {
    var token := env.lib.sign(BuildClaims(userId, now, RefreshExpiration), env.privateKey);
    assert forall t :: ReadsBack(env, token, t, BuildClaims(userId, now, RefreshExpiration)) ==>
                         GetUserIdFromToken(env, token, t) == Ok(userId) by {
      forall t | ReadsBack(env, token, t, BuildClaims(userId, now, RefreshExpiration)) {
        UserIdRoundTrip(env, userId, now, RefreshExpiration, t);
      }
    }
    token
  }

  /** The AuthenticateException each jjwt failure becomes in `getClaimsFromToken`. */
  function FaultOf(failure: ParseFailure): (f: Fault)
    ensures f.Authenticate?
    ensures f.code == StatusTokenExpired <==> failure.ExpiredJwt?
    ensures f.code == StatusUnauthorized <==> !failure.ExpiredJwt?
    ensures failure.ExpiredJwt? ==> f.msg == TokenExpiredMessage
  {
    match failure
    case ExpiredJwt => Authenticate(StatusTokenExpired, TokenExpiredMessage)
    case MalformedJwt => Authenticate(StatusUnauthorized, "Token格式错误")
    case SignatureInvalid => Authenticate(StatusUnauthorized, "Token签名验证失败")
    case OtherJwtFailure(m) => Authenticate(StatusUnauthorized, "Token解析失败: " + m)
  }

  /** `getClaimsFromToken(token)`, verified with the active public key at instant `now`. */
  function GetClaimsFromToken(env: TokenEnv, token: string, now: int): (r: Outcome<Claims>)
    ensures r.Ok? <==> env.lib.parse(token, env.publicKey, now).Parsed?
    ensures r.Ok? ==> r.value == env.lib.parse(token, env.publicKey, now).claims
    ensures r.Thrown? ==> r.fault == FaultOf(env.lib.parse(token, env.publicKey, now).failure)
  {
    match env.lib.parse(token, env.publicKey, now)
    case Parsed(c) => Ok(c)
    case ParseFailed(f) => Thrown(FaultOf(f))
  }

  /** `isTokenExpired(token)`: the expiration is strictly before `now`; a missing one is dereferenced. */
  function IsTokenExpired(env: TokenEnv, token: string, now: int): (r: Outcome<bool>)
    ensures var p := env.lib.parse(token, env.publicKey, now);
            r.Ok? <==> p.Parsed? && p.claims.expiration.Some?
    ensures r.Ok? ==> (r.value <==> env.lib.parse(token, env.publicKey, now).claims.expiration.value < now)
    ensures var p := env.lib.parse(token, env.publicKey, now);
            p.Parsed? && p.claims.expiration.None? ==> r == Thrown(NullPointer)
  {
    match GetClaimsFromToken(env, token, now)
    case Thrown(f) => Thrown(f)
    case Ok(c) =>
      if c.expiration.None? then Thrown(NullPointer) else Ok(c.expiration.value < now)
  }

  /**
   * `validateToken(token)`: a token that does not parse throws the mapped
   * AuthenticateException; a parsed one answers "not expired". It never
   * answers false for a malformed or badly signed token.
   */
  function ValidateToken(env: TokenEnv, token: string, now: int): (r: Outcome<bool>)
    ensures var p := env.lib.parse(token, env.publicKey, now);
            p.ParseFailed? ==> r == Thrown(FaultOf(p.failure))
    ensures r == Ok(true) <==> var p := env.lib.parse(token, env.publicKey, now);
                               p.Parsed? && p.claims.expiration.Some? && !(p.claims.expiration.value < now)
    ensures r == Ok(false) ==> var p := env.lib.parse(token, env.publicKey, now);
                               p.Parsed? && p.claims.expiration.Some? && p.claims.expiration.value < now
    ensures var p := env.lib.parse(token, env.publicKey, now);
            p.Parsed? && p.claims.expiration.Some? && p.claims.expiration.value < now ==> r == Ok(false)
    ensures var p := env.lib.parse(token, env.publicKey, now);
            p.Parsed? && p.claims.expiration.None? ==> r == Thrown(NullPointer)
  {
    match GetClaimsFromToken(env, token, now)
    case Thrown(f) => Thrown(f)
    case Ok(_) =>
      match IsTokenExpired(env, token, now)
      case Thrown(f) => Thrown(f)
      case Ok(expired) => Ok(!expired)
  }

  /** The cast `getUserIdFromToken` applies to the `userId` claim. */
  function UserIdOf(c: Claims): (r: Outcome<Option<int>>)
    ensures ClaimKeyUserId !in c.custom ==> r == Ok(None)
    ensures r.Ok? && r.value.Some? ==> ClaimKeyUserId in c.custom
    ensures r.Thrown? ==> r.fault == ClassCast
    ensures ClaimKeyUserId in c.custom && c.custom[ClaimKeyUserId].IntegerValue?
            ==> r == Ok(Some(c.custom[ClaimKeyUserId].i))
    ensures ClaimKeyUserId in c.custom && c.custom[ClaimKeyUserId].LongValue?
            ==> r == Ok(Some(c.custom[ClaimKeyUserId].l))
    ensures ClaimKeyUserId in c.custom && (c.custom[ClaimKeyUserId].DateValue? || c.custom[ClaimKeyUserId].OtherValue?)
            ==> r == Thrown(ClassCast)
  {
    if ClaimKeyUserId !in c.custom then Ok(None)
    else
      match c.custom[ClaimKeyUserId]
      case IntegerValue(n) => Ok(Some(n))  // ((Integer) userId).longValue()
      case LongValue(n) => Ok(Some(n))
      case _ => Thrown(ClassCast)
  }

  /** `getUserIdFromToken(token)` */
  function GetUserIdFromToken(env: TokenEnv, token: string, now: int): (r: Outcome<Option<int>>)
    ensures var p := env.lib.parse(token, env.publicKey, now);
            p.ParseFailed? ==> r == Thrown(FaultOf(p.failure))
    ensures var p := env.lib.parse(token, env.publicKey, now);
            p.Parsed? ==> r == UserIdOf(p.claims)
  {
    match GetClaimsFromToken(env, token, now)
    case Thrown(f) => Thrown(f)
    case Ok(c) => UserIdOf(c)
  }

  /**
   * `validateToken(token, userId)`: true exactly when the token's user id
   * equals `userId` (`Objects.equals`, so two nulls are equal) and the token is
   * not expired. The expiry is looked at only when the ids are equal.
   */
  function ValidateTokenFor(env: TokenEnv, token: string, userId: Option<int>, now: int): (r: Outcome<bool>)
    ensures r == Ok(true) <==> GetUserIdFromToken(env, token, now) == Ok(userId)
                               && IsTokenExpired(env, token, now) == Ok(false)
    ensures GetUserIdFromToken(env, token, now).Ok? && GetUserIdFromToken(env, token, now).value != userId
            ==> r == Ok(false)
    ensures GetUserIdFromToken(env, token, now) == Ok(userId) && IsTokenExpired(env, token, now) == Ok(true)
            ==> r == Ok(false)
    ensures GetUserIdFromToken(env, token, now) == Ok(userId) && IsTokenExpired(env, token, now).Thrown?
            ==> r == Thrown(IsTokenExpired(env, token, now).fault)
    ensures GetUserIdFromToken(env, token, now).Thrown? ==> r == Thrown(GetUserIdFromToken(env, token, now).fault)
  {
    match GetUserIdFromToken(env, token, now)
    case Thrown(f) => Thrown(f)
    case Ok(tokenUserId) =>
      if tokenUserId != userId then Ok(false)
      else
        match IsTokenExpired(env, token, now)
        case Thrown(f) => Thrown(f)
        case Ok(expired) => Ok(!expired)
  }

  /**
   * `refreshToken(token)`: empty for an expired token or one without user id,
   * otherwise a new access token for the same user issued at `now`. Nothing
   * about the presented token is recorded.
   */
  function RefreshToken(env: TokenEnv, token: string, now: int): (r: Outcome<Option<string>>)
    ensures r.Ok? && r.value.Some? ==> exists u :: GetUserIdFromToken(env, token, now) == Ok(Some(u))
                                                   && r.value.value == GenerateToken(env, Some(u), now)
    ensures IsTokenExpired(env, token, now) == Ok(true) ==> r == Ok(None)
    ensures IsTokenExpired(env, token, now) == Ok(false) && GetUserIdFromToken(env, token, now) == Ok(None)
            ==> r == Ok(None)
    ensures IsTokenExpired(env, token, now) == Ok(false) && GetUserIdFromToken(env, token, now).Ok?
            && GetUserIdFromToken(env, token, now).value.Some?
            ==> r == Ok(Some(GenerateToken(env, GetUserIdFromToken(env, token, now).value, now)))
    ensures IsTokenExpired(env, token, now).Thrown? ==> r == Thrown(IsTokenExpired(env, token, now).fault)
  {
    match GetClaimsFromToken(env, token, now)   // getExpirationDateFromToken
    case Thrown(f) => Thrown(f)
    case Ok(c) =>
      if c.expiration.None? then Thrown(NullPointer)
      else if c.expiration.value < now then Ok(None)
      else
        match GetUserIdFromToken(env, token, now)
        case Thrown(f) => Thrown(f)
        case Ok(None) => Ok(None)
        case Ok(Some(u)) => Ok(Some(GenerateToken(env, Some(u), now)))
  }

  /** jjwt returns, for `token`, the claims it was signed with (as read back). */
  ghost predicate ReadsBack(env: TokenEnv, token: string, now: int, c: Claims)
  {
    env.lib.parse(token, env.publicKey, now) == Parsed(Decoded(c))
  }

  /** A token lives exactly its ttl: 7 days for access tokens, 30 days for refresh tokens. */
  lemma TokenLifetimes(userId: Option<int>, now: int)
    ensures BuildClaims(userId, now, Expiration).expiration.value - now == 604800000
    ensures BuildClaims(userId, now, RefreshExpiration).expiration.value - now == 2592000000
  {
  }

  /** Adding whole seconds to a non-negative instant commutes with dropping its milliseconds. */
  lemma WholeSecondsShift(ms: int, k: int)
    requires ms >= 0 && k >= 0
    ensures WholeSeconds(ms + 1000 * k) == WholeSeconds(ms) + 1000 * k
  {
    assert (ms + 1000 * k) / 1000 == ms / 1000 + k by {
      var q, r := ms / 1000, ms % 1000;
      assert ms + 1000 * k == 1000 * (q + k) + r;
    }
  }

  /**
   * Even after the milliseconds are dropped, a refresh token issued at the same
   * instant as an access token expires exactly 23 days later than it.
   */
  lemma RefreshOutlivesAccess(userId: Option<int>, now: int)
    requires now >= 0
    ensures var access := Decoded(BuildClaims(userId, now, Expiration)).expiration.value;
            var refresh := Decoded(BuildClaims(userId, now, RefreshExpiration)).expiration.value;
            refresh - access == RefreshExpiration - Expiration && refresh > access
  {
    WholeSecondsShift(now + Expiration, (RefreshExpiration - Expiration) / 1000);
  }

  /**
   * Reading the user id of a freshly generated token gives the id back, whether
   * JSON turned it into an Integer or kept it a Long.
   */
  lemma UserIdRoundTrip(env: TokenEnv, userId: Option<int>, issued: int, ttl: int, now: int)
    requires ReadsBack(env, env.lib.sign(BuildClaims(userId, issued, ttl), env.privateKey), now,
                       BuildClaims(userId, issued, ttl))
    ensures GetUserIdFromToken(env, env.lib.sign(BuildClaims(userId, issued, ttl), env.privateKey), now) == Ok(userId)
  {
    var c := BuildClaims(userId, issued, ttl);
    var d := Decoded(c);
    if userId.Some? {
      assert d.custom[ClaimKeyUserId] == JsonNumber(userId.value);
    } else {
      assert ClaimKeyUserId !in d.custom;
    }
  }

  /** A generated token is accepted exactly up to its (whole-second) expiration. */
  lemma ValidUntilExpiration(env: TokenEnv, userId: Option<int>, issued: int, ttl: int, now: int)
    requires ReadsBack(env, env.lib.sign(BuildClaims(userId, issued, ttl), env.privateKey), now,
                       BuildClaims(userId, issued, ttl))
    ensures var token := env.lib.sign(BuildClaims(userId, issued, ttl), env.privateKey);
            ValidateToken(env, token, now) == Ok(now <= WholeSeconds(issued + ttl))
  {
  }

  /**
   * A refresh token presented before it expires yields a new access token for
   * the same user, issued at the instant of the refresh.
   */
  lemma RefreshIssuesAccessToken(env: TokenEnv, u: int, issued: int, now: int)
    requires ReadsBack(env, GenerateRefreshToken(env, Some(u), issued), now, BuildClaims(Some(u), issued, RefreshExpiration))
    requires now <= WholeSeconds(issued + RefreshExpiration)
    ensures RefreshToken(env, GenerateRefreshToken(env, Some(u), issued), now) == Ok(Some(GenerateToken(env, Some(u), now)))
  {
    UserIdRoundTrip(env, Some(u), issued, RefreshExpiration, now);
  }
}
