/**
 * `AuthServiceImpl.authenticate`: build the token the login type calls for,
 * hand it to the authentication manager (a `ProviderManager` holding only
 * `CustomAuthenticationProvider`), and turn an authenticated result into a
 * `LoginRsp` carrying a fresh access token and refresh token.
 */
module AuthLogin {
  import opened Common
  import opened Domain
  import opened AuthUsers
  import opened AuthProvider
  import opened Tokens

  /** `LoginUserParam.LoginTypeEnum` */
  datatype LoginType = Password | PhoneCodeLogin

  /** `LoginUserParam`, without the platform, which the core never reads. */
  datatype LoginUserParam = LoginUserParam(account: Option<string>, secret: Option<string>, loginType: Option<LoginType>)

  /** A nullable string placed in an `Object` slot. */
  function ObjOf(s: Option<string>): (o: Obj)
    ensures s.None? <==> o.Null?
    ensures s.Some? ==> o == Text(s.value)
  {
    if s.None? then Null else Text(s.value)
  }

  /**
   * The token built for each login type: `new UsernamePasswordAuthenticationToken(account, secret)`
   * (not yet authenticated) or `new CustomPhoneCodeAuthenticationToken(account, secret)`.
   */
  function LoginToken(account: Option<string>, secret: Option<string>, loginType: LoginType): (a: Authentication)
    ensures !a.IsAuthenticated() && a.Details() == Null && a.Principal() == ObjOf(account)
    ensures loginType == Password <==> a.UsernamePassword?
    ensures loginType == PhoneCodeLogin <==> a.PhoneCode?
  {
    match loginType
    case Password => UsernamePassword(ObjOf(account), ObjOf(secret), Null, false)
    case PhoneCodeLogin => PhoneCode(account, secret, Null)
  }

  /**
   * `authenticationManager.authenticate(token)` with the single provider:
   * the provider's result, its exception, or ProviderNotFoundException when
   * it returns null. Both tokens built above are of supported classes.
   */
  function ManagerAuthenticate(a: Authentication, t: UserTables, matches: PasswordMatcher,
                               describe: LoginUserDetail -> string): (r: Outcome<Authentication>)
    ensures var p := AuthProvider.Authenticate(a, t, matches, describe);
            && (p.Thrown? ==> r == Thrown(p.fault))
            && (p == Ok(NoResult) ==> r == Thrown(ProviderNotFound))
            && (p.Ok? && p.value.Authenticated? ==> r == Ok(p.value.auth))
  {
    match AuthProvider.Authenticate(a, t, matches, describe)
    case Thrown(f) => Thrown(f)
    case Ok(NoResult) => Thrown(ProviderNotFound)
    case Ok(Authenticated(auth)) => Ok(auth)
  }

  /**
   * The tail of `authenticate`: an authenticated result whose details are a
   * `LoginUserDetail` gives a response for that user's id; null details or an
   * unauthenticated result throw BadCredentialsException, and details of any
   * other class fail the cast.
   */
  function LoginResponse(a: Authentication, env: TokenEnv, now: int): (r: Outcome<LoginRsp>)
    ensures r.Ok? <==> a.IsAuthenticated() && a.Details().UserObj?
    ensures r.Ok? ==> var u := a.Details().user;
                      r.value == LoginRsp(u.id, u.userId, GenerateToken(env, Some(u.id), now),
                                          GenerateRefreshToken(env, Some(u.id), now))
    ensures r.Thrown? ==> (r.fault == BadCredentials(InvalidCredentials) <==> !a.IsAuthenticated() || a.Details().Null?)
    ensures r.Thrown? && r.fault != BadCredentials(InvalidCredentials) ==> r.fault == ClassCast
  {
    if !a.IsAuthenticated() then Thrown(BadCredentials(InvalidCredentials))
    else
      match a.Details()
      case Null => Thrown(BadCredentials(InvalidCredentials))
      case UserObj(u) =>
        Ok(LoginRsp(u.id, u.userId, GenerateToken(env, Some(u.id), now), GenerateRefreshToken(env, Some(u.id), now)))
      case _ => Thrown(ClassCast)
  }

  /** `authenticate(loginUserParam)`; a null login type fails the `switch` with NullPointerException. */
  function Authenticate(p: LoginUserParam, t: UserTables, matches: PasswordMatcher,
                        describe: LoginUserDetail -> string, env: TokenEnv, now: int): (r: Outcome<LoginRsp>)
    ensures p.loginType.None? ==> r == Thrown(NullPointer)
    ensures p.loginType == Some(PhoneCodeLogin) ==> r == Thrown(ProviderNotFound)
    ensures r.Ok? ==>
              var loaded := LoadUserByAccount(t, ValueOf(ObjOf(p.account), describe));
              && p.loginType == Some(Password) && loaded.Ok? && loaded.value.Some?
              && matches(ValueOf(ObjOf(p.secret), describe), loaded.value.value.sysUserAuth.value.credential)
              && r.value.id == loaded.value.value.id && r.value.userId == loaded.value.value.userId
              && r.value.token == GenerateToken(env, Some(r.value.id), now)
              && r.value.refreshToken == GenerateRefreshToken(env, Some(r.value.id), now)
  {
    match p.loginType
    case None => Thrown(NullPointer)
    case Some(kind) =>
      match ManagerAuthenticate(LoginToken(p.account, p.secret, kind), t, matches, describe)
      case Thrown(f) => Thrown(f)
      case Ok(a) => LoginResponse(a, env, now)
  }

  /**
   * A password login of an account whose auth row's credential matches the
   * secret returns that user's id and user id with an access token and a
   * refresh token issued for the id.
   */
  lemma PasswordLoginSucceeds(account: string, secret: string, t: UserTables, matches: PasswordMatcher,
                              describe: LoginUserDetail -> string, env: TokenEnv, now: int, user: LoginUserDetail)
    requires LoadUserByAccount(t, account) == Ok(Some(user))
    requires matches(secret, user.sysUserAuth.value.credential)
    ensures Authenticate(LoginUserParam(Some(account), Some(secret), Some(Password)), t, matches, describe, env, now)
         == Ok(LoginRsp(user.id, user.userId, GenerateToken(env, Some(user.id), now),
                        GenerateRefreshToken(env, Some(user.id), now)))
  {
    var a := LoginToken(Some(account), Some(secret), Password);
    assert AuthProvider.Authenticate(a, t, matches, describe) == Ok(Authenticated(AuthenticatedUser(user)));
  }

  /** A password login whose secret does not match, or whose account is unknown, throws BadCredentialsException. */
  lemma PasswordLoginRejected(account: string, secret: string, t: UserTables, matches: PasswordMatcher,
                              describe: LoginUserDetail -> string, env: TokenEnv, now: int)
    requires LoadUserByAccount(t, account).Ok?
    requires LoadUserByAccount(t, account).value.Some? ==>
               !matches(secret, LoadUserByAccount(t, account).value.value.sysUserAuth.value.credential)
    ensures Authenticate(LoginUserParam(Some(account), Some(secret), Some(Password)), t, matches, describe, env, now)
         == Thrown(BadCredentials(InvalidCredentials))
  {
    var a := LoginToken(Some(account), Some(secret), Password);
    assert AuthProvider.Authenticate(a, t, matches, describe) == Thrown(BadCredentials(InvalidCredentials));
  }
}
