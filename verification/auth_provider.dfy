/**
 * `CustomAuthenticationProvider`: dispatch on the class of the incoming
 * `Authentication`, the password check against the stored credential, the
 * phone-code path (which answers nothing) and `supports`.
 */
module AuthProvider {
  import opened Common
  import opened Domain
  import opened AuthUsers

  /** `PasswordEncoder.matches(rawPassword, encodedPassword)`; the encoder itself is not part of this model. */
  type PasswordMatcher = (string, Option<string>) -> bool

  /** What `authenticate` returns: an `Authentication`, or null. */
  datatype Provided = Authenticated(auth: Authentication) | NoResult

  const InvalidCredentials: string := "Invalid credentials"
  const UnsupportedMethod: string := "Unsupported authentication method"

  /**
   * `String.valueOf(obj)`: "null" for null, the string itself for a string;
   * `describe` stands for `LoginUserDetail.toString()`.
   */
  function ValueOf(o: Obj, describe: LoginUserDetail -> string): (s: string)
    ensures o.Null? ==> s == "null"
    ensures o.Text? ==> s == o.s
    ensures o.UserObj? ==> s == describe(o.user)
    ensures o.OtherObj? ==> s == o.description
  {
    match o
    case Null => "null"
    case Text(s) => s
    case UserObj(u) => describe(u)
    case OtherObj(d) => d
  }

  /**
   * `authenticateByPwd`: load the user by the principal's string form and
   * compare the credentials' string form with the stored credential. Only a
   * match returns; an unknown account and a mismatch both throw
   * BadCredentialsException, and a fault of the loader propagates.
   */
  function AuthenticateByPwd(a: Authentication, t: UserTables, matches: PasswordMatcher,
                             describe: LoginUserDetail -> string): (r: Outcome<Provided>)
    requires a.UsernamePassword?
    ensures var loaded := LoadUserByAccount(t, ValueOf(a.principal, describe));
            && (r.Ok? <==> loaded.Ok? && loaded.value.Some?
                           && matches(ValueOf(a.credentials, describe), loaded.value.value.sysUserAuth.value.credential))
            && (r.Ok? ==> r.value == Authenticated(AuthenticatedUser(loaded.value.value)))
            && (loaded.Thrown? ==> r == Thrown(loaded.fault))
            && (loaded.Ok? && r.Thrown? ==> r.fault == BadCredentials(InvalidCredentials))
  {
    var account := ValueOf(a.principal, describe);
    var secret := ValueOf(a.credentials, describe);
    match LoadUserByAccount(t, account)
    case Thrown(f) => Thrown(f)
    case Ok(None) => Thrown(BadCredentials(InvalidCredentials))
    case Ok(Some(user)) =>
      if matches(secret, user.sysUserAuth.value.credential) then Ok(Authenticated(AuthenticatedUser(user)))
      else Thrown(BadCredentials(InvalidCredentials))
  }

  /** `authenticateByPhoneCode`: always null. */
  function AuthenticateByPhoneCode(a: Authentication): (r: Outcome<Provided>)
    requires a.PhoneCode?
    ensures r == Ok(NoResult)
  {
    Ok(NoResult)
  }

  /** `authenticate`: a username/password token takes the password path, a phone-code token the phone path, anything else throws. */
  function Authenticate(a: Authentication, t: UserTables, matches: PasswordMatcher,
                        describe: LoginUserDetail -> string): (r: Outcome<Provided>)
    ensures a.UsernamePassword? ==> r == AuthenticateByPwd(a, t, matches, describe)
    ensures a.PhoneCode? ==> r == Ok(NoResult)
    ensures !a.UsernamePassword? && !a.PhoneCode? ==> r == Thrown(UnsupportedOperation(UnsupportedMethod))
    ensures r.Ok? && r.value.Authenticated? ==>
              && r.value.auth.IsAuthenticated() && r.value.auth.UsernamePassword?
              && r.value.auth.credentials == Null
              && r.value.auth.Details().UserObj? && r.value.auth.Principal() == r.value.auth.Details()
  {
    if a.UsernamePassword? then AuthenticateByPwd(a, t, matches, describe)
    else if a.PhoneCode? then AuthenticateByPhoneCode(a)
    else Thrown(UnsupportedOperation(UnsupportedMethod))
  }

  /** `supports(authentication)`: the class is one of the two token classes or a subclass of one. */
  function Supports(c: JavaClass): (r: bool)
    ensures r <==> c.name == PhoneCodeTokenClass || PhoneCodeTokenClass in c.superclasses
                   || c.name == UsernamePasswordTokenClass || UsernamePasswordTokenClass in c.superclasses
  {
    IsAssignableFrom(PhoneCodeTokenClass, c) || IsAssignableFrom(UsernamePasswordTokenClass, c)
  }

  /** `c` can be the runtime class of `a`: each variant stands for its class and that class's subclasses. */
  predicate ClassOf(a: Authentication, c: JavaClass)
  {
    match a
    case UsernamePassword(_, _, _, _) => IsAssignableFrom(UsernamePasswordTokenClass, c)
    case PhoneCode(_, _, _) => IsAssignableFrom(PhoneCodeTokenClass, c)
    case _ => !IsAssignableFrom(UsernamePasswordTokenClass, c) && !IsAssignableFrom(PhoneCodeTokenClass, c)
  }

  /** `supports` says yes exactly for the tokens `authenticate` does not reject as unsupported. */
  lemma SupportsAgreesWithDispatch(a: Authentication, c: JavaClass, t: UserTables, matches: PasswordMatcher,
                                   describe: LoginUserDetail -> string)
    requires ClassOf(a, c)
    ensures Supports(c) <==> Authenticate(a, t, matches, describe) != Thrown(UnsupportedOperation(UnsupportedMethod))
  {
    if a.UsernamePassword? {
      var r := AuthenticateByPwd(a, t, matches, describe);
      assert r.Thrown? ==> r.fault.BadCredentials? || r.fault.TooManyResults? || r.fault.IllegalArgument?;
    }
  }

  /** A null principal or null credentials are looked up and compared as the four-letter string "null". */
  lemma NullPrincipalIsTheStringNull(t: UserTables, matches: PasswordMatcher, describe: LoginUserDetail -> string,
                                     details: Obj, authenticated: bool)
    ensures Authenticate(UsernamePassword(Null, Null, details, authenticated), t, matches, describe)
         == Authenticate(UsernamePassword(Text("null"), Text("null"), details, authenticated), t, matches, describe)
  {
  }

  /** An account with no auth row is refused with BadCredentialsException whatever the secret. */
  lemma UnknownAccountRejected(account: string, secret: string, t: UserTables, matches: PasswordMatcher,
                               describe: LoginUserDetail -> string)
    requires RowsWithIdentifier(t, account) == []
    ensures Authenticate(UsernamePassword(Text(account), Text(secret), Null, false), t, matches, describe)
         == Thrown(BadCredentials(InvalidCredentials))
  {
  }

  /**
   * A known account is accepted exactly when the encoder matches the secret
   * against the credential stored in its auth row, and the result carries
   * the loaded user as principal and details.
   */
  lemma KnownAccountAcceptedIffMatch(account: string, secret: string, t: UserTables, matches: PasswordMatcher,
                                     describe: LoginUserDetail -> string, user: LoginUserDetail)
    requires LoadUserByAccount(t, account) == Ok(Some(user))
    ensures var r := Authenticate(UsernamePassword(Text(account), Text(secret), Null, false), t, matches, describe);
            && (r.Ok? <==> matches(secret, user.sysUserAuth.value.credential))
            && (r.Ok? ==> r.value == Authenticated(AuthenticatedUser(user)))
            && (r.Thrown? ==> r.fault == BadCredentials(InvalidCredentials))
  {
  }
}
