/**
 * The records the authentication core passes around: the two table rows
 * (`SysUser`, `SysUserAuth`), the loaded principal (`LoginUserDetail`), the
 * login response (`LoginRsp`) and Spring Security's `Authentication` objects,
 * restricted to the fields the core reads or writes.
 */
module Domain {
  import opened Common

  /** A row of table `sys_user`, keyed by `id`. */
  datatype SysUser = SysUser(id: int, userId: Option<string>, username: Option<string>,
                             avatar: Option<string>, status: Option<int>)

  /** A row of table `sys_user_auth`: one credential of one user. */
  datatype SysUserAuth = SysUserAuth(id: int, userId: int, identifierType: Option<string>,
                                     identifier: Option<string>, credential: Option<string>)

  /**
   * `LoginUserDetail`: the `SysUser` properties copied by name (`loginTime` has
   * no counterpart in `SysUser` and stays null) plus the attached auth record.
   */
  datatype LoginUserDetail = LoginUserDetail(id: int, userId: Option<string>, username: Option<string>,
                                             avatar: Option<string>, status: Option<int>,
                                             sysUserAuth: Option<SysUserAuth>)

  /** `LoginRsp`: the login result handed to the client. */
  datatype LoginRsp = LoginRsp(id: int, userId: Option<string>, token: string, refreshToken: string)

  /** A Java `Object` as stored in a principal, credentials or details slot. */
  datatype Obj = Null | Text(s: string) | UserObj(user: LoginUserDetail) | OtherObj(description: string)

  /**
   * The `Authentication` objects the core meets, one variant per class (a
   * variant also stands for that class's subclasses).
   */
  datatype Authentication =
    | UsernamePassword(principal: Obj, credentials: Obj, details: Obj, authenticated: bool)
    | PhoneCode(phone: Option<string>, code: Option<string>, details: Obj)  // never authenticated
    | Anonymous(principal: Obj, details: Obj)                              // always authenticated
    | OtherAuthentication(principal: Obj, details: Obj, authenticated: bool)
  {
    predicate IsAuthenticated()
    {
      match this
      case UsernamePassword(_, _, _, a) => a
      case PhoneCode(_, _, _) => false
      case Anonymous(_, _) => true
      case OtherAuthentication(_, _, a) => a
    }

    function Principal(): Obj
    {
      match this
      case UsernamePassword(p, _, _, _) => p
      case PhoneCode(phone, _, _) => if phone.Some? then Text(phone.value) else Null
      case Anonymous(p, _) => p
      case OtherAuthentication(p, _, _) => p
    }

    function Details(): Obj
    {
      match this
      case UsernamePassword(_, _, d, _) => d
      case PhoneCode(_, _, d) => d
      case Anonymous(_, d) => d
      case OtherAuthentication(_, d, _) => d
    }
  }

  /**
   * `new UsernamePasswordAuthenticationToken(user, null, null)` followed by
   * `setDetails(user)`: the three-argument constructor marks it authenticated.
   */
  function AuthenticatedUser(user: LoginUserDetail): (a: Authentication)
    ensures a.IsAuthenticated() && a.Principal() == UserObj(user) && a.Details() == UserObj(user)
    ensures a.UsernamePassword? && a.credentials == Null
  {
    UsernamePassword(UserObj(user), Null, UserObj(user), true)
  }

  /** A Java class: its name and the names of all its superclasses. */
  datatype JavaClass = JavaClass(name: string, superclasses: set<string>)

  const UsernamePasswordTokenClass: string := "UsernamePasswordAuthenticationToken"
  const PhoneCodeTokenClass: string := "CustomPhoneCodeAuthenticationToken"

  /** `target.isAssignableFrom(c)`: `c` is `target` or one of its subclasses. */
  predicate IsAssignableFrom(target: string, c: JavaClass)
  {
    c.name == target || target in c.superclasses
  }
}
