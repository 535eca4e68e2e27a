/**
 * The user-loading half of `AuthServiceImpl`: `loadUserByAccount` and
 * `loadUserById`, joining table `sys_user` (a map keyed by id) with table
 * `sys_user_auth` (a sequence of rows).
 */
module AuthUsers {
  import opened Common
  import opened Domain

  datatype UserTables = UserTables(users: map<int, SysUser>, auths: seq<SysUserAuth>)

  /** Every user row sits under its own primary key. */
  predicate KeyedById(t: UserTables)
  {
    forall k :: k in t.users ==> t.users[k].id == k
  }

  /** The rows of `rows` that `keep` accepts, in table order. */
  function Where(rows: seq<SysUserAuth>, keep: SysUserAuth -> bool): (r: seq<SysUserAuth>)
    ensures forall x :: x in r <==> x in rows && keep(x)
    ensures |r| <= |rows|
  {
    if rows == [] then []
    else (if keep(rows[0]) then [rows[0]] else []) + Where(rows[1..], keep)
  }

  /** `eq(SysUserAuth::getIdentifier, account)`: a NULL identifier matches nothing. */
  function RowsWithIdentifier(t: UserTables, account: string): seq<SysUserAuth>
  {
    Where(t.auths, (a: SysUserAuth) => a.identifier == Some(account))
  }

  /** `eq(SysUserAuth::getUserId, userId)` */
  function RowsOfUser(t: UserTables, userId: int): seq<SysUserAuth>
  {
    Where(t.auths, (a: SysUserAuth) => a.userId == userId)
  }

  /** MyBatis-Plus `getOne(wrapper)`: no row, the single row, or TooManyResultsException. */
  function SelectOne(rows: seq<SysUserAuth>): (r: Outcome<Option<SysUserAuth>>)
    ensures r == Ok(None) <==> rows == []
    ensures r.Ok? && r.value.Some? <==> |rows| == 1
    ensures r.Ok? && r.value.Some? ==> r.value.value == rows[0]
    ensures r.Thrown? <==> |rows| > 1
    ensures r.Thrown? ==> r.fault == TooManyResults
  {
    if rows == [] then Ok(None)
    else if |rows| == 1 then Ok(Some(rows[0]))
    else Thrown(TooManyResults)
  }

  /** `BeanUtils.copyProperties(sysUser, loginUser)` followed by `setSysUserAuth(auth)`. */
  function CopyUser(u: SysUser, auth: Option<SysUserAuth>): (d: LoginUserDetail)
    ensures d.id == u.id && d.userId == u.userId && d.username == u.username
    ensures d.avatar == u.avatar && d.status == u.status && d.sysUserAuth == auth
  {
    LoginUserDetail(u.id, u.userId, u.username, u.avatar, u.status, auth)
  }

  /**
   * `loadUserByAccount(account)`: empty for a blank account or when no auth row
   * has that identifier; otherwise the owner of the single matching row with
   * that row attached. The owner is not looked for first: a row whose user is
   * missing makes `copyProperties(null, ..)` throw IllegalArgumentException.
   */
  function LoadUserByAccount(t: UserTables, account: string): (r: Outcome<Option<LoginUserDetail>>)
    ensures r == Ok(None) <==> IsBlank(account) || RowsWithIdentifier(t, account) == []
    ensures r.Ok? && r.value.Some? ==>
              var rows := RowsWithIdentifier(t, account);
              && !IsBlank(account) && |rows| == 1 && rows[0].userId in t.users
              && r.value.value == CopyUser(t.users[rows[0].userId], Some(rows[0]))
    ensures r.Ok? && r.value.Some? ==> r.value.value.sysUserAuth.Some?
                                       && r.value.value.sysUserAuth.value.identifier == Some(account)
    ensures r.Thrown? ==>
              && !IsBlank(account)
              && ((|RowsWithIdentifier(t, account)| > 1 && r.fault == TooManyResults)
                  || (|RowsWithIdentifier(t, account)| == 1 && RowsWithIdentifier(t, account)[0].userId !in t.users
                      && r.fault.IllegalArgument?))
  {
    if IsBlank(account) then Ok(None)
    else
      match SelectOne(RowsWithIdentifier(t, account))
      case Thrown(f) => Thrown(f)
      case Ok(None) => Ok(None)
      case Ok(Some(auth)) =>
        assert auth in RowsWithIdentifier(t, account);
        if auth.userId !in t.users then Thrown(IllegalArgument("Source must not be null"))
        else Ok(Some(CopyUser(t.users[auth.userId], Some(auth))))
  }

  /**
   * `loadUserById(userId)`: empty for a null id or a missing user; otherwise
   * the user with the auth row of that user attached, which may be absent.
   */
  function LoadUserById(t: UserTables, userId: Option<int>): (r: Outcome<Option<LoginUserDetail>>)
    ensures r == Ok(None) <==> userId.None? || userId.value !in t.users
    ensures r.Ok? && r.value.Some? ==>
              && userId.Some? && userId.value in t.users && |RowsOfUser(t, userId.value)| <= 1
              && r.value.value == CopyUser(t.users[userId.value],
                                           if RowsOfUser(t, userId.value) == [] then None
                                           else Some(RowsOfUser(t, userId.value)[0]))
    ensures r.Thrown? <==> userId.Some? && userId.value in t.users && |RowsOfUser(t, userId.value)| > 1
  {
    if userId.None? || userId.value !in t.users then Ok(None)
    else
      match SelectOne(RowsOfUser(t, userId.value))
      case Thrown(f) => Thrown(f)
      case Ok(auth) => Ok(Some(CopyUser(t.users[userId.value], auth)))
  }

  /** A user loaded by id carries that id, and any attached auth row belongs to it. */
  lemma LoadedByIdHasId(t: UserTables, id: int)
    requires KeyedById(t)
    requires LoadUserById(t, Some(id)).Ok? && LoadUserById(t, Some(id)).value.Some?
    ensures var u := LoadUserById(t, Some(id)).value.value;
            u.id == id && (u.sysUserAuth.Some? ==> u.sysUserAuth.value.userId == id)
  {
    var rows := RowsOfUser(t, id);
    if rows != [] {
      assert rows[0] in rows;
    }
  }

  /** A user loaded by account owns the auth row that matched, so loading it by id gives the same record. */
  lemma ByAccountAgreesWithById(t: UserTables, account: string)
    requires KeyedById(t)
    requires LoadUserByAccount(t, account).Ok? && LoadUserByAccount(t, account).value.Some?
    requires |RowsOfUser(t, LoadUserByAccount(t, account).value.value.id)| == 1
    ensures var u := LoadUserByAccount(t, account).value.value;
            LoadUserById(t, Some(u.id)) == Ok(Some(u))
  {
    var rows := RowsWithIdentifier(t, account);
    var a := rows[0];
    assert a in rows;
    var own := RowsOfUser(t, a.userId);
    assert a in own;
    assert own[0] in own;
    assert |own| == 1;
    assert own == [a];
  }
}
