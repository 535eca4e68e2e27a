/**
 * `AuthContextHolder`: questions about the current user, asked of the
 * authentication held by the request's security context (`None` when the
 * context holds none).
 */
module AuthContext {
  import opened Common
  import opened Domain

  const NotLoggedInMessage: string := "当前用户未登录"
  const NoPermissionMessage: string := "无权限访问其他用户的数据"

  /**
   * `getCurrentUser()`: nobody for a missing, unauthenticated or anonymous
   * authentication; otherwise the principal if it is a `LoginUserDetail`,
   * else the details if they are one.
   */
  function GetCurrentUser(ctx: Option<Authentication>): (r: Option<LoginUserDetail>)
    ensures ctx.None? || !ctx.value.IsAuthenticated() || ctx.value.Anonymous? ==> r.None?
    ensures r.Some? <==> && ctx.Some? && ctx.value.IsAuthenticated() && !ctx.value.Anonymous?
                         && (ctx.value.Principal().UserObj? || ctx.value.Details().UserObj?)
    ensures r.Some? ==> (if ctx.value.Principal().UserObj? then r.value == ctx.value.Principal().user
                         else r.value == ctx.value.Details().user)
  {
    if ctx.None? || !ctx.value.IsAuthenticated() || ctx.value.Anonymous? then None
    else if ctx.value.Principal().UserObj? then Some(ctx.value.Principal().user)
    else if ctx.value.Details().UserObj? then Some(ctx.value.Details().user)
    else None
  }

  /** `isAuthenticated()`: somebody is the current user. */
  function IsAuthenticated(ctx: Option<Authentication>): (r: bool)
    ensures r <==> && ctx.Some? && ctx.value.IsAuthenticated() && !ctx.value.Anonymous?
                   && (ctx.value.Principal().UserObj? || ctx.value.Details().UserObj?)
  {
    GetCurrentUser(ctx).Some?
  }

  /** `getCurrentUserId()` */
  function GetCurrentUserId(ctx: Option<Authentication>): (r: Option<int>)
    ensures r.Some? <==> IsAuthenticated(ctx)
    ensures r.Some? ==> r.value == GetCurrentUser(ctx).value.id
  {
    if GetCurrentUser(ctx).Some? then Some(GetCurrentUser(ctx).value.id) else None
  }

  /** `getCurrentUserIdString()`: null also when the current user has no user id. */
  function GetCurrentUserIdString(ctx: Option<Authentication>): (r: Option<string>)
    ensures r.Some? ==> IsAuthenticated(ctx) && r == GetCurrentUser(ctx).value.userId
    ensures IsAuthenticated(ctx) ==> r == GetCurrentUser(ctx).value.userId
  {
    if GetCurrentUser(ctx).Some? then GetCurrentUser(ctx).value.userId else None
  }

  /** `getCurrentUsername()` */
  function GetCurrentUsername(ctx: Option<Authentication>): (r: Option<string>)
    ensures r.Some? ==> IsAuthenticated(ctx) && r == GetCurrentUser(ctx).value.username
    ensures IsAuthenticated(ctx) ==> r == GetCurrentUser(ctx).value.username
  {
    if GetCurrentUser(ctx).Some? then GetCurrentUser(ctx).value.username else None
  }

  /** `isCurrentUser(Long id)`: false for a null id; otherwise `Objects.equals(id, getCurrentUserId())`. */
  function IsCurrentUser(ctx: Option<Authentication>, id: Option<int>): (r: bool)
    ensures r <==> id.Some? && IsAuthenticated(ctx) && GetCurrentUser(ctx).value.id == id.value
  {
    id.Some? && GetCurrentUserId(ctx) == id
  }

  /** `isCurrentUser(String userId)`: false for a null or blank userId; otherwise compared with the current user's userId. */
  function IsCurrentUserIdString(ctx: Option<Authentication>, userId: Option<string>): (r: bool)
    ensures r <==> && userId.Some? && !IsBlank(userId.value) && IsAuthenticated(ctx)
                   && GetCurrentUser(ctx).value.userId == userId
  {
    userId.Some? && !IsBlank(userId.value) && GetCurrentUserIdString(ctx) == userId
  }

  /** `requireAuthenticated()`: the current user, or IllegalStateException when there is none. */
  function RequireAuthenticated(ctx: Option<Authentication>): (r: Outcome<LoginUserDetail>)
    ensures r.Thrown? <==> !IsAuthenticated(ctx)
    ensures r.Thrown? ==> r.fault == IllegalState(NotLoggedInMessage)
    ensures r.Ok? ==> Some(r.value) == GetCurrentUser(ctx)
  {
    match GetCurrentUser(ctx)
    case None => Thrown(IllegalState(NotLoggedInMessage))
    case Some(u) => Ok(u)
  }

  /** `requireCurrentUser(Long id)`: returns normally exactly when `id` is the current user's id. */
  function RequireCurrentUser(ctx: Option<Authentication>, id: Option<int>): (r: Outcome<()>)
    ensures r.Ok? <==> IsCurrentUser(ctx, id)
    ensures r.Thrown? ==> r.fault == IllegalState(NoPermissionMessage)
  {
    if IsCurrentUser(ctx, id) then Ok(()) else Thrown(IllegalState(NoPermissionMessage))
  }

  /** `requireCurrentUser(String userId)`: returns normally exactly when `userId` is the current user's userId. */
  function RequireCurrentUserIdString(ctx: Option<Authentication>, userId: Option<string>): (r: Outcome<()>)
    ensures r.Ok? <==> IsCurrentUserIdString(ctx, userId)
    ensures r.Thrown? ==> r.fault == IllegalState(NoPermissionMessage)
  {
    if IsCurrentUserIdString(ctx, userId) then Ok(()) else Thrown(IllegalState(NoPermissionMessage))
  }

  /** Nobody is logged in when the context is empty, so every check against a user fails. */
  lemma EmptyContextAdmitsNobody(id: Option<int>, userId: Option<string>)
    ensures !IsAuthenticated(None)
    ensures !IsCurrentUser(None, id) && !IsCurrentUserIdString(None, userId)
    ensures RequireAuthenticated(None) == Thrown(IllegalState(NotLoggedInMessage))
    ensures RequireCurrentUser(None, id).Thrown? && RequireCurrentUserIdString(None, userId).Thrown?
  {
  }

  /**
   * The authentication the login path and the token filter build for a user
   * makes that user the current user, and makes exactly that user's id and
   * (non-blank) user id pass the ownership checks.
   */
  lemma BoundUserIsCurrent(u: LoginUserDetail, id: Option<int>, userId: Option<string>)
    ensures GetCurrentUser(Some(AuthenticatedUser(u))) == Some(u)
    ensures IsCurrentUser(Some(AuthenticatedUser(u)), id) <==> id == Some(u.id)
    ensures IsCurrentUserIdString(Some(AuthenticatedUser(u)), userId)
            <==> userId.Some? && !IsBlank(userId.value) && userId == u.userId
  {
  }

  /** An anonymous authentication never yields a current user, whatever it holds. */
  lemma AnonymousIsNobody(principal: Obj, details: Obj)
    ensures GetCurrentUser(Some(Anonymous(principal, details))) == None
  {
  }
}
