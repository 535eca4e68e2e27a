/**
 * `JwtAuthenticationFilter.doFilterInternal`: read the `Authorization`
 * header, and for a `Bearer` token validate it, resolve its user and bind
 * that user in the security context before passing the request on; write
 * a failure envelope instead when any step says no or throws. Whatever
 * happens, the security context is cleared on the way out.
 *
 * The downstream filter chain is a parameter: given the authentication it
 * finds in the context, it either returns normally (`None`) or throws.
 */
module JwtFilter {
  import opened Common
  import opened Domain
  import opened Envelope
  import opened AuthUsers
  import opened AuthContext
  import opened Tokens

  const TokenPrefix: string := "Bearer "
  const InvalidTokenMessage: string := "Token无效"
  const NoUserIdMessage: string := "无法获取用户信息"
  const NoSuchUserMessage: string := "用户不存在"
  const VerificationFailedMessage: string := "Token验证失败"
  const HttpOk: int := 200

  /** The rest of the filter chain: the exception it throws, if any, given the authentication it sees. */
  type Downstream = Option<Authentication> -> Option<Fault>

  /** Whether `filterChain.doFilter` ran, and with what authentication in the context. */
  datatype ChainCall = NotCalled | Called(seen: Option<Authentication>)

  /** What `handleException` writes: an HTTP status and a `Result<String>` body. */
  datatype FailureBody = FailureBody(status: int, body: Result<string>)

  /** How a request leaves the filter. */
  datatype FilterExit = FilterExit(chain: ChainCall, failure: Option<FailureBody>)

  /** `handleException(response, code, message)`: status 200 and `Result.fail(code, message)`. */
  function FailureResponse(code: int, msg: string): (b: FailureBody)
    ensures b.status == HttpOk && b.body.code == code && b.body.msg == msg && b.body.data == None
  {
    FailureBody(HttpOk, Fail(code, msg))
  }

  /** The two catch clauses: an AuthenticateException keeps its code and message, anything else is 401. */
  function CatchResponse(f: Fault): (b: FailureBody)
    ensures f.Authenticate? ==> b == FailureResponse(f.code, f.msg)
    ensures !f.Authenticate? ==> b == FailureResponse(StatusUnauthorized, VerificationFailedMessage)
  {
    match f
    case Authenticate(code, msg) => FailureResponse(code, msg)
    case _ => FailureResponse(StatusUnauthorized, VerificationFailedMessage)
  }

  /** The header carries text and starts with "Bearer ". */
  predicate IsBearer(header: Option<string>)
  {
    HasText(header) && StartsWith(header.value, TokenPrefix)
  }

  /** `header.substring(TOKEN_PREFIX.length())`: the header with "Bearer " taken off the front. */
  function BearerToken(header: Option<string>): (token: string)
    requires IsBearer(header)
    ensures TokenPrefix + token == header.value
  {
    header.value[|TokenPrefix|..]
  }

  /** The exit of a call made with `chain` seeing `seen`: a throw from the chain is caught like any other. */
  function ChainExit(seen: Option<Authentication>, chain: Downstream): (e: FilterExit)
    ensures e.chain == Called(seen)
    ensures e.failure.None? <==> chain(seen).None?
    ensures e.failure.Some? ==> e.failure.value == CatchResponse(chain(seen).value)
  {
    FilterExit(Called(seen), if chain(seen).None? then None else Some(CatchResponse(chain(seen).value)))
  }

  /**
   * The specification of `doFilterInternal`, for a request arriving with
   * `prior` in the security context.
   */
  function Decide(prior: Option<Authentication>, header: Option<string>, tokens: TokenEnv, tables: UserTables,
                  now: int, chain: Downstream): (e: FilterExit)
    ensures !IsBearer(header) ==> e == ChainExit(prior, chain)
    ensures e.chain.NotCalled? ==> e.failure.Some?
    ensures e.failure.Some? ==> e.failure.value.status == HttpOk && e.failure.value.body.data == None
    ensures IsBearer(header) && e.chain.Called? ==>
              && ValidateToken(tokens, BearerToken(header), now) == Ok(true)
              && GetUserIdFromToken(tokens, BearerToken(header), now).Ok?
              && GetUserIdFromToken(tokens, BearerToken(header), now).value.Some?
              && var loaded := LoadUserById(tables, GetUserIdFromToken(tokens, BearerToken(header), now).value);
                 loaded.Ok? && loaded.value.Some? && e == ChainExit(Some(AuthenticatedUser(loaded.value.value)), chain)
    ensures IsBearer(header) && ValidateToken(tokens, BearerToken(header), now).Thrown?
            ==> e == FilterExit(NotCalled, Some(CatchResponse(ValidateToken(tokens, BearerToken(header), now).fault)))
    ensures IsBearer(header) && ValidateToken(tokens, BearerToken(header), now) == Ok(false)
            ==> e == FilterExit(NotCalled, Some(FailureResponse(StatusUnauthorized, InvalidTokenMessage)))
    ensures IsBearer(header) && ValidateToken(tokens, BearerToken(header), now) == Ok(true)
            && GetUserIdFromToken(tokens, BearerToken(header), now) == Ok(None)
            ==> e == FilterExit(NotCalled, Some(FailureResponse(StatusUnauthorized, NoUserIdMessage)))
    ensures IsBearer(header) && ValidateToken(tokens, BearerToken(header), now) == Ok(true)
            && GetUserIdFromToken(tokens, BearerToken(header), now).Ok?
            && GetUserIdFromToken(tokens, BearerToken(header), now).value.Some?
            ==> var loaded := LoadUserById(tables, GetUserIdFromToken(tokens, BearerToken(header), now).value);
                && (loaded == Ok(None)
                    ==> e == FilterExit(NotCalled, Some(FailureResponse(StatusUnauthorized, NoSuchUserMessage))))
                && (loaded.Ok? && loaded.value.Some?
                    ==> e == ChainExit(Some(AuthenticatedUser(loaded.value.value)), chain))
  {
    if !IsBearer(header) then ChainExit(prior, chain)
    else
      var token := BearerToken(header);
      match ValidateToken(tokens, token, now)
      case Thrown(f) => FilterExit(NotCalled, Some(CatchResponse(f)))
      case Ok(false) => FilterExit(NotCalled, Some(FailureResponse(StatusUnauthorized, InvalidTokenMessage)))
      case Ok(true) =>
        match GetUserIdFromToken(tokens, token, now)
        case Thrown(f) => FilterExit(NotCalled, Some(CatchResponse(f)))
        case Ok(None) => FilterExit(NotCalled, Some(FailureResponse(StatusUnauthorized, NoUserIdMessage)))
        case Ok(Some(id)) =>
          match LoadUserById(tables, Some(id))
          case Thrown(f) => FilterExit(NotCalled, Some(CatchResponse(f)))
          case Ok(None) => FilterExit(NotCalled, Some(FailureResponse(StatusUnauthorized, NoSuchUserMessage)))
          case Ok(Some(user)) => ChainExit(Some(AuthenticatedUser(user)), chain)
  }

  /**
   * The filter, holding the authentication of the security context of the
   * request being filtered, with the token service and the user tables it
   * consults.
   */
  class JwtAuthenticationFilter {
    const tokens: TokenEnv
    const tables: UserTables
    var context: Option<Authentication>

    constructor(tokens: TokenEnv, tables: UserTables)
      ensures this.tokens == tokens && this.tables == tables && context == None
    {
      this.tokens := tokens;
      this.tables := tables;
      context := None;
    }

    /**
     * `doFilterInternal(request, response, filterChain)` at instant `now`.
     * The try block either returns early with a failure body, or calls the
     * chain; a throw from anywhere inside it is caught and turned into a
     * failure body; the `finally` clears the context on every path.
     */
    method DoFilterInternal(header: Option<string>, now: int, chain: Downstream) returns (exit: FilterExit)
      modifies this
      ensures exit == Decide(old(context), header, tokens, tables, now, chain)
      ensures context == None
    {
      var call := NotCalled;
      var written: Option<FailureBody> := None;
      var caught: Option<Fault> := None;
      if !IsBearer(header) {
        call := Called(context);
        caught := chain(context);
      } else {
        var token := BearerToken(header);
        var valid := ValidateToken(tokens, token, now);
        if valid.Thrown? {
          caught := Some(valid.fault);
        } else if !valid.value {
          written := Some(FailureResponse(StatusUnauthorized, InvalidTokenMessage));
        } else {
          var userId := GetUserIdFromToken(tokens, token, now);
          if userId.Thrown? {
            caught := Some(userId.fault);
          } else if userId.value.None? {
            written := Some(FailureResponse(StatusUnauthorized, NoUserIdMessage));
          } else {
            var loaded := LoadUserById(tables, userId.value);
            if loaded.Thrown? {
              caught := Some(loaded.fault);
            } else if loaded.value.None? {
              written := Some(FailureResponse(StatusUnauthorized, NoSuchUserMessage));
            } else {
              context := Some(AuthenticatedUser(loaded.value.value));
              call := Called(context);
              caught := chain(context);
            }
          }
        }
      }
      if caught.Some? {
        written := Some(CatchResponse(caught.value));
      }
      context := None;
      exit := FilterExit(call, written);
    }
  }

  /** A request without a Bearer header goes down the chain with the context it arrived with. */
  lemma PassThrough(prior: Option<Authentication>, header: Option<string>, tokens: TokenEnv, tables: UserTables,
                    now: int, chain: Downstream)
    requires header.None? || IsBlank(header.value) || !StartsWith(header.value, TokenPrefix)
    ensures Decide(prior, header, tokens, tables, now, chain).chain == Called(prior)
    ensures Decide(prior, header, tokens, tables, now, chain).failure.None? <==> chain(prior).None?
  {
  }

  /**
   * A Bearer token that jjwt rejects never reaches the chain: the failure
   * carries the code of the mapped AuthenticateException, 407 exactly for an
   * expired token and 401 otherwise.
   */
  lemma RejectedTokenStopsRequest(prior: Option<Authentication>, header: Option<string>, tokens: TokenEnv,
                                  tables: UserTables, now: int, chain: Downstream)
    requires IsBearer(header)
    requires tokens.lib.parse(BearerToken(header), tokens.publicKey, now).ParseFailed?
    ensures var e := Decide(prior, header, tokens, tables, now, chain);
            var failure := tokens.lib.parse(BearerToken(header), tokens.publicKey, now).failure;
            && e.chain == NotCalled
            && e.failure == Some(FailureResponse(FaultOf(failure).code, FaultOf(failure).msg))
            && (e.failure.value.body.code == StatusTokenExpired <==> failure.ExpiredJwt?)
  {
  }

  /** A token that parses but has expired is answered with 401 "Token无效" and never reaches the chain. */
  lemma ExpiredClaimsRejected(prior: Option<Authentication>, header: Option<string>, tokens: TokenEnv,
                              tables: UserTables, now: int, chain: Downstream)
    requires IsBearer(header)
    requires var p := tokens.lib.parse(BearerToken(header), tokens.publicKey, now);
             p.Parsed? && p.claims.expiration.Some? && p.claims.expiration.value < now
    ensures Decide(prior, header, tokens, tables, now, chain)
         == FilterExit(NotCalled, Some(FailureResponse(StatusUnauthorized, InvalidTokenMessage)))
  {
  }

  /**
   * When the chain runs for a Bearer request, the context it sees makes the
   * user named by the token's `userId` claim the current user.
   */
  lemma ChainSeesTokenUser(prior: Option<Authentication>, header: Option<string>, tokens: TokenEnv,
                           tables: UserTables, now: int, chain: Downstream)
    requires KeyedById(tables)
    requires IsBearer(header)
    requires Decide(prior, header, tokens, tables, now, chain).chain.Called?
    ensures var seen := Decide(prior, header, tokens, tables, now, chain).chain.seen;
            && GetCurrentUser(seen).Some?
            && GetUserIdFromToken(tokens, BearerToken(header), now) == Ok(Some(GetCurrentUser(seen).value.id))
            && GetCurrentUserId(seen) == GetUserIdFromToken(tokens, BearerToken(header), now).value
  {
    var id := GetUserIdFromToken(tokens, BearerToken(header), now).value;
    var user := LoadUserById(tables, id).value.value;
    LoadedByIdHasId(tables, id.value);
    BoundUserIsCurrent(user, id, None);
  }

  /** A token minted for a stored user and read back intact lets the request through as that user. */
  lemma IssuedTokenAdmitsUser(prior: Option<Authentication>, tokens: TokenEnv, tables: UserTables,
                              id: int, issued: int, now: int, chain: Downstream)
    requires KeyedById(tables) && id in tables.users && |RowsOfUser(tables, id)| <= 1
    requires ReadsBack(tokens, GenerateToken(tokens, Some(id), issued), now, BuildClaims(Some(id), issued, Expiration))
    requires now <= WholeSeconds(issued + Expiration)
    ensures var e := Decide(prior, Some(TokenPrefix + GenerateToken(tokens, Some(id), issued)), tokens, tables, now, chain);
            && e.chain.Called? && GetCurrentUserId(e.chain.seen) == Some(id)
            && (e.failure.None? <==> chain(e.chain.seen).None?)
  {
    var token := GenerateToken(tokens, Some(id), issued);
    var header := Some(TokenPrefix + token);
    assert StartsWith(header.value, TokenPrefix);
    assert !IsBlank(header.value) by {
      assert header.value[0] == 'B';
    }
    assert BearerToken(header) == token;
    UserIdRoundTrip(tokens, Some(id), issued, Expiration, now);
    ValidUntilExpiration(tokens, Some(id), issued, Expiration, now);
    var user := LoadUserById(tables, Some(id)).value.value;
    LoadedByIdHasId(tables, id);
    BoundUserIsCurrent(user, Some(id), None);
  }
}
