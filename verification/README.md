# now-admin authentication core, modelled in Dafny

This project models the authentication core of now-admin, a Spring Boot
administration back end. Clients log in with a password, which the backend
turns into an RSA-signed JWT access token and refresh token. Every later
request carries the access token in an `Authorization: Bearer` header. A
servlet filter checks the token, loads the user and places that user in
the request's security context. The pieces modelled are:

- `SmsCodeService`: the SMS verification-code store (`sms_code.dfy`). It is a class over three
  phone-keyed maps (code, expiry, last send). Sends are rate-limited to one a minute. A code
  lives five minutes and can be used once.
- `JwtAuthenticationFilter`: the per-request token filter (`jwt_filter.dfy`). It is a class whose
  `context` field is the request's security context. The method is proved against a pure
  decision function, and it leaves `context` empty on every exit.
- `TokenService`: token minting, parsing, expiry, refresh and user-id extraction (`tokens.dfy`).
  jjwt is abstracted as a `sign` function and a `parse` function.
- `SecretKeyConfig`: where the RSA key pair comes from (`secret_keys.dfy`). The order is
  environment, then key files, then configuration; a reload reads the files only. It is a class
  with the four key fields, and the model shows that a failed update can leave them inconsistent.
- `CustomAuthenticationProvider`: credential dispatch and the password check (`auth_provider.dfy`).
- `AuthServiceImpl`: user loading over the `sys_user` / `sys_user_auth` tables (`auth_users.dfy`)
  and the login flow that issues the two tokens (`auth_login.dfy`).
- `AuthContextHolder`: current-user queries over the context's authentication (`auth_context.dfy`).
- `OperateLogAspect`: the method-name classifier (`operate_log.dfy`).
- `AuthTypeEnum`: the `fromCode` lookup (`auth_type.dfy`).
- `Result`: the response envelope (`envelope.dfy`).

`common.dfy` and `domain.dfy` hold what the modules share:

- a Java null is an `Option`;
- a call that may throw returns an `Outcome`, with the exception class as a `Fault`;
- the `String.trim`, `isBlank` and `StringUtils.hasText` predicates;
- the records and `Authentication` objects.

Clocks and random digits are parameters: `now` is a millisecond instant, and `draws` are the
values `Random.nextInt(10)` returns. The database tables, the environment and the file system
are maps. RSA key parsing, the password encoder and jjwt are function values supplied by the caller.

`loadUserByAccount` does not check that the owner of the matching auth row exists. In that case
`BeanUtils.copyProperties(null, loginUser)` throws `IllegalArgumentException`, so
`AuthUsers.LoadUserByAccount` throws.

## Model

| member | source | states |
|---|---|---|
| SmsCode.IsValidPhoneNumber | src/main/java/com/now/admin/service/auth/service/SmsCodeService.java:147-153 | a phone is accepted iff it is non-null, 11 ASCII digits, starts with 1, and has a second digit from 3 to 9; null and "" are refused |
| SmsCode.SmsCodeService.GenerateCode | src/main/java/com/now/admin/service/auth/service/SmsCodeService.java:135-141 | the loop appends one digit per draw: the code is the six draws as digits, so it satisfies the `^\d{6}$` login pattern |
| SmsCode.Send | src/main/java/com/now/admin/service/auth/service/SmsCodeService.java:57-85 | throws IllegalArgumentException iff the phone is invalid or the last send was under 60000 ms ago, and changes nothing then; otherwise it returns the code and sets code, now+300000 and now for that phone only |
| SmsCode.Verify | src/main/java/com/now/admin/service/auth/service/SmsCodeService.java:94-130 | true iff phone and code are non-null, a code and expiry are stored, now <= expiry and the codes are equal; true removes code and expiry; a stored expired code gives false and removes code and expiry; every other false changes nothing |
| SmsCode.SmsCodeService.SendSmsCode | src/main/java/com/now/admin/service/auth/service/SmsCodeService.java:57-85 | the three map fields and the result are exactly those of `Send` on the old maps with the generated code; the store invariant is kept |
| SmsCode.SmsCodeService.VerifySmsCode | src/main/java/com/now/admin/service/auth/service/SmsCodeService.java:94-130 | the three map fields and the answer are exactly those of `Verify` on the old maps; the store invariant is kept |
| SmsCode.SendPreservesInvariant | src/main/java/com/now/admin/service/auth/service/SmsCodeService.java:72-77 | a send keeps the store invariant: codes and expiries share keys, each code is six digits, expiry = send time + 300000, and only valid phones are keys |
| SmsCode.VerifyPreservesInvariant | src/main/java/com/now/admin/service/auth/service/SmsCodeService.java:109-129 | a verification keeps the store invariant |
| SmsCode.VerifyIsSingleUse | src/main/java/com/now/admin/service/auth/service/SmsCodeService.java:118-124 | after an accepted code, no code for that phone is accepted again until the next send |
| SmsCode.WrongCodeAllowsRetry | src/main/java/com/now/admin/service/auth/service/SmsCodeService.java:118-129 | a wrong code leaves the store unchanged, and the right code is still accepted up to the expiry |
| SmsCode.SendThenVerify | src/main/java/com/now/admin/service/auth/service/SmsCodeService.java:72-124 | the code of a successful send at `now` is accepted at instant t iff t <= now + 300000 |
| SmsCode.DecimalString | src/main/java/com/now/admin/service/auth/service/SmsCodeService.java:68 | the wait in seconds is written as the decimal digits of its value, without leading zeros |
| SmsCode.ResendInterval | src/main/java/com/now/admin/service/auth/service/SmsCodeService.java:64-77 | after a send at `now`, another send to that phone succeeds iff it comes at now + 60000 or later |
| JwtFilter.FailureResponse | src/main/java/com/now/admin/service/auth/common/security/JwtAuthenticationFilter.java:121-130 | a failure is written with HTTP status 200 and a `Result` carrying the code and message and a null payload |
| JwtFilter.CatchResponse | src/main/java/com/now/admin/service/auth/common/security/JwtAuthenticationFilter.java:106-111 | an AuthenticateException keeps its own code and message; any other exception becomes 401 "Token验证失败" |
| JwtFilter.BearerToken | src/main/java/com/now/admin/service/auth/common/security/JwtAuthenticationFilter.java:71 | the token is what follows "Bearer ": putting the prefix back gives the header |
| JwtFilter.ChainExit | src/main/java/com/now/admin/service/auth/common/security/JwtAuthenticationFilter.java:105-111 | the chain runs with the given context; the request leaves without a failure body iff the chain does not throw, and a throw is mapped as the catch clauses say |
| JwtFilter.Decide | src/main/java/com/now/admin/service/auth/common/security/JwtAuthenticationFilter.java:58-116 | without a Bearer header the chain runs with the prior context; a Bearer request reaches the chain iff the token is valid, carries a user id and that user loads, and then the chain sees that user bound in the context; a throw gives the mapped failure body, an expired token 401 "Token无效", a missing user id 401 "无法获取用户信息", an unknown user 401 "用户不存在" |
| JwtFilter.JwtAuthenticationFilter.DoFilterInternal | src/main/java/com/now/admin/service/auth/common/security/JwtAuthenticationFilter.java:58-116 | the exit is `Decide` on the context the request arrived with, and `context` is empty afterwards on every path |
| JwtFilter.PassThrough | src/main/java/com/now/admin/service/auth/common/security/JwtAuthenticationFilter.java:66-69 | a null, blank or non-Bearer header passes the request on with the context unchanged, and no failure is written unless the chain throws |
| JwtFilter.RejectedTokenStopsRequest | src/main/java/com/now/admin/service/auth/common/security/JwtAuthenticationFilter.java:74-108 | a token jjwt rejects never reaches the chain; the failure carries the mapped code, which is 407 iff the token expired |
| JwtFilter.ExpiredClaimsRejected | src/main/java/com/now/admin/service/auth/common/security/JwtAuthenticationFilter.java:74-78 | a token that parses but is past its expiration gets 401 "Token无效" and the chain does not run |
| JwtFilter.ChainSeesTokenUser | src/main/java/com/now/admin/service/auth/common/security/JwtAuthenticationFilter.java:81-105 | when a Bearer request reaches the chain, the current user in the context it sees has the id in the token's `userId` claim |
| JwtFilter.IssuedTokenAdmitsUser | src/main/java/com/now/admin/service/auth/common/security/JwtAuthenticationFilter.java:58-105 | an access token minted for a stored user, presented before it expires, reaches the chain with that user as the current user |
| Tokens.BuildClaims | src/main/java/com/now/admin/service/auth/service/impl/TokenService.java:41-58 | the claims carry iat = now, exp = now + ttl, a Long `userId` claim iff the id is non-null, and nothing besides `userId` and `created` |
| Tokens.GenerateToken | src/main/java/com/now/admin/service/auth/service/impl/TokenService.java:41-46 | the token is the private-key signature of the claims for the id with a 7-day lifetime; read back by jjwt it yields that id and validates exactly until now + 7 days, in whole seconds |
| Tokens.GenerateRefreshToken | src/main/java/com/now/admin/service/auth/service/impl/TokenService.java:53-58 | the token is the private-key signature of the claims for the id with a 30-day lifetime; read back by jjwt it yields that id and validates exactly until now + 30 days, in whole seconds |
| Tokens.TokenLifetimes | src/main/java/com/now/admin/service/auth/service/impl/TokenService.java:41-84 | an access token expires 604800000 ms (7 days) after issue, a refresh token 2592000000 ms (30 days) after |
| Tokens.RefreshOutlivesAccess | src/main/java/com/now/admin/service/auth/service/impl/TokenService.java:53-84 | read back with whole-second dates, a refresh token issued with an access token expires exactly 23 days after it |
| Tokens.FaultOf | src/main/java/com/now/admin/service/auth/service/impl/TokenService.java:143-151 | every jjwt failure becomes an AuthenticateException; its code is 407 "Token已过期" iff the token expired, and 401 otherwise |
| Tokens.GetClaimsFromToken | src/main/java/com/now/admin/service/auth/service/impl/TokenService.java:136-152 | the claims jjwt verifies with the public key, or the mapped exception |
| Tokens.IsTokenExpired | src/main/java/com/now/admin/service/auth/service/impl/TokenService.java:120-124 | expired iff the expiration is strictly before now; a missing expiration is dereferenced (NullPointerException) |
| Tokens.ValidateToken | src/main/java/com/now/admin/service/auth/service/impl/TokenService.java:98-101 | true iff the token parses, has an expiration and is not expired; a parsed expired token is false; a missing expiration throws NullPointerException; a parse failure throws the mapped exception and never yields false |
| Tokens.UserIdOf | src/main/java/com/now/admin/service/auth/service/impl/TokenService.java:171-175 | an Integer claim n or a Long claim n gives n, a missing claim gives null, and a Date or other value throws ClassCastException |
| Tokens.GetUserIdFromToken | src/main/java/com/now/admin/service/auth/service/impl/TokenService.java:169-176 | the mapped exception for a failed parse, otherwise the `userId` claim as read by `UserIdOf` |
| Tokens.ValidateTokenFor | src/main/java/com/now/admin/service/auth/service/impl/TokenService.java:109-113 | true iff the token's user id equals the given one (null equals null) and the token is not expired; a different id, or an equal id on an expired token, is false; a failure reading the id or the expiry is rethrown |
| Tokens.RefreshToken | src/main/java/com/now/admin/service/auth/service/impl/TokenService.java:65-75 | an expired token, or one without a user id, gives nothing; an unexpired token with user id u gives a new access token for u issued now, and every new token is one; a failure to read the expiry is rethrown |
| Tokens.UserIdRoundTrip | src/main/java/com/now/admin/service/auth/service/impl/TokenService.java:169-176 | the user id read from a freshly signed token is the id it was issued for, whether JSON made it an Integer or a Long |
| Tokens.ValidUntilExpiration | src/main/java/com/now/admin/service/auth/service/impl/TokenService.java:98-124 | a signed token validates exactly until its whole-second expiration |
| Tokens.RefreshIssuesAccessToken | src/main/java/com/now/admin/service/auth/service/impl/TokenService.java:65-75 | an unexpired refresh token yields a new access token for the same user, issued now |
| SecretKeys.LoadKeyFromFile | src/main/java/com/now/admin/common/config/SecretKeyConfig.java:126-132 | an existing file gives its trimmed contents; a missing one throws IOException |
| SecretKeys.Populate | src/main/java/com/now/admin/common/config/SecretKeyConfig.java:155-160 | the two strings are always replaced; it succeeds iff both keys parse, leaving a consistent pair; a bad private key keeps both old key objects; a bad public key keeps only the old public key |
| SecretKeys.InitFromConfig | src/main/java/com/now/admin/common/config/SecretKeyConfig.java:109-119 | an empty configured private key throws "密钥加载失败: ❌ 无法加载RSA密钥对，请检查配置！" and changes nothing; otherwise the configured pair is installed, and it succeeds iff both keys parse |
| SecretKeys.Initialize | src/main/java/com/now/admin/common/config/SecretKeyConfig.java:81-121 | start-up either leaves a consistent key pair or throws "密钥加载失败: ..."; with both environment variables the environment pair is installed; else two readable files whose keys parse install the trimmed file contents; else a non-empty configured private key installs the configured pair |
| SecretKeys.Reload | src/main/java/com/now/admin/common/config/SecretKeyConfig.java:138-153 | with files disabled it changes nothing and refuses; a missing file changes nothing and throws "密钥热更新失败: ..."; with both files present the trimmed file contents are installed, and it succeeds iff both keys parse, leaving a consistent pair; every failure is an InnerCommonException |
| SecretKeys.EnvironmentTakesPrecedence | src/main/java/com/now/admin/common/config/SecretKeyConfig.java:86-93 | with both environment variables set, files and configuration do not matter |
| SecretKeys.HalfEnvironmentIgnored | src/main/java/com/now/admin/common/config/SecretKeyConfig.java:89 | a single environment variable is ignored |
| SecretKeys.FilesOnlyWhenEnabled | src/main/java/com/now/admin/common/config/SecretKeyConfig.java:96 | the key files are read only when external files are enabled |
| SecretKeys.FileFailureFallsBackToConfig | src/main/java/com/now/admin/common/config/SecretKeyConfig.java:96-113 | a missing key file falls through to the configured pair on the untouched fields |
| SecretKeys.BadFileKeyFallsBackToConfig | src/main/java/com/now/admin/common/config/SecretKeyConfig.java:96-113 | two readable files whose keys do not both parse fall through to the configured pair, but on the fields the file attempt already changed; with no configured key the file strings stay installed |
| SecretKeys.NoSourceIsFatal | src/main/java/com/now/admin/common/config/SecretKeyConfig.java:109-119 | with no usable source, start-up fails with "密钥加载失败: ❌ 无法加载RSA密钥对，请检查配置！" |
| SecretKeys.ReloadReadsFilesOnly | src/main/java/com/now/admin/common/config/SecretKeyConfig.java:138-153 | a reload does not depend on the configured pair |
| SecretKeys.FailedReloadTearsKeyPair | src/main/java/com/now/admin/common/config/SecretKeyConfig.java:138-160 | a reload whose public key fails to parse throws, yet leaves the new strings and the new private key beside the old public key: the update is not atomic |
| SecretKeys.SecretKeyConfig.PopulateKeys | src/main/java/com/now/admin/common/config/SecretKeyConfig.java:155-160 | the four fields and the outcome are exactly those of `Populate` on the old fields |
| SecretKeys.SecretKeyConfig.Init | src/main/java/com/now/admin/common/config/SecretKeyConfig.java:81-121 | the four fields and the outcome are exactly those of `Initialize` on the old fields |
| SecretKeys.SecretKeyConfig.ReloadKeys | src/main/java/com/now/admin/common/config/SecretKeyConfig.java:138-153 | the four fields and the outcome are exactly those of `Reload` on the old fields |
| AuthUsers.SelectOne | src/main/java/com/now/admin/service/auth/service/impl/AuthServiceImpl.java:83-84 | `getOne`: no row gives null, one row gives that row, and more rows throw |
| AuthUsers.LoadUserByAccount | src/main/java/com/now/admin/service/auth/service/impl/AuthServiceImpl.java:77-96 | empty iff the account is blank or no auth row has it as identifier; otherwise the owner of the single row, with that row attached; a missing owner or several rows throw |
| AuthUsers.LoadUserById | src/main/java/com/now/admin/service/auth/service/impl/AuthServiceImpl.java:99-119 | empty iff the id is null or no user has it; otherwise that user with its auth row attached, which may be absent; several auth rows throw |
| AuthUsers.LoadedByIdHasId | src/main/java/com/now/admin/service/auth/service/impl/AuthServiceImpl.java:105-118 | a user loaded by id carries that id, and its attached auth row belongs to it |
| AuthUsers.ByAccountAgreesWithById | src/main/java/com/now/admin/service/auth/service/impl/AuthServiceImpl.java:77-119 | a user with one auth row, loaded by account, is the same record as that user loaded by id |
| AuthProvider.ValueOf | src/main/java/com/now/admin/service/auth/common/security/CustomAuthenticationProvider.java:46-47 | `String.valueOf`: null becomes "null" and a string stays itself |
| AuthProvider.AuthenticateByPwd | src/main/java/com/now/admin/service/auth/common/security/CustomAuthenticationProvider.java:44-60 | succeeds iff the account loads and the encoder matches the secret against the stored credential; success is an authenticated token whose principal and details are the user; otherwise BadCredentialsException, or the loader's fault |
| AuthProvider.AuthenticateByPhoneCode | src/main/java/com/now/admin/service/auth/common/security/CustomAuthenticationProvider.java:62-64 | always null |
| AuthProvider.Authenticate | src/main/java/com/now/admin/service/auth/common/security/CustomAuthenticationProvider.java:35-42 | a username/password token takes the password path, a phone-code token the phone path, anything else throws UnsupportedOperationException |
| AuthProvider.Supports | src/main/java/com/now/admin/service/auth/common/security/CustomAuthenticationProvider.java:69-72 | true iff the class is one of the two token classes or a subclass |
| AuthProvider.SupportsAgreesWithDispatch | src/main/java/com/now/admin/service/auth/common/security/CustomAuthenticationProvider.java:35-72 | `supports` holds for a token's class iff `authenticate` does not reject that token as unsupported |
| AuthProvider.NullPrincipalIsTheStringNull | src/main/java/com/now/admin/service/auth/common/security/CustomAuthenticationProvider.java:46-47 | null account and secret are looked up and compared as the string "null" |
| AuthProvider.UnknownAccountRejected | src/main/java/com/now/admin/service/auth/common/security/CustomAuthenticationProvider.java:48-59 | an account with no auth row is refused with BadCredentialsException |
| AuthProvider.KnownAccountAcceptedIffMatch | src/main/java/com/now/admin/service/auth/common/security/CustomAuthenticationProvider.java:48-59 | a known account is accepted iff the encoder matches, with the user as principal and details; otherwise BadCredentialsException |
| AuthLogin.LoginToken | src/main/java/com/now/admin/service/auth/service/impl/AuthServiceImpl.java:46-57 | PASSWORD builds an unauthenticated username/password token and PHONE_CODE a phone-code token, with the account as principal and no details |
| AuthLogin.ManagerAuthenticate | src/main/java/com/now/admin/service/auth/service/impl/AuthServiceImpl.java:46-57 | the provider's result or exception; a null result becomes ProviderNotFoundException |
| AuthLogin.LoginResponse | src/main/java/com/now/admin/service/auth/service/impl/AuthServiceImpl.java:59-73 | an authenticated result whose details are a user gives {id, userId, access token and refresh token for the id}; null details or an unauthenticated result throw BadCredentialsException; other details fail the cast |
| AuthLogin.Authenticate | src/main/java/com/now/admin/service/auth/service/impl/AuthServiceImpl.java:42-74 | a null type throws; a phone-code login never succeeds; a success is a password login of a loaded, matching user with that user's tokens |
| AuthLogin.PasswordLoginSucceeds | src/main/java/com/now/admin/service/auth/service/impl/AuthServiceImpl.java:46-71 | a password login whose secret matches the stored credential returns the user's id, userId and the two tokens issued for the id |
| AuthLogin.PasswordLoginRejected | src/main/java/com/now/admin/service/auth/service/impl/AuthServiceImpl.java:46-50 | an unknown account or a non-matching secret throws BadCredentialsException |
| AuthContext.GetCurrentUser | src/main/java/com/now/admin/service/auth/common/util/AuthContextHolder.java:30-50 | nobody for a missing, unauthenticated or anonymous authentication; otherwise the principal if it is a user, else the details if they are one, else nobody |
| AuthContext.IsAuthenticated | src/main/java/com/now/admin/service/auth/common/util/AuthContextHolder.java:57-59 | true iff the context holds an authenticated, non-anonymous authentication whose principal or details is a user |
| AuthContext.GetCurrentUserId | src/main/java/com/now/admin/service/auth/common/util/AuthContextHolder.java:57-69 | an id iff somebody is authenticated, and then the current user's id |
| AuthContext.GetCurrentUserIdString | src/main/java/com/now/admin/service/auth/common/util/AuthContextHolder.java:76-79 | the current user's userId, null when nobody is authenticated |
| AuthContext.GetCurrentUsername | src/main/java/com/now/admin/service/auth/common/util/AuthContextHolder.java:86-89 | the current user's username, null when nobody is authenticated |
| AuthContext.IsCurrentUser | src/main/java/com/now/admin/service/auth/common/util/AuthContextHolder.java:97-103 | true iff the id is non-null, somebody is authenticated and the id is the current user's id |
| AuthContext.IsCurrentUserIdString | src/main/java/com/now/admin/service/auth/common/util/AuthContextHolder.java:111-117 | true iff the userId is non-null and non-blank, somebody is authenticated and it equals the current user's userId |
| AuthContext.RequireAuthenticated | src/main/java/com/now/admin/service/auth/common/util/AuthContextHolder.java:125-131 | throws IllegalStateException "当前用户未登录" iff nobody is authenticated, else returns the current user |
| AuthContext.RequireCurrentUser | src/main/java/com/now/admin/service/auth/common/util/AuthContextHolder.java:139-143 | returns iff the id is non-null and equals the current user's id; otherwise throws "无权限访问其他用户的数据" |
| AuthContext.RequireCurrentUserIdString | src/main/java/com/now/admin/service/auth/common/util/AuthContextHolder.java:151-155 | returns iff the userId is non-blank and equals the current user's userId; otherwise throws "无权限访问其他用户的数据" |
| AuthContext.EmptyContextAdmitsNobody | src/main/java/com/now/admin/service/auth/common/util/AuthContextHolder.java:30-131 | with an empty context nobody is authenticated and every ownership check fails |
| AuthContext.BoundUserIsCurrent | src/main/java/com/now/admin/service/auth/common/util/AuthContextHolder.java:38-117 | the authentication built for a user makes that user current, and only that user's id and non-blank userId pass the ownership checks |
| AuthContext.AnonymousIsNobody | src/main/java/com/now/admin/service/auth/common/util/AuthContextHolder.java:33-34 | an anonymous authentication yields nobody, whatever it holds |
| OperateLog.NeedLog | src/main/java/com/now/admin/common/aspect/OperateLogAspect.java:74-76 | true iff the method name starts with add, delete, update, query, export or import |
| OperateLog.OperateTypeOf | src/main/java/com/now/admin/common/aspect/OperateLogAspect.java:84-99 | the label of the first matching prefix in the order add, delete, update, query, export, import; "其他" iff none matches |
| OperateLog.NeedLogIffLabelled | src/main/java/com/now/admin/common/aspect/OperateLogAspect.java:74-99 | a method is logged iff its operation type is not "其他" |
| OperateLog.LogOperate | src/main/java/com/now/admin/common/aspect/OperateLogAspect.java:52-66 | skipped iff `needLog` refuses the method; otherwise it falls through and records nothing, and `Recorded` carries the label a record would get, never "其他" |
| AuthType.FirstWithCode | src/main/java/com/now/admin/common/constant/AuthTypeEnum.java:45-48 | the scan in declaration order: nothing iff no constant has the code, else the first that does |
| AuthType.FromCode | src/main/java/com/now/admin/common/constant/AuthTypeEnum.java:44-51 | succeeds iff some constant has the code, with that constant; otherwise IllegalArgumentException |
| AuthType.FromCodeOfCode | src/main/java/com/now/admin/common/constant/AuthTypeEnum.java:16-51 | every constant is found again from its own code |
| Envelope.NewResult | src/main/java/com/now/now_admin/common/domain/Result.java:27-31 | the constructor stores code, message and data unchanged |
| Envelope.SuccessWith | src/main/java/com/now/now_admin/common/domain/Result.java:46-48 | code 200, message "success", the given data |
| Envelope.SuccessEmpty | src/main/java/com/now/now_admin/common/domain/Result.java:56-58 | code 200, message "success", null data |
| Envelope.Fail | src/main/java/com/now/now_admin/common/domain/Result.java:68-70 | the given code and message, null data |
| Envelope.ClientFail | src/main/java/com/now/now_admin/common/domain/Result.java:78-80 | code 400, message "client_fail", null data |

## Left out

- Concurrency is not modelled. Every operation is modelled as one sequential step. This leaves out:
  - the check-then-act races across the three `ConcurrentHashMap`s of `SmsCodeService`;
  - the thread-local nature of `SecurityContextHolder`, which the filter models as one `context` field;
  - races between `reloadKeys` and token validation.
- RSA, Base64, JWT encoding and signature checking (`RsaUtil`, jjwt internals) are not part of this model. Key parsing, `sign` and `parse` are function values. jjwt's own expiry check is reflected only in that `parse` may report an expired token.
- The password encoder is a function value. The real bean is a `DelegatingPasswordEncoder` whose default id is "bcrypt", so BCrypt itself is not part of this model.
- AuthProvider.AuthenticateByPwd: the matcher is total, so the IllegalArgumentException that `DelegatingPasswordEncoder.matches` throws for a stored credential without an `{id}` prefix is not modelled.
- The database is two in-memory tables. SQL string comparison is exact equality here, so a case-insensitive column collation is not modelled.
- `Random`, `System.currentTimeMillis` and `new Date()` are parameters.
- Logging and JSON serialisation (`ObjectMapper`, the response writer) are left out. A failure body is the `Result` value that would be serialised.
- JwtFilter.JwtAuthenticationFilter.DoFilterInternal: does not model an IOException thrown while the failure body is written, and does not model the request and response objects.
- The platform field of `LoginUserParam` is not modelled, because the core never reads it.
- The no-argument `Result()` constructor (used by JSON deserialisation) is not modelled.
- AuthLogin.ManagerAuthenticate: models only the manager's answer when its single provider returns or throws. Event publishing, credential erasure and parent managers are not modelled.
- AuthProvider.ValueOf: `LoginUserDetail.toString()` is a parameter; the login flow never places a user in the principal it passes in.
- JwtFilter.FailureResponse: the filter imports `com.now.admin.common.domain.Result`, which is not part of this model; it is taken to be the same class as `com.now.now_admin.common.domain.Result`, whose `fail` is modelled.
- The `userId` of `SysUserAuth` is a plain integer, so an auth row whose `user_id` column is NULL cannot be represented.
- SecretKeys.LoadKeyFromFile: the file system is a map, so a file that exists but cannot be read (and the IOException message `Files.readAllBytes` would give) is not modelled; bytes are taken as characters, so the default-charset decoding of `new String(bytes)` is not modelled.
- Tokens.BuildClaims: `long` overflow of `now + ttl` is not modelled; integers are unbounded.
- The security configuration (path rules, session policy, bean wiring) is not part of this model. Neither are the controllers, the exception handler and the persistence services.
