/**
 * The login, logout, current-user and refresh handlers of the authentication package
 * (backend/pkg/auth/handler.go), as decisions over the request, the store's contents
 * and the external services. JSON decoding is represented by an `Option` body (None:
 * the body did not decode), bcrypt's comparison by `matches(hash, password)`, token
 * generation by `issue` (None: signing failed) and refresh-token validation by
 * `validateRefresh` (the user id it carries, or None).
 */
module AuthHandler {
  import opened Wrappers
  import opened Accounts
  import opened Middleware

  /** The user as responses show it: every stored field except the password hash. */
  datatype UserDTO = UserDTO(
    id: string,
    email: string,
    name: string,
    role: string,
    locationId: Option<string>,
    isActive: bool)

  function ToDTO(u: UserRecord): (d: UserDTO)
    ensures d.id == u.id && d.email == u.email && d.name == u.name
    ensures d.role == u.role && d.locationId == u.locationId && d.isActive == u.isActive
  {
    UserDTO(u.id, u.email, u.name, u.role, u.locationId, u.isActive)
  }

  /** Two users that differ only in their password hash look the same in every response. */
  lemma DTOHidesHash(a: UserRecord, b: UserRecord)
    ensures ToDTO(a) == ToDTO(b) <==> a.(passwordHash := b.passwordHash) == b
  {
  }

  /** A handler's reply: an error status with its message, or a status with a payload. */
  datatype Reply<+T> = Fail(status: int, message: string) | Ok(status: int, value: T)

  const StatusOK := 200
  const StatusCreated := 201
  const StatusNoContent := 204
  const StatusBadRequest := 400
  const StatusNotFound := 404
  const StatusConflict := 409
  const StatusInternalServerError := 500

  datatype TokenPair = TokenPair(accessToken: string, refreshToken: string, expiresAt: int)

  datatype Cookie = Cookie(name: string, value: string, path: string, maxAge: int)

  const RefreshCookiePath := "/api/v1/auth"
  const RefreshMaxAge := 7 * 24 * 60 * 60
  const AccessMaxAge := 15 * 60

  datatype LoginRequest = LoginRequest(email: string, password: string)

  datatype LoginResult = LoginResult(user: UserDTO, tokens: TokenPair, cookies: seq<Cookie>)

  /**
   * Login: decode the body, require both fields, look the email up, compare the
   * password, require an active account, issue tokens and set them as cookies.
   * An unknown email and a wrong password get the same reply.
   */
  function Login(body: Option<LoginRequest>, users: map<string, UserRecord>,
                 matches: (string, string) -> bool, issue: UserRecord -> Option<TokenPair>): (r: Reply<LoginResult>)
    ensures body.None? ==> r == Fail(StatusBadRequest, "Invalid request body")
    ensures body.Some? && (body.value.email == "" || body.value.password == "") ==>
      r == Fail(StatusBadRequest, "Email and password are required")
    ensures body.Some? && body.value.email != "" && body.value.password != "" ==>
      (body.value.email !in users || !matches(users[body.value.email].passwordHash, body.value.password) <==>
       r == Fail(StatusUnauthorized, "Invalid credentials"))
    ensures r == Fail(StatusForbidden, "Account is disabled") <==>
      body.Some? && body.value.email != "" && body.value.password != "" && body.value.email in users &&
      matches(users[body.value.email].passwordHash, body.value.password) && !users[body.value.email].isActive
    ensures r.Ok? <==>
      body.Some? && body.value.email != "" && body.value.password != "" && body.value.email in users &&
      matches(users[body.value.email].passwordHash, body.value.password) &&
      users[body.value.email].isActive && issue(users[body.value.email]).Some?
    ensures (body.Some? && body.value.email != "" && body.value.password != "" && body.value.email in users &&
             matches(users[body.value.email].passwordHash, body.value.password) &&
             users[body.value.email].isActive && issue(users[body.value.email]).None?) ==>
      r == Fail(StatusInternalServerError, "Internal server error")
    ensures r.Ok? ==>
      r.status == StatusOK && r.value.user == ToDTO(users[body.value.email]) &&
      Some(r.value.tokens) == issue(users[body.value.email])
    ensures r.Ok? ==>
      r.value.cookies == [Cookie("refresh_token", r.value.tokens.refreshToken, RefreshCookiePath, RefreshMaxAge),
                          Cookie("access_token", r.value.tokens.accessToken, "/", AccessMaxAge)]
  {
    if body.None? then Fail(StatusBadRequest, "Invalid request body")
    else
      var req := body.value;
      if req.email == "" || req.password == "" then Fail(StatusBadRequest, "Email and password are required")
      else if req.email !in users then Fail(StatusUnauthorized, "Invalid credentials")
      else
        var user := users[req.email];
        if !matches(user.passwordHash, req.password) then Fail(StatusUnauthorized, "Invalid credentials")
        else if !user.isActive then Fail(StatusForbidden, "Account is disabled")
        else match issue(user)
          case None => Fail(StatusInternalServerError, "Internal server error")
          case Some(tokens) =>
            Ok(StatusOK, LoginResult(ToDTO(user), tokens, [
              Cookie("refresh_token", tokens.refreshToken, RefreshCookiePath, RefreshMaxAge),
              Cookie("access_token", tokens.accessToken, "/", AccessMaxAge)]))
  }

  /**
   * A caller that does not know the password learns nothing about whether an email is
   * registered: both replies are the same.
   */
  lemma NoAccountProbing(email: string, password: string, users: map<string, UserRecord>,
                         matches: (string, string) -> bool, issue: UserRecord -> Option<TokenPair>)
    requires email != "" && password != ""
    requires email in users ==> !matches(users[email].passwordHash, password)
    ensures Login(Some(LoginRequest(email, password)), users, matches, issue) ==
            Login(Some(LoginRequest(email, password)), map[], matches, issue)
  {
  }

  /** Logout: both cookies are cleared; the reply is always a success. */
  function Logout(): (cookies: seq<Cookie>)
    ensures forall i :: 0 <= i < |cookies| ==> cookies[i].value == "" && cookies[i].maxAge < 0
    ensures |cookies| == 2 && cookies[0].name == "refresh_token" && cookies[1].name == "access_token"
    ensures cookies[0].path == RefreshCookiePath && cookies[1].path == "/"
  {
    [Cookie("refresh_token", "", RefreshCookiePath, -1), Cookie("access_token", "", "/", -1)]
  }

  /**
   * Logout clears the very cookies a successful login set: same names, same paths (a
   * browser drops a cookie only when both match), in the same order.
   */
  lemma LogoutClearsLoginCookies(body: Option<LoginRequest>, users: map<string, UserRecord>,
                                 matches: (string, string) -> bool, issue: UserRecord -> Option<TokenPair>)
    requires Login(body, users, matches, issue).Ok?
    ensures |Login(body, users, matches, issue).value.cookies| == |Logout()|
    ensures forall i :: 0 <= i < |Logout()| ==>
      Logout()[i].name == Login(body, users, matches, issue).value.cookies[i].name &&
      Logout()[i].path == Login(body, users, matches, issue).value.cookies[i].path &&
      Logout()[i].value == "" && Logout()[i].maxAge < 0
  {
  }

  /** Me: the user named by the request's claims. */
  function Me(claims: Option<Claims>, users: map<string, UserRecord>): (r: Reply<UserDTO>)
    ensures claims.None? ==> r == Fail(StatusUnauthorized, "Unauthorized")
    ensures claims.Some? && claims.value.userId !in users ==> r == Fail(StatusNotFound, "User not found")
    ensures r.Ok? <==> claims.Some? && claims.value.userId in users
    ensures r.Ok? ==> r == Ok(StatusOK, ToDTO(users[claims.value.userId]))
  {
    if claims.None? then Fail(StatusUnauthorized, "Unauthorized")
    else if claims.value.userId !in users then Fail(StatusNotFound, "User not found")
    else Ok(StatusOK, ToDTO(users[claims.value.userId]))
  }

  datatype RefreshResult = RefreshResult(accessToken: string, expiresAt: int, cookie: Cookie)

  /**
   * Refresh: a refresh_token cookie must be present and verify; the user it names must
   * exist (401 otherwise) and be active (403 otherwise) before a new access token is issued.
   */
  function Refresh(cookie: Option<string>, validateRefresh: string -> Option<string>,
                   users: map<string, UserRecord>, issue: UserRecord -> Option<TokenPair>): (r: Reply<RefreshResult>)
    ensures cookie.None? ==> r == Fail(StatusUnauthorized, "No refresh token")
    ensures cookie.Some? && validateRefresh(cookie.value).None? ==> r == Fail(StatusUnauthorized, "Invalid refresh token")
    ensures cookie.Some? && validateRefresh(cookie.value).Some? ==>
      var id := validateRefresh(cookie.value).value;
      && (id !in users ==> r == Fail(StatusUnauthorized, "User not found"))
      && (id in users && !users[id].isActive ==> r == Fail(StatusForbidden, "Account is disabled"))
      && (r.Ok? <==> id in users && users[id].isActive && issue(users[id]).Some?)
      && (id in users && users[id].isActive && issue(users[id]).None? ==>
            r == Fail(StatusInternalServerError, "Failed to generate tokens"))
      && (r.Ok? ==>
            r.status == StatusOK &&
            r.value.accessToken == issue(users[id]).value.accessToken &&
            r.value.expiresAt == issue(users[id]).value.expiresAt &&
            r.value.cookie == Cookie("access_token", r.value.accessToken, "/", AccessMaxAge))
  {
    if cookie.None? then Fail(StatusUnauthorized, "No refresh token")
    else match validateRefresh(cookie.value)
      case None => Fail(StatusUnauthorized, "Invalid refresh token")
      case Some(userId) =>
        if userId !in users then Fail(StatusUnauthorized, "User not found")
        else
          var user := users[userId];
          if !user.isActive then Fail(StatusForbidden, "Account is disabled")
          else match issue(user)
            case None => Fail(StatusInternalServerError, "Failed to generate tokens")
            case Some(tokens) =>
              Ok(StatusOK, RefreshResult(tokens.accessToken, tokens.expiresAt,
                Cookie("access_token", tokens.accessToken, "/", AccessMaxAge)))
  }
}
