/**
 * The authentication and authorisation middleware (backend/pkg/auth/middleware.go):
 * where the credential comes from, the Bearer format check, and the 401/403 decisions.
 * The request context is modelled by the claims it carries, `Option<Claims>`.
 */
module Middleware {
  import opened Wrappers
  import opened Strings
  import opened Accounts

  /** What a valid access token carries (the registered JWT claims are not modelled). */
  datatype Claims = Claims(userId: string, email: string, name: string, role: string, locationId: string)

  /** Either the wrapped handler runs with the claims attached, or the request ends with an error. */
  datatype AuthOutcome =
    | Proceed(claims: Claims)
    | Reject(status: int, message: string)

  /** The outcome of the permission check placed in front of a handler. */
  datatype Gate = Next | Deny(status: int, message: string)

  const StatusUnauthorized := 401
  const StatusForbidden := 403

  /**
   * The Authorization header value that is checked: the header itself when it is
   * non-empty, otherwise "Bearer " and the value of the access_token cookie.
   * None means neither is there.
   */
  function CredentialHeader(header: string, cookie: Option<string>): (h: Option<string>)
    ensures header != "" ==> h == Some(header)
    ensures header == "" ==> (h.None? <==> cookie.None?)
  {
    if header != "" then Some(header)
    else if cookie.Some? then Some("Bearer " + cookie.value)
    else None
  }

  /** The token of a header that splits on single spaces into exactly "Bearer" and one more piece. */
  function ParseBearer(header: string): Option<string>
  {
    var parts := Split(header, ' ');
    if |parts| != 2 || parts[0] != "Bearer" then None else Some(parts[1])
  }

  /** A header is accepted exactly when it is "Bearer ", then a token without a space. */
  lemma BearerShape(header: string, token: string)
    ensures ParseBearer(header) == Some(token) <==> header == "Bearer " + token && ' ' !in token
  {
    if ParseBearer(header) == Some(token) {
      var parts := Split(header, ' ');
      SplitJoin(header, ' ');
      assert parts == ["Bearer", token];
      assert Join(parts, ' ') == "Bearer" + [' '] + token;
    }
    if header == "Bearer " + token && ' ' !in token {
      var parts := ["Bearer", token];
      assert "Bearer" + [' '] + token == "Bearer " + token;
      JoinSplit(parts, ' ');
    }
  }

  /** The three kinds of header the format check turns away. */
  lemma MalformedHeaders(t: string)
    ensures ParseBearer("bearer " + t) == None
    ensures ParseBearer("Bearer  " + t) == None
    ensures ' ' !in t ==> ParseBearer("Bearer a " + t) == None
  {
    forall token | true
      ensures ParseBearer("bearer " + t) != Some(token)
      ensures ParseBearer("Bearer  " + t) != Some(token)
      ensures ParseBearer("Bearer a " + t) != Some(token)
    {
      BearerShape("bearer " + t, token);
      BearerShape("Bearer  " + t, token);
      BearerShape("Bearer a " + t, token);
      if "Bearer  " + t == "Bearer " + token {
        assert token[0] == ("Bearer  " + t)[7] == ' ';
      }
      if "Bearer a " + t == "Bearer " + token {
        assert token[1] == ("Bearer a " + t)[8] == ' ';
      }
    }
  }

  /**
   * Authenticate: resolve the credential, check its format, validate the token with
   * `validate` (the JWT service), and on success pass the claims to the next handler.
   */
  function Authenticate(header: string, cookie: Option<string>, validate: string -> Option<Claims>): (r: AuthOutcome)
    ensures header == "" && cookie.None? ==> r == Reject(StatusUnauthorized, "Unauthorized")
    ensures r.Reject? ==> r.status == StatusUnauthorized
    ensures r.Proceed? <==>
      CredentialHeader(header, cookie).Some? &&
      ParseBearer(CredentialHeader(header, cookie).value).Some? &&
      validate(ParseBearer(CredentialHeader(header, cookie).value).value).Some?
    ensures r.Proceed? ==> Some(r.claims) == validate(ParseBearer(CredentialHeader(header, cookie).value).value)
  {
    match CredentialHeader(header, cookie)
    case None => Reject(StatusUnauthorized, "Unauthorized")
    case Some(h) =>
      match ParseBearer(h)
      case None => Reject(StatusUnauthorized, "Invalid authorization header")
      case Some(token) =>
        match validate(token)
        case None => Reject(StatusUnauthorized, "Invalid token")
        case Some(claims) => Proceed(claims)
  }

  /** A non-empty Authorization header is decisive: the cookie is never consulted. */
  lemma HeaderIgnoresCookie(header: string, c1: Option<string>, c2: Option<string>, validate: string -> Option<Claims>)
    requires header != ""
    ensures Authenticate(header, c1, validate) == Authenticate(header, c2, validate)
  {
  }

  /** A cookie value v is treated exactly like the header "Bearer " + v. */
  lemma CookieAsHeader(v: string, other: Option<string>, validate: string -> Option<Claims>)
    ensures Authenticate("", Some(v), validate) == Authenticate("Bearer " + v, other, validate)
  {
  }

  /** A well-formed header hands exactly its token to validation and passes on what that returns. */
  lemma {:induction false} TokenHandedOver(token: string, cookie: Option<string>, validate: string -> Option<Claims>)
    requires ' ' !in token
    ensures Authenticate("Bearer " + token, cookie, validate) ==
      match validate(token)
      case None => Reject(StatusUnauthorized, "Invalid token")
      case Some(c) => Proceed(c)
  {
    BearerShape("Bearer " + token, token);
  }

  /**
   * RequirePermission: without claims 401, with claims whose role lacks `perm` 403,
   * otherwise the next handler runs.
   */
  function RequirePermission(claims: Option<Claims>, perm: Permission): (g: Gate)
    ensures claims.None? ==> g == Deny(StatusUnauthorized, "Unauthorized")
    ensures claims.Some? && !Granted(claims.value.role, perm) ==> g == Deny(StatusForbidden, "Forbidden")
    ensures g == Next <==> claims.Some? && Granted(claims.value.role, perm)
  {
    if claims.None? then Deny(StatusUnauthorized, "Unauthorized")
    else if !Granted(claims.value.role, perm) then Deny(StatusForbidden, "Forbidden")
    else Next
  }

  /** Of all the claims, only the role decides the permission check. */
  lemma OnlyRoleMatters(a: Claims, b: Claims, perm: Permission)
    requires a.role == b.role
    ensures RequirePermission(Some(a), perm) == RequirePermission(Some(b), perm)
  {
  }

  /** A viewer is refused every write; a field operator may write inventory. */
  lemma RoleGates(c: Claims)
    ensures c.role == "VIEWER" ==> RequirePermission(Some(c), InventoryWrite) == Deny(StatusForbidden, "Forbidden")
    ensures c.role == "FIELD_OPERATOR" ==> RequirePermission(Some(c), InventoryWrite) == Next
  {
    assert RolePermissions(FieldOperator)[1] == InventoryWrite;
  }

  /** The user id of the request: "" when no claims are attached. */
  function GetUserIdFromContext(claims: Option<Claims>): (id: string)
    ensures claims.None? ==> id == ""
    ensures claims.Some? ==> id == claims.value.userId
  {
    if claims.None? then "" else claims.value.userId
  }

  /**
   * Behind Authenticate, the user id a handler reads from the context is the one the
   * validated token carries.
   */
  lemma AuthenticatedUserId(header: string, cookie: Option<string>, validate: string -> Option<Claims>)
    requires Authenticate(header, cookie, validate).Proceed?
    ensures CredentialHeader(header, cookie).Some?
    ensures ParseBearer(CredentialHeader(header, cookie).value).Some?
    ensures validate(ParseBearer(CredentialHeader(header, cookie).value).value).Some?
    ensures GetUserIdFromContext(Some(Authenticate(header, cookie, validate).claims)) ==
            validate(ParseBearer(CredentialHeader(header, cookie).value).value).value.userId
  {
  }
}
