/**
 * How the two halves of the system meet: what the client's request helper makes of the
 * replies the backend's handlers and middleware send, whether the list window the client
 * asks for is the one the backend serves, and whether the frontend's labels and menu
 * gates agree with the backend's role table.
 */
module Agreement {
  import opened Wrappers
  import opened Strings
  import opened Accounts
  import opened Middleware
  import opened Repository
  import opened AuthHandler
  import opened AdminHandler
  import opened ApiClient
  import Sidebar
  import Header

  /** The JSON body of the handlers' sendError: `{"success": false, "error": message}`. */
  function ErrorBody(message: string): JsValue
  {
    Obj([("success", Bool(false)), ("error", Str(message))])
  }

  /**
   * A handler's error reaches the client as "HTTP <status>": the body names its text
   * "error", while the client reads "message", so the handler's wording is never shown.
   */
  lemma HandlerErrorsShowStatusOnly(status: int, message: string)
    requires !(200 <= status <= 299)
    ensures Field(ErrorBody(message), "error") == Str(message)
    ensures Settle(Response(status, Some(ErrorBody(message)))) == Failure(Error(HttpStatusMessage(status)))
  {
    var fields := ErrorBody(message).fields;
    assert fields[0].0 == "success" && fields[1].0 == "error";
    LookupDistinct(fields);
    LookupMeaning(fields, "message");
    ErrorMessages(status, fields);
  }

  /**
   * The middleware answers 401 and 403 with http.Error's plain text, which is no JSON:
   * the client's parse fails and it shows its own fallback text.
   */
  lemma MiddlewareErrorsShowFallback(status: int)
    requires status == StatusUnauthorized || status == StatusForbidden
    ensures Settle(Response(status, None)) == Failure(Error(FallbackMessage))
  {
    ErrorMessages(status, []);
  }

  /** What DeleteUser puts on the wire: sendError's JSON, or a bare 204 with no body. */
  function DeleteResponse(reply: Reply<()>): Response
  {
    match reply
    case Fail(status, message) => Response(status, Some(ErrorBody(message)))
    case Ok(status, _) => Response(status, None)
  }

  /**
   * users.delete(id) against DeleteUser, on a router that maps /api/v1/users/{id} to it
   * (the shipped router mounts no administration route). A successful delete answers 204
   * with an empty body, which the client still parses, so the call rejects with a syntax
   * error although the user is gone; an unknown id rejects with "HTTP 404".
   */
  method ClientDeletesUser(repo: InMemoryUserRepository, userId: string) returns (outcome: Result<JsValue, Thrown>)
    modifies repo
    ensures userId in old(repo.users) ==>
      outcome == Failure(SyntaxError) &&
      repo.users == old(repo.users) - {old(repo.users)[userId].id, old(repo.users)[userId].email}
    ensures userId !in old(repo.users) ==>
      outcome == Failure(Error(HttpStatusMessage(StatusNotFound))) && repo.users == old(repo.users)
  {
    var reply := DeleteUser(repo, userId);
    if reply.Fail? {
      HandlerErrorsShowStatusOnly(reply.status, reply.message);
    }
    outcome := Settle(DeleteResponse(reply));
  }

  /** The offset and limit ListUsers parses from the query users.list writes, once the route reaches it. */
  lemma ListWindowReachesBackend(page: int, pageSize: int)
    ensures Atoi(QueryGet(RawQuery(ListPage(Users, Some(page), Some(pageSize)).endpoint), "offset"))
            == ClampInt64(PageOffset(page, pageSize))
    ensures Atoi(QueryGet(RawQuery(ListPage(Users, Some(page), Some(pageSize)).endpoint), "limit"))
            == ClampInt64(pageSize)
  {
    ListQuery(Users, page, pageSize);
    NumberRoundTrip(PageOffset(page, pageSize));
    NumberRoundTrip(pageSize);
  }

  /** A page number below 1 with a positive page size makes a negative offset. */
  lemma NegativeOffset(page: int, pageSize: int)
    requires page <= 0 && pageSize > 0
    ensures PageOffset(page, pageSize) < 0 && ClampInt64(PageOffset(page, pageSize)) < 0
  {
    assert (page - 1) * pageSize <= -pageSize by {
      assert (1 - page) * pageSize >= pageSize;
    }
  }

  /** A page number of 1 or more with a non-negative page size makes a non-negative offset. */
  lemma NonNegativeOffset(page: int, pageSize: int)
    requires page >= 1 && pageSize >= 0
    ensures PageOffset(page, pageSize) >= 0 && ClampInt64(PageOffset(page, pageSize)) >= 0
  {
  }

  /**
   * users.list(page, pageSize) against ListUsers, on a router that maps /api/v1/users to it:
   * the client's query read by the backend's handler. A page below 1 crashes the handler; a page of 1 or more is served,
   * and with a page size the backend accepts as it is, no more users come back than asked.
   */
  method ClientListsUsers(repo: InMemoryUserRepository, page: int, pageSize: int) returns (reply: ListReply)
    ensures page <= 0 && pageSize > 0 ==> reply == Panicked
    ensures page >= 1 && pageSize >= 0 ==> reply.Page? && reply.status == StatusOK
    ensures reply.Page? && 1 <= pageSize <= 100 ==> |reply.response.items| <= pageSize
    ensures reply.Page? ==> reply.response.total == |reply.response.items|
  {
    var call := ListPage(Users, Some(page), Some(pageSize));
    var query := RawQuery(call.endpoint);
    ListWindowReachesBackend(page, pageSize);
    if page <= 0 && pageSize > 0 {
      NegativeOffset(page, pageSize);
    }
    if page >= 1 && pageSize >= 0 {
      NonNegativeOffset(page, pageSize);
    }
    reply := ListUsers(repo, QueryGet(query, "offset"), QueryGet(query, "limit"));
  }

  /**
   * The header's labels against the administration screen's role catalogue: they agree
   * on every role but the analyst, which the header calls 本社アナリスト.
   */
  lemma LabelsAgree(r: Role)
    ensures r != Analyst <==> Header.GetRoleLabel(Some(RoleName(r))) == RoleLabel(r)
    ensures Header.GetRoleLabel(Some(RoleName(r))) != Header.UnknownLabel
  {
  }

  /** The sidebar's administration menu appears exactly for the users the backend lets manage users. */
  lemma AdminMenuMatchesUserManage(user: Sidebar.SessionUser)
    ensures Sidebar.IsAdmin(Some(user)) <==> Granted(user.role, UserManage)
  {
    var parsed := ParseRole(user.role);
    if parsed.Some? {
      Exclusivity(parsed.value);
    }
  }
}
