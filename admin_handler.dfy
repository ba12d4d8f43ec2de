/**
 * The user and role administration handlers (backend/pkg/auth/admin_handler.go):
 * listing with limit clamping, creation, partial update, deletion, lookup, and the
 * fixed role catalogue.
 */
module AdminHandler {
  import opened Wrappers
  import opened Strings
  import opened Accounts
  import opened Repository
  import opened AuthHandler

  const MsgBadBody := "リクエストの解析に失敗しました"
  const MsgRequired := "メール、名前、パスワードは必須です"
  const MsgCreateFailed := "ユーザーの作成に失敗しました"
  const MsgEmailTaken := "このメールアドレスは既に使用されています"
  const MsgSaveFailed := "ユーザーの保存に失敗しました"
  const MsgNotFound := "ユーザーが見つかりません"
  const MsgLookupFailed := "ユーザーの取得に失敗しました"
  const MsgUpdateFailed := "ユーザーの更新に失敗しました"
  const MsgDeleteFailed := "ユーザーの削除に失敗しました"

  // ---------------------------------------------------------------------------
  // ListUsers
  // ---------------------------------------------------------------------------

  /** The page size ListUsers uses: 20 for a missing, unparsable or non-positive limit, at most 100. */
  function EffectiveLimit(parsed: int): (limit: int)
    ensures 1 <= limit <= 100
    ensures parsed <= 0 ==> limit == 20
    ensures parsed > 100 ==> limit == 100
    ensures 1 <= parsed <= 100 ==> limit == parsed
  {
    var limit := if parsed <= 0 then 20 else parsed;
    if limit > 100 then 100 else limit
  }

  datatype UserListResponse = UserListResponse(items: seq<UserDTO>, total: int)

  /** What ListUsers sends: a page, or nothing because the store's List panicked. */
  datatype ListReply = Page(status: int, response: UserListResponse) | Panicked

  /** The DTOs of the users a store view holds. */
  ghost function StoredDTOs(view: map<string, UserRecord>): set<UserDTO>
  {
    set u | u in view.Values :: ToDTO(u)
  }

  /**
   * ListUsers: read offset and limit from the query (each through strconv.Atoi with its
   * error ignored), clamp the limit, ask the store for that window, and answer with the
   * users' DTOs. Total counts the items on this page, not the users in the store.
   */
  method ListUsers(repo: InMemoryUserRepository, offsetParam: string, limitParam: string) returns (reply: ListReply)
    ensures Atoi(offsetParam) < 0 ==> reply == Panicked
    ensures Atoi(offsetParam) >= 0 ==> reply.Page? && reply.status == StatusOK
    ensures reply.Page? ==> reply.response.total == |reply.response.items|
    ensures reply.Page? ==>
      var offset, n, limit := Atoi(offsetParam), |repo.Ids()|, EffectiveLimit(Atoi(limitParam));
      |reply.response.items| == if n <= offset then 0 else if limit < n - offset then limit else n - offset
    ensures reply.Page? ==> forall i :: 0 <= i < |reply.response.items| ==>
      reply.response.items[i] in StoredDTOs(repo.View())
    ensures reply.Page? ==> forall i, j :: 0 <= i < j < |reply.response.items| ==>
      reply.response.items[i].id != reply.response.items[j].id
  {
    var offset := Atoi(offsetParam);
    var limit := Atoi(limitParam);
    if limit <= 0 {
      limit := 20;
    }
    if limit > 100 {
      limit := 100;
    }
    assert limit == EffectiveLimit(Atoi(limitParam));
    var listed := repo.List(offset, limit);
    if listed.Failure? {
      return Panicked;
    }
    var users := listed.value;
    var dtos: seq<UserDTO> := [];
    for i := 0 to |users|
      invariant |dtos| == i
      invariant forall j :: 0 <= j < i ==> dtos[j] == ToDTO(users[j])
    {
      dtos := dtos + [ToDTO(users[i])];
    }
    forall i | 0 <= i < |dtos| ensures dtos[i] in StoredDTOs(repo.View()) {
      assert users[i] in repo.View().Values;
    }
    return Page(StatusOK, UserListResponse(dtos, |dtos|));
  }

  // ---------------------------------------------------------------------------
  // CreateUser
  // ---------------------------------------------------------------------------

  datatype CreateUserRequest = CreateUserRequest(
    email: string, name: string, password: string, role: string, locationId: Option<string>)

  /** The reply for a store error while saving: 409 for a taken email, 500 for anything else. */
  function SaveErrorReply(e: RepoError): (r: Reply<UserDTO>)
    ensures r.Fail?
    ensures r.status == StatusConflict <==> e == DuplicateEmail
    ensures e != DuplicateEmail ==> r.status == StatusInternalServerError
  {
    if e == DuplicateEmail then Fail(StatusConflict, MsgEmailTaken) else Fail(StatusInternalServerError, MsgSaveFailed)
  }

  /**
   * CreateUser: decode the body, require email, name and password, build the user
   * (`newId` is the drawn UUID, `hash` stands for bcrypt), attach the location and save.
   * Every failure leaves the store as it was; success files the new user under its id
   * and its email and answers 201.
   */
  method CreateUser(repo: InMemoryUserRepository, body: Option<CreateUserRequest>, newId: string,
                    hash: string -> Option<string>) returns (reply: Reply<UserDTO>)
    modifies repo
    ensures body.None? ==> reply == Fail(StatusBadRequest, MsgBadBody)
    ensures body.Some? && (body.value.email == "" || body.value.name == "" || body.value.password == "") ==>
      reply == Fail(StatusBadRequest, MsgRequired)
    ensures body.Some? && body.value.email != "" && body.value.name != "" && body.value.password != "" ==>
      var req := body.value;
      && (hash(req.password).None? ==> reply == Fail(StatusInternalServerError, MsgCreateFailed))
      && (hash(req.password).Some? && req.email in old(repo.users) ==> reply == Fail(StatusConflict, MsgEmailTaken))
      && (reply.Ok? <==> hash(req.password).Some? && req.email !in old(repo.users))
      && (reply.Ok? ==>
            reply == Ok(StatusCreated, UserDTO(newId, req.email, req.name, req.role, req.locationId, true)) &&
            repo.users.Keys == old(repo.users.Keys) + {newId, req.email} &&
            fresh(repo.users[req.email]) && repo.users[newId] == repo.users[req.email] &&
            repo.View() == old(repo.View())[newId := repo.View()[newId]][req.email := repo.View()[newId]] &&
            repo.View()[newId] == UserRecord(newId, req.email, req.name, hash(req.password).value, req.role, req.locationId, true))
    ensures reply.Fail? ==> repo.users == old(repo.users)
  {
    if body.None? {
      return Fail(StatusBadRequest, MsgBadBody);
    }
    var req := body.value;
    if req.email == "" || req.name == "" || req.password == "" {
      return Fail(StatusBadRequest, MsgRequired);
    }
    var user := NewUser(newId, req.email, req.name, req.password, req.role, hash);
    if user == null {
      return Fail(StatusInternalServerError, MsgCreateFailed);
    }
    user.locationId := req.locationId;
    var err := repo.Create(user);
    if err.Some? {
      return SaveErrorReply(err.value);
    }
    return Ok(StatusCreated, ToDTO(user.Snapshot()));
  }

  // ---------------------------------------------------------------------------
  // UpdateUser
  // ---------------------------------------------------------------------------

  /** The fields a partial update may carry; an absent field is left alone. */
  datatype UpdateUserRequest = UpdateUserRequest(
    name: Option<string>, email: Option<string>, role: Option<string>,
    locationId: Option<string>, isActive: Option<bool>)

  function Pick<T>(given: Option<T>, current: T): T
  {
    if given.Some? then given.value else current
  }

  /** The user after a partial update: every field the request carries replaces the stored one. */
  function Merge(u: UserRecord, req: UpdateUserRequest): (m: UserRecord)
  {
    UserRecord(u.id, Pick(req.email, u.email), Pick(req.name, u.name), u.passwordHash,
               Pick(req.role, u.role), if req.locationId.Some? then req.locationId else u.locationId,
               Pick(req.isActive, u.isActive))
  }

  /**
   * Exactly the fields present are overwritten: id and password hash never change, an
   * absent field keeps its value, and a location cannot be cleared by an update.
   */
  lemma MergeOverwritesPresentFields(u: UserRecord, req: UpdateUserRequest)
    ensures Merge(u, req).id == u.id && Merge(u, req).passwordHash == u.passwordHash
    ensures Merge(u, req).name == (if req.name.Some? then req.name.value else u.name)
    ensures Merge(u, req).email == (if req.email.Some? then req.email.value else u.email)
    ensures Merge(u, req).role == (if req.role.Some? then req.role.value else u.role)
    ensures Merge(u, req).isActive == (if req.isActive.Some? then req.isActive.value else u.isActive)
    ensures u.locationId.Some? ==> Merge(u, req).locationId.Some?
    ensures req == UpdateUserRequest(None, None, None, None, None) ==> Merge(u, req) == u
  {
  }

  /** Sending the same update twice changes nothing the first did not. */
  lemma MergeIdempotent(u: UserRecord, req: UpdateUserRequest)
    ensures Merge(Merge(u, req), req) == Merge(u, req)
  {
  }

  /** The field assignments of UpdateUser, made on the fetched object itself. */
  method ApplyUpdate(user: User, req: UpdateUserRequest)
    modifies user
    ensures user.Snapshot() == Merge(old(user.Snapshot()), req)
  {
    if req.name.Some? {
      user.name := req.name.value;
    }
    if req.email.Some? {
      user.email := req.email.value;
    }
    if req.role.Some? {
      user.role := req.role.value;
    }
    if req.locationId.Some? {
      user.locationId := req.locationId;
    }
    if req.isActive.Some? {
      user.isActive := req.isActive.value;
    }
  }

  /** The reply for a store error while looking a user up: 404 for a missing user, 500 otherwise. */
  function LookupErrorReply(e: RepoError): (r: Reply<UserDTO>)
    ensures r.Fail?
    ensures r.status == StatusNotFound <==> e == UserNotFound
    ensures e != UserNotFound ==> r.status == StatusInternalServerError
  {
    if e == UserNotFound then Fail(StatusNotFound, MsgNotFound) else Fail(StatusInternalServerError, MsgLookupFailed)
  }

  /**
   * UpdateUser: look the user up (by any key), then decode the body, then change the
   * fetched object's fields in place and hand it to the store's Update. The object is
   * shared by every key that reaches it, so all of them see the new fields at once; a
   * key for a former email stays, and a new email that already was a key is taken over.
   */
  method UpdateUser(repo: InMemoryUserRepository, userId: string, body: Option<UpdateUserRequest>)
    returns (reply: Reply<UserDTO>)
    modifies repo, repo.users.Values
    ensures userId !in old(repo.users) ==>
      reply == Fail(StatusNotFound, MsgNotFound) && repo.users == old(repo.users) && repo.View() == old(repo.View())
    ensures userId in old(repo.users) && body.None? ==>
      reply == Fail(StatusBadRequest, MsgBadBody) && repo.users == old(repo.users) && repo.View() == old(repo.View())
    ensures userId in old(repo.users) && body.Some? ==>
      var u := old(repo.users)[userId];
      var merged := Merge(old(u.Snapshot()), body.value);
      && u.Snapshot() == merged
      && (forall v :: v in old(repo.users.Values) && v != u ==> v.Snapshot() == old(v.Snapshot()))
      && (u.id in old(repo.users) ==>
            reply == Ok(StatusOK, ToDTO(merged)) && repo.users == old(repo.users)[u.id := u][merged.email := u])
      && (u.id !in old(repo.users) ==>
            reply == Fail(StatusInternalServerError, MsgUpdateFailed) && repo.users == old(repo.users))
  {
    var found := repo.GetByID(userId);
    if found.Failure? {
      return LookupErrorReply(found.error);
    }
    var user := found.value;
    if body.None? {
      return Fail(StatusBadRequest, MsgBadBody);
    }
    ApplyUpdate(user, body.value);
    var err := repo.Update(user);
    if err.Some? {
      return Fail(StatusInternalServerError, MsgUpdateFailed);
    }
    return Ok(StatusOK, ToDTO(user.Snapshot()));
  }

  // ---------------------------------------------------------------------------
  // DeleteUser and GetUser
  // ---------------------------------------------------------------------------

  /** DeleteUser: 404 for an unknown key, otherwise the user's id and email keys go and the reply is 204. */
  method DeleteUser(repo: InMemoryUserRepository, userId: string) returns (reply: Reply<()>)
    modifies repo
    ensures userId !in old(repo.users) ==> reply == Fail(StatusNotFound, MsgNotFound) && repo.users == old(repo.users)
    ensures userId in old(repo.users) ==>
      reply == Ok(StatusNoContent, ()) &&
      repo.users == old(repo.users) - {old(repo.users)[userId].id, old(repo.users)[userId].email}
  {
    var err := repo.Delete(userId);
    if err.Some? {
      if err.value == UserNotFound {
        return Fail(StatusNotFound, MsgNotFound);
      }
      return Fail(StatusInternalServerError, MsgDeleteFailed);
    }
    return Ok(StatusNoContent, ());
  }

  /** GetUser: the user under any key (an old email included), or 404. */
  method GetUser(repo: InMemoryUserRepository, userId: string) returns (reply: Reply<UserDTO>)
    ensures reply.Ok? <==> userId in repo.users
    ensures reply.Ok? ==> reply == Ok(StatusOK, ToDTO(repo.View()[userId]))
    ensures reply.Fail? ==> reply == Fail(StatusNotFound, MsgNotFound)
  {
    var found := repo.GetByID(userId);
    if found.Failure? {
      return LookupErrorReply(found.error);
    }
    return Ok(StatusOK, ToDTO(found.value.Snapshot()));
  }

  // ---------------------------------------------------------------------------
  // ListRoles
  // ---------------------------------------------------------------------------

  /** The backend's display label of each role (roleLabels). */
  function RoleLabel(r: Role): string
  {
    match r
    case SystemAdmin => "システム管理者"
    case InventoryManager => "在庫管理者"
    case FieldOperator => "現場担当者"
    case Analyst => "アナリスト"
    case Viewer => "閲覧者"
  }

  /** The description of each role (roleDescriptions). */
  function RoleDescription(r: Role): string
  {
    match r
    case SystemAdmin => "全機能へのフルアクセス。ユーザー・ロール管理、監査ログ閲覧を含む。"
    case InventoryManager => "在庫管理業務全般。マスタ編集、棚卸承認、レポート閲覧が可能。"
    case FieldOperator => "入出庫登録、棚卸入力など現場業務に必要な操作が可能。"
    case Analyst => "在庫データとレポートの参照・分析が可能。データ変更は不可。"
    case Viewer => "在庫情報とマスタの参照のみ可能。"
  }

  datatype RoleInfo = RoleInfo(role: string, roleLabel: string, description: string, permissions: seq<Permission>)

  /** The order in which ListRoles presents the roles. */
  const RoleOrder: seq<Role> := [SystemAdmin, InventoryManager, FieldOperator, Analyst, Viewer]

  /** Every role appears in the listing order exactly once. */
  lemma RoleOrderComplete(r: Role)
    ensures r in RoleOrder
    ensures forall i, j :: 0 <= i < j < |RoleOrder| ==> RoleOrder[i] != RoleOrder[j]
  {
    match r
    case SystemAdmin => assert RoleOrder[0] == r;
    case InventoryManager => assert RoleOrder[1] == r;
    case FieldOperator => assert RoleOrder[2] == r;
    case Analyst => assert RoleOrder[3] == r;
    case Viewer => assert RoleOrder[4] == r;
  }

  /** The backend labels are pairwise distinct. */
  lemma RoleLabelsDistinct(a: Role, b: Role)
    ensures RoleLabel(a) == RoleLabel(b) <==> a == b
  {
  }

  /** ListRoles: one entry per role, in the fixed order, each with its own row of the matrix. */
  method ListRoles() returns (result: seq<RoleInfo>)
    ensures |result| == |RoleOrder|
    ensures forall i :: 0 <= i < |result| ==>
      var r := RoleOrder[i];
      result[i] == RoleInfo(RoleName(r), RoleLabel(r), RoleDescription(r), RolePermissions(r))
    ensures forall i, j :: 0 <= i < j < |result| ==> result[i].role != result[j].role
  {
    result := [];
    for i := 0 to |RoleOrder|
      invariant |result| == i
      invariant forall j :: 0 <= j < i ==>
        var r := RoleOrder[j];
        result[j] == RoleInfo(RoleName(r), RoleLabel(r), RoleDescription(r), RolePermissions(r))
    {
      var role := RoleOrder[i];
      result := result + [RoleInfo(RoleName(role), RoleLabel(role), RoleDescription(role), RolePermissions(role))];
    }
    forall i, j | 0 <= i < j < |result| ensures result[i].role != result[j].role {
      RoleOrderComplete(RoleOrder[i]);
      RoleNameRoundTrip(RoleOrder[i]);
      RoleNameRoundTrip(RoleOrder[j]);
    }
  }

  // ---------------------------------------------------------------------------
  // Email change followed by deletion
  // ---------------------------------------------------------------------------

  /**
   * A fresh store, the administrator's email changed through UpdateUser, then the
   * administrator deleted through DeleteUser: both calls succeed, yet the key of the
   * seed email outlives the deletion and still reaches the user, now carrying the new
   * email. Login with the seed email therefore keeps working.
   */
  method EmailChangeThenDelete(adminId: string, adminHash: string, newEmail: string)
    returns (updated: Reply<UserDTO>, deleted: Reply<()>, survivor: Result<UserRecord, RepoError>)
    requires adminId != AdminEmail && newEmail != AdminEmail && newEmail != adminId
    ensures updated.Ok? && updated.value.email == newEmail
    ensures deleted == Ok(StatusNoContent, ())
    ensures survivor == Success(UserRecord(adminId, newEmail, AdminName, adminHash, RoleName(SystemAdmin), None, true))
  {
    var repo := new InMemoryUserRepository(adminId, adminHash);
    updated := UpdateUser(repo, adminId, Some(UpdateUserRequest(None, Some(newEmail), None, None, None)));
    deleted := DeleteUser(repo, adminId);
    var found := repo.GetByEmail(AdminEmail);
    if found.Success? {
      survivor := Success(found.value.Snapshot());
    } else {
      survivor := Failure(UserNotFound);
    }
  }
}
