# ZaiGo authentication, user administration and API client — a Dafny model

This project models the parts of the ZaiGo inventory system that have working logic: its
authentication and user-administration package, and the browser side that talks to it.

Backend:
- **Role–permission matrix.** Five roles (SYSTEM_ADMIN, INVENTORY_MANAGER, FIELD_OPERATOR,
  ANALYST, VIEWER), nine permissions, and the membership check `HasPermission`.
- **Middleware.** It finds the credential in the Authorization header or the `access_token`
  cookie and checks the Bearer format. It answers 401 or 403, or passes the claims on.
- **In-memory user store.** One map files every user twice, under its id and under its email.
  It holds references: both keys reach the same user object, and the administration
  handlers change that object in place. This is modelled as a Dafny class holding
  `map<string, User>`, where `User` is a class.
- **Handlers.** Login, logout, current user and token refresh. On the administration side:
  user listing with limit clamping, creation, partial update, deletion, lookup, and the role
  catalogue.

Frontend:
- **API client.** The shared `request` routine: method default, headers, credentials, when a
  body is sent, and how a response is settled or rejected. Also the URL and body builders of
  the auth, inventory, products, locations, stocktaking, lots, users and roles groups.
- **Sidebar.** Which entries are highlighted, when the administration menu appears, and the
  footer fallbacks.
- **Header.** The role label.

The module `Agreement` sets the two halves side by side. It shows:
- what the client shows for each kind of backend error;
- that the window `users.list` asks for is the one `ListUsers` would serve;
- that the sidebar's administration gate matches the `user:manage` permission;
- that the header's labels match the role catalogue on all roles but one.

The router in backend/cmd/api/main.go mounts none of the administration handlers, so as
shipped `users.list` and `users.delete` meet the router's plain-text 404 and reject with the
client's fallback text. The members `Agreement.ClientListsUsers`,
`Agreement.ClientDeletesUser` and `Agreement.ListWindowReachesBackend` describe a router
that maps `/api/v1/users` and `/api/v1/users/{id}` to `ListUsers` and `DeleteUser`.

External services are parameters:
- bcrypt is `hash: string -> Option<string>` (GenerateFromPassword, None on failure) and
  `matches(hash, password)` (CompareHashAndPassword).
- JWT validation is `validate` / `validateRefresh`, and token issuing is `issue`.
- UUIDs are drawn ids passed in (`newId`, `adminId`).
- A JSON body that does not decode is `None`.
- Go's map iteration order is a nondeterministic choice (`:|`).
- A Go slice expression that would panic is an explicit outcome (`SlicePanic`, `Panicked`).

Behaviour of the code that the model keeps and the proofs make visible:
- **Shared key space.** Ids and emails share the store's key space. `GetByID` finds a user by
  email and `GetByEmail` finds one by id.
- **Stale email key.** Changing a user's email through `UpdateUser` leaves the old email key
  in place, and it still reaches the same object. After a later `DeleteUser`, that stale key
  survives. `AdminHandler.EmailChangeThenDelete` shows this: the seeded administrator is still
  reachable under `admin@zaigo.local` after being deleted.
- **Update after deletion.** An update through such a stale key changes the object's fields
  before the store's `Update` fails with 500. So a failing request leaves a visible change
  behind, although the request is answered as an error.
- **Negative offset.** A negative `offset` reaches the slice expression in the store's `List`,
  and the handler panics. On a router that maps `/api/v1/users` to `ListUsers`, `users.list`
  with a page below 1 sends exactly such an offset (`Agreement.ClientListsUsers`).
- **`total` field.** `ListUsers` reports `total` as the size of the page, not the number of
  users.
- **Handler error text.** The handlers put their error text under `"error"`, but the client
  reads `"message"`. So every handler error reaches the user as `HTTP <status>`. The
  middleware's plain-text errors do not parse as JSON, so they reach the user as the fixed
  fallback text, and none of the handlers' own messages is ever shown.
- **Delete reply.** A successful delete answers 204 with no body. The client still parses the
  body, so on a router that maps `/api/v1/users/{id}` to `DeleteUser`, `users.delete`
  rejects with a syntax error.
- **ANALYST label.** The header labels ANALYST 本社アナリスト, while the role catalogue says
  アナリスト.

## Model

| member | source | states |
|---|---|---|
| Strings.Split | backend/pkg/auth/middleware.go:51 | strings.Split yields at least one piece, and no piece holds the separator |
| Strings.SplitJoin | backend/pkg/auth/middleware.go:51 | joining the pieces of a split gives back the input |
| Strings.JoinSplit | backend/pkg/auth/middleware.go:51-52 | splitting separator-free pieces joined by the separator gives back the pieces |
| Strings.Cut | backend/pkg/auth/admin_handler.go:43-44 | the text before the first separator holds none, and the input is the two parts glued at it; without a separator, the whole input and "" |
| Strings.OnePairQuery | backend/pkg/auth/admin_handler.go:43-44 | url.Values.Get on `key=value` returns value for key |
| Strings.TwoPairQuery | backend/pkg/auth/admin_handler.go:43-44 | url.Values.Get on `k1=v1&k2=v2` returns each value for its key |
| Strings.RawQueryAfterPath | backend/pkg/auth/admin_handler.go:43 | the raw query of `path?query` is query when the path holds no '?' |
| Strings.Digits | frontend/src/lib/api.ts:157 | the digits written for n are decimal digits whose value is n |
| Strings.NumberToString | frontend/src/lib/api.ts:157 | a number interpolated into a template literal is never empty |
| Strings.Numeral | frontend/src/lib/api.ts:157 | a decimal numeral is never empty |
| Strings.ScanMeaning | backend/pkg/auth/admin_handler.go:43-44 | ParseUint's digit-by-digit loop gives a range error exactly when the leading digit run exceeds 2^64 - 1, whatever follows; otherwise a syntax error when anything follows the run or the text is empty, and the run's value when it is the whole text |
| Strings.NumeralReads | backend/pkg/auth/admin_handler.go:43-44 | a whole numeral within the unsigned 64-bit range is read as its value, and Atoi answers any whole numeral clamped to 64 bits |
| Strings.RangeInsideRun | backend/pkg/auth/admin_handler.go:43-44 | a digit run worth more than 2^64 - 1 is a range error, whatever text follows it |
| Strings.OverflowBeforeJunk | backend/pkg/auth/admin_handler.go:43-44 | such a run followed by any text makes Atoi answer MaxInt64, or MinInt64 after a '-', not 0 |
| Strings.ClampInt64 | backend/pkg/auth/admin_handler.go:43-44 | the result lies in the 64-bit range and equals the input inside it |
| Strings.Atoi | backend/pkg/auth/admin_handler.go:43-44 | with the error discarded, Atoi gives a 64-bit value, and 0 on a syntax error (its other cases are stated by NumeralReads and OverflowBeforeJunk) |
| Strings.NumberRoundTrip | backend/pkg/auth/admin_handler.go:43-44 | a number the client writes is the numeral of that number, and Atoi reads it back clamped to 64 bits |
| Accounts.ParseRole | backend/pkg/auth/user.go:82 | a role text found in the table is exactly that role's name |
| Accounts.RoleNameRoundTrip | backend/pkg/auth/user.go:52-78 | every role's name reads back as that role, so the five names are distinct |
| Accounts.PermissionNamesDistinct | backend/pkg/auth/user.go:38-49 | two permissions have the same code iff they are the same permission |
| Accounts.RowsDistinct | backend/pkg/auth/user.go:52-78 | no table row lists a permission twice |
| Accounts.SystemAdminHoldsAll | backend/pkg/auth/user.go:53-58 | SYSTEM_ADMIN holds all nine permissions |
| Accounts.ViewerHoldsOnlyReads | backend/pkg/auth/user.go:74-77 | VIEWER holds exactly inventory:read and master:read |
| Accounts.FieldOperatorHoldsFloorWork | backend/pkg/auth/user.go:65-68 | FIELD_OPERATOR holds exactly inventory and stocktaking read/write, not master:read or report:read |
| Accounts.Exclusivity | backend/pkg/auth/user.go:52-78 | every role holds inventory:read; only SYSTEM_ADMIN holds user:manage; audit:read only SYSTEM_ADMIN and ANALYST; no role exceeds SYSTEM_ADMIN |
| Accounts.GrantedMeaning | backend/pkg/auth/user.go:81-92 | a role text outside the table grants nothing; a role's name grants exactly its row |
| Accounts.User.constructor | backend/pkg/auth/user.go:130-138 | the new user object carries exactly the given fields |
| Accounts.User.HasPermission | backend/pkg/auth/user.go:81-92 | the scan answers true iff the role is in the table and its row lists the permission |
| Accounts.NewUser | backend/pkg/auth/user.go:129-145 | nil iff hashing fails; otherwise a fresh active user with the given email, name and role, the hash of the password and no location |
| Middleware.CredentialHeader | backend/pkg/auth/middleware.go:39-48 | a non-empty header is used as is; an empty one falls back to the cookie, and to nothing only without a cookie |
| Middleware.BearerShape | backend/pkg/auth/middleware.go:51-57 | a header passes the format check with token t iff it is "Bearer " followed by t and t holds no space |
| Middleware.MalformedHeaders | backend/pkg/auth/middleware.go:51-55 | "bearer x", "Bearer  x" and "Bearer a b" are refused |
| Middleware.Authenticate | backend/pkg/auth/middleware.go:36-70 | no header and no cookie gives 401 Unauthorized; every refusal is 401; the request proceeds iff a credential exists, has the Bearer format and validates, and then carries exactly the validated claims |
| Middleware.HeaderIgnoresCookie | backend/pkg/auth/middleware.go:39-48 | with a non-empty header the cookie does not affect the outcome |
| Middleware.CookieAsHeader | backend/pkg/auth/middleware.go:40-47 | a cookie value v is treated exactly like the header "Bearer " + v |
| Middleware.TokenHandedOver | backend/pkg/auth/middleware.go:57-69 | a well-formed header hands exactly its token to validation: failure gives 401 Invalid token, success proceeds with the claims |
| Middleware.RequirePermission | backend/pkg/auth/middleware.go:74-97 | no claims gives 401; a role lacking the permission gives 403; the next handler runs iff the role grants the permission |
| Middleware.OnlyRoleMatters | backend/pkg/auth/middleware.go:84-85 | two claims with the same role get the same decision |
| Middleware.RoleGates | backend/pkg/auth/middleware.go:74-97 | a VIEWER is refused inventory:write with 403; a FIELD_OPERATOR is let through |
| Middleware.AuthenticatedUserId | backend/pkg/auth/middleware.go:36-116 | behind Authenticate, GetUserIDFromContext yields the user id of the claims the validated token carries ("" only without claims) |
| Repository.InMemoryUserRepository.constructor | backend/pkg/auth/handler.go:260-271 | the store holds exactly the administrator, as one fresh object under its id and under admin@zaigo.local, active SYSTEM_ADMIN |
| Repository.InMemoryUserRepository.Create | backend/pkg/auth/handler.go:273-280 | an email already present as a key gives DuplicateEmail with the map unchanged; otherwise the user is filed under id and email and nothing else changes |
| Repository.InMemoryUserRepository.GetByID | backend/pkg/auth/handler.go:282-288 | found iff the key is present (an email key as well), with the object filed there; otherwise UserNotFound |
| Repository.InMemoryUserRepository.GetByEmail | backend/pkg/auth/handler.go:290-296 | found iff the key is present (an id key as well), with the object filed there; otherwise UserNotFound |
| Repository.InMemoryUserRepository.Update | backend/pkg/auth/handler.go:298-305 | an absent id gives UserNotFound with no change; otherwise only the id key and the current-email key are rebound, and every other key, a former email included, keeps its object |
| Repository.InMemoryUserRepository.Delete | backend/pkg/auth/handler.go:307-315 | an absent key gives UserNotFound with no change; otherwise exactly the stored user's id key and current-email key are removed |
| Repository.InMemoryUserRepository.CollectDistinct | backend/pkg/auth/handler.go:318-326 | one copy of every stored user: ids are distinct, cover all stored ids, and each copy is a stored user's fields |
| Repository.InMemoryUserRepository.List | backend/pkg/auth/handler.go:317-337 | negative offset panics; offset at or past the n distinct users gives an empty page; a negative limit before the end panics; otherwise length min(limit, n - offset), with distinct ids, each a stored user |
| AuthHandler.ToDTO | backend/pkg/auth/handler.go:122-129 | the DTO carries every stored field except the password hash |
| AuthHandler.DTOHidesHash | backend/pkg/auth/handler.go:122-129 | two users have the same DTO iff they differ at most in the password hash |
| AuthHandler.Login | backend/pkg/auth/handler.go:53-132 | undecodable body 400; empty email or password 400; unknown email or wrong password 401 Invalid credentials (iff); 403 Account is disabled exactly when both fields are present, the email is known, the password matches and the account is disabled (iff); a failed token issuance after all checks 500; success iff all checks pass and tokens are issued, answering the user's DTO and the tokens and setting the refresh_token cookie (path /api/v1/auth, 7 days) and the access_token cookie (path /, 15 minutes) to them |
| AuthHandler.NoAccountProbing | backend/pkg/auth/handler.go:66-80 | without the right password, a registered email gets the same reply as an unknown one |
| AuthHandler.Logout | backend/pkg/auth/handler.go:135-151 | both the refresh_token (path /api/v1/auth) and the access_token (path /) cookie are cleared: empty value, negative max age |
| AuthHandler.LogoutClearsLoginCookies | backend/pkg/auth/handler.go:96-151 | the cookies Logout clears have the names and paths of the cookies a successful Login set, in the same order |
| AuthHandler.Me | backend/pkg/auth/handler.go:160-185 | no claims 401; a user id not in the store 404; otherwise 200 with that user's DTO |
| AuthHandler.Refresh | backend/pkg/auth/handler.go:188-238 | no cookie or an invalid token 401; a verified token for an unknown user 401, for an inactive user 403; a failed token issuance for an active user 500 "Failed to generate tokens"; success iff the user exists, is active and tokens are issued, answering 200 with the new access token and its cookie |
| AdminHandler.EffectiveLimit | backend/pkg/auth/admin_handler.go:44-50 | the limit lies in 1..100: 20 for a non-positive or unparsable limit, 100 above 100, unchanged otherwise |
| AdminHandler.ListUsers | backend/pkg/auth/admin_handler.go:42-74 | a negative offset crashes; otherwise 200 with length min(limit, n - offset) (0 past the end), total equal to the page size, distinct ids, each item the DTO of a stored user |
| AdminHandler.SaveErrorReply | backend/pkg/auth/admin_handler.go:96-102 | a save error answers 409 iff the email is taken, 500 otherwise |
| AdminHandler.CreateUser | backend/pkg/auth/admin_handler.go:77-114 | bad body 400; missing email, name or password 400; hashing failure 500; taken email 409; success iff hashing works and the email is free, answering 201 with the new active user filed under id and email; every failure leaves the store unchanged |
| AdminHandler.MergeOverwritesPresentFields | backend/pkg/auth/admin_handler.go:137-151 | an update overwrites exactly the fields it carries; id and hash never change; a location cannot be cleared; an empty update changes nothing |
| AdminHandler.MergeIdempotent | backend/pkg/auth/admin_handler.go:137-151 | applying the same update twice equals applying it once |
| AdminHandler.ApplyUpdate | backend/pkg/auth/admin_handler.go:137-151 | the fetched object's fields become the merge of its old fields with the request |
| AdminHandler.LookupErrorReply | backend/pkg/auth/admin_handler.go:122-128 | a lookup error answers 404 iff the user is missing, 500 otherwise |
| AdminHandler.UpdateUser | backend/pkg/auth/admin_handler.go:117-167 | an unknown key 404 and then a bad body 400, both with no change; otherwise the shared object takes the merged fields and no other object changes; if its id is still a key the reply is 200 with the merged DTO and the id and new-email keys are rebound, else 500 with the map unchanged |
| AdminHandler.DeleteUser | backend/pkg/auth/admin_handler.go:170-184 | an unknown key 404 with no change; otherwise 204 with the user's id and current-email keys removed |
| AdminHandler.GetUser | backend/pkg/auth/admin_handler.go:187-209 | 200 iff the key is present, with that user's DTO; otherwise 404 |
| AdminHandler.RoleOrderComplete | backend/pkg/auth/admin_handler.go:241-247 | every role occurs in the listing order exactly once |
| AdminHandler.RoleLabelsDistinct | backend/pkg/auth/admin_handler.go:223-229 | the catalogue labels are pairwise distinct |
| AdminHandler.ListRoles | backend/pkg/auth/admin_handler.go:240-260 | five entries in the fixed order, each with its role name, label, description and exactly its row of the permission table; role names distinct |
| AdminHandler.EmailChangeThenDelete | backend/pkg/auth/handler.go:298-315 | after changing the seeded administrator's email and deleting it, both replies succeed and admin@zaigo.local still reaches the user, now with the new email |
| ApiClient.LookupMeaning | frontend/src/lib/api.ts:36 | a defined property value is bound to its key in the object; a key bound nowhere reads undefined |
| ApiClient.Property | frontend/src/lib/api.ts:36 | reading a property throws exactly on null and undefined; on an object it reads the binding |
| ApiClient.LookupDistinct | frontend/src/lib/api.ts:64-69 | in an object literal with distinct keys every key reads back its own value |
| ApiClient.Keys | frontend/src/lib/api.ts:64-69 | an object's keys are its properties' names, one per property and in their order (the order JSON.stringify writes them in); a non-object has no keys |
| ApiClient.Request | frontend/src/lib/api.ts:16-32 | the URL is base plus endpoint; the method defaults to GET; a JSON Content-Type the caller's headers override; credentials "include"; a body is sent iff it is truthy, and then unchanged |
| ApiClient.FalsyBodyDropped | frontend/src/lib/api.ts:28-30 | a falsy body (0, "", false, null) sends the same request as no body |
| ApiClient.Settle | frontend/src/lib/api.ts:34-39 | resolves iff the status is 2xx and the body parses, to that body; 2xx without a parsable body is a SyntaxError; a failure status never is; a TypeError iff a failure's body is null |
| ApiClient.ErrorMessages | frontend/src/lib/api.ts:34-36 | a failure with an unparsable body shows the fallback text; with a non-empty string message, that message; with no truthy message, "HTTP <status>" |
| ApiClient.PathRoundTrip | frontend/src/lib/api.ts:56 | a templated path splits back into the segments it was written from, when none holds '/' or '?' |
| ApiClient.QueryRoundTrip | frontend/src/lib/api.ts:93 | a query after a path leaves the path's segments alone and reads back unchanged |
| ApiClient.TwoPairs | frontend/src/lib/api.ts:157 | each value of a two-pair query reads back under its key |
| ApiClient.OnePair | frontend/src/lib/api.ts:93 | the value of a one-pair query reads back under its key |
| ApiClient.AuthCalls | frontend/src/lib/api.ts:43-51 | login POSTs exactly email and password; logout POSTs no body; me is a GET without body |
| ApiClient.MovementBodyFields | frontend/src/lib/api.ts:61-80 | the receipt/issue body holds exactly item_id, location_id, quantity, reference in that order with the caller's values, and no lot_number |
| ApiClient.AddIgnoresLot | frontend/src/lib/api.ts:61-80 | inventory.add sends the same call whatever lot number is given, with the same POST body as inventory.remove |
| ApiClient.TransferFields | frontend/src/lib/api.ts:81-91 | the transfer body renames the locations to from_location_id/to_location_id and keeps item, quantity and reference |
| ApiClient.HistoryLimit | frontend/src/lib/api.ts:92-93 | `limit or 50`: an omitted or zero limit becomes 50, any other limit is kept; never 0 |
| ApiClient.InventoryPaths | frontend/src/lib/api.ts:55-95 | the stock, history and alert paths put the ids in their own segments |
| ApiClient.HistoryQuery | frontend/src/lib/api.ts:92-93 | the history request's limit reads back as the effective limit |
| ApiClient.ListQuery | frontend/src/lib/api.ts:156-157 | a list query's offset reads back as (page - 1) * pageSize and its limit as pageSize |
| ApiClient.ListSecondPage | frontend/src/lib/api.ts:100-101 | page 2 of size 10 requests the collection path with ?offset=10&limit=10 (for items: /items?offset=10&limit=10) |
| ApiClient.ListDefaults | frontend/src/lib/api.ts:112-113 | without arguments a list requests the collection path with ?offset=0&limit=20 (for locations: /locations?offset=0&limit=20) |
| ApiClient.ResourcePaths | frontend/src/lib/api.ts:102-107 | get, update and delete share the path with the id as last segment; create posts to the collection |
| ApiClient.ResourceCalls | frontend/src/lib/api.ts:102-107 | get is GET and delete is DELETE without body; update is PUT and create POST, both sending a truthy payload unchanged |
| ApiClient.StocktakingStatusQuery | frontend/src/lib/api.ts:124-125 | a given status reads back from the query; no status or "" adds no query |
| ApiClient.StocktakingBodies | frontend/src/lib/api.ts:127-137 | creation keeps camelCase keys; the item update sends the count and the note (undefined when omitted) with PUT; approval has no body, rejection sends the reason |
| ApiClient.StocktakingPaths | frontend/src/lib/api.ts:126-137 | the stocktaking and item ids land in their own segments; approve and reject are sibling paths |
| ApiClient.LotPaths | frontend/src/lib/api.ts:142-151 | the lot ids land in their own segments; the lot with id "expired" has the expired-lots path |
| ApiClient.ExpiringQuery | frontend/src/lib/api.ts:146-147 | the days window reads back from the expiring-lots query |
| ApiClient.PagingDefaults | frontend/src/lib/api.ts:100-101 | an omitted page is page 1 and an omitted page size is 20 |
| ApiClient.BuilderDefaults | frontend/src/lib/api.ts:92-125 | the alert location defaults to "all"; `limit or 50` turns an omitted and a zero limit into 50; the status check treats "" as no status |
| ApiClient.ExpiringDefault | frontend/src/lib/api.ts:146-147 | an omitted window is 14 days, while a window of 0 is sent as 0 |
| Sidebar.DashboardOnlyAtRoot | frontend/src/components/layout/Sidebar.tsx:61-62 | the dashboard entry is active iff the path is exactly "/" |
| Sidebar.PrefixWithoutBoundary | frontend/src/components/layout/Sidebar.tsx:61-62 | the prefix test ignores segment boundaries: "/inventory-archive" highlights "/inventory" |
| Sidebar.AtMostOneMainActive | frontend/src/components/layout/Sidebar.tsx:61-62 | for any path at most one main entry is highlighted |
| Sidebar.AtMostOneAdminActive | frontend/src/components/layout/Sidebar.tsx:88 | for any path at most one administration entry is highlighted |
| Sidebar.MainHighlights | frontend/src/components/layout/Sidebar.tsx:60-62 | one highlight per main entry, at most one of them lit |
| Sidebar.AdminHighlights | frontend/src/components/layout/Sidebar.tsx:82-88 | the administration menu is shown iff the user's role is SYSTEM_ADMIN (no user: not shown), with at most one entry lit |
| Sidebar.FooterName | frontend/src/components/layout/Sidebar.tsx:115 | the footer shows the user's non-empty name, otherwise ユーザー |
| Sidebar.FooterRole | frontend/src/components/layout/Sidebar.tsx:118 | the footer shows the user's non-empty role code, otherwise 権限なし |
| Header.KnownLabelsDistinct | frontend/src/components/layout/Header.tsx:40-54 | the five roles get five different labels, none of them 不明 |
| Header.UnknownExactlyOutsideTable | frontend/src/components/layout/Header.tsx:52-53 | the label is 不明 iff the role is missing or not one of the five codes |
| Agreement.HandlerErrorsShowStatusOnly | backend/pkg/auth/handler.go:245-252 | a handler error body carries its text under "error", and the client rejects with "HTTP <status>" instead |
| Agreement.MiddlewareErrorsShowFallback | backend/pkg/auth/middleware.go:44 | a 401 or 403 plain-text body reaches the user as the client's fallback text |
| Agreement.ClientDeletesUser | backend/pkg/auth/admin_handler.go:183 | users.delete of a present user removes its keys yet rejects with a syntax error; an unknown id rejects with "HTTP 404" |
| Agreement.ListWindowReachesBackend | backend/pkg/auth/admin_handler.go:43-44 | the offset and limit ListUsers parses from users.list's query are (page - 1) * pageSize and pageSize, clamped to 64 bits |
| Agreement.NegativeOffset | frontend/src/lib/api.ts:157 | a page below 1 with a positive size gives a negative offset |
| Agreement.NonNegativeOffset | frontend/src/lib/api.ts:157 | a page of 1 or more with a non-negative size gives a non-negative offset |
| Agreement.ClientListsUsers | backend/pkg/auth/handler.go:336 | users.list with a page below 1 crashes ListUsers; a page of 1 or more is served with 200, and with a size in 1..100 no more users come back than asked |
| Agreement.LabelsAgree | frontend/src/components/layout/Header.tsx:48-49 | the header's label equals the role catalogue's label iff the role is not ANALYST, and no role is shown as 不明 |
| Agreement.AdminMenuMatchesUserManage | frontend/src/components/layout/Sidebar.tsx:48 | the administration menu appears iff the user's role grants user:manage |

## Left out

- Creation and update timestamps (`CreatedAt`, `UpdatedAt`) are not modelled, because they come from the clock. Neither are the JWT registered claims or the expiry arithmetic.
- bcrypt, JWT signing and validation, and UUID generation are parameters, because they are library code.
  - If bcrypt fails in `NewInMemoryUserRepository`, Go ignores the error and the nil admin panics. The model takes the seed hash as given, so it does not cover that panic.
- `SetPassword` and `CheckPassword` (user.go:95-108) appear only through the `hash` and `matches` parameters.
- `GetClaimsFromContext` is the identity on the model's request context, which is `Option<Claims>`. It has no member of its own.
- JSON encoding and decoding, cookies on the wire, `fetch` and Go's HTTP plumbing are left out.
  - Replies are values: a status, plus a message or payload.
  - The success/"message" body of Logout and the exact JSON encodings are not modelled.
- `Strings.QueryGet` does not percent-decode. The values the client writes (numbers, statuses without '&' or ';') need none.
- JavaScript numbers are integers here. NaN, -0, fractions and exponent notation are not modelled.
- Go integer overflow is modelled only where strconv.Atoi reads a number.
- Repository.InMemoryUserRepository.List: `offset + limit` does not wrap at 64 bits. In Go, an offset of 1 or more with a limit near the largest int wraps `end` negative and the slice panics, where the model returns a page. `ListUsers` clamps the limit to 1..100, so it never passes such a limit.
- Agreement.ClientListsUsers: states no bound for a page size outside 1..100 or for an offset beyond the 64-bit range.
- `inventory.search` and `audit.list`/`audit.exportCsv` build their queries with URLSearchParams, which is library encoding. They are not modelled.
- `ListAuditLogs` and `ExportAuditLogs` return fixed sample data and are not modelled.
- The `ListUsers` 500 branch (admin_handler.go:53-56) is never taken, because the store's `List` never returns an error. The model has no such branch.
- Route registration (backend/cmd/api/main.go) is not part of this model. Its `setupRouter` mounts none of `ListUsers`, `CreateUser`, `UpdateUser`, `DeleteUser`, `GetUser` and `ListRoles`, and applies `RequirePermission` to no route. The handlers and `RequirePermission` are modelled as written, and the `Agreement` members about `users.list` and `users.delete` assume a router that maps those routes.
- Concurrency is not modelled. The store has no locking, and each operation is modelled as atomic.
- React rendering, hooks and the authentication provider are not modelled. Only the sidebar's and header's decisions are.
- The inventory ledger, stocktaking workflow and lot registry have no implementation in the backend package modelled here. Only their client calls are modelled.
