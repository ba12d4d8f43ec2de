/**
 * The browser API client (frontend/src/lib/api.ts): the shared `request` routine that
 * turns an endpoint and options into a fetch call and settles the response, and the
 * URL and body builders of the auth, inventory, master, stocktaking, lot, user and role
 * groups. JavaScript values are modelled by `JsValue`; numbers are integral.
 */
module ApiClient {
  import opened Wrappers
  import opened Strings

  // ---------------------------------------------------------------------------
  // JavaScript values
  // ---------------------------------------------------------------------------

  /** A JSON-like JavaScript value; an object keeps its properties in insertion order. */
  datatype JsValue =
    | Undefined
    | Null
    | Bool(b: bool)
    | Number(n: int)
    | Str(s: string)
    | Arr(elems: seq<JsValue>)
    | Obj(fields: seq<(string, JsValue)>)

  /** JavaScript truthiness. */
  predicate Truthy(v: JsValue)
  {
    match v
    case Undefined => false
    case Null => false
    case Bool(b) => b
    case Number(n) => n != 0
    case Str(s) => s != ""
    case Arr(_) => true
    case Obj(_) => true
  }

  /** The value bound to `key` in an object literal or parsed JSON: the last binding wins. */
  function Lookup(fields: seq<(string, JsValue)>, key: string): JsValue
  {
    if |fields| == 0 then Undefined
    else if fields[|fields| - 1].0 == key then fields[|fields| - 1].1
    else Lookup(fields[..|fields| - 1], key)
  }

  /** A bound value comes from a binding of that key; a key bound nowhere reads as undefined. */
  lemma {:induction false} LookupMeaning(fields: seq<(string, JsValue)>, key: string)
    ensures Lookup(fields, key) != Undefined ==>
      exists i :: 0 <= i < |fields| && fields[i] == (key, Lookup(fields, key))
    ensures (forall i :: 0 <= i < |fields| ==> fields[i].0 != key) ==> Lookup(fields, key) == Undefined
  {
    if |fields| > 0 && fields[|fields| - 1].0 != key {
      var init := fields[..|fields| - 1];
      LookupMeaning(init, key);
      if Lookup(fields, key) != Undefined {
        var i :| 0 <= i < |init| && init[i] == (key, Lookup(init, key));
        assert fields[i] == init[i];
      }
    }
  }

  /**
   * Property access `v.key` on a JSON value: None where JavaScript throws a TypeError
   * (on null or undefined), Undefined for a primitive or an array, the bound value for
   * an object.
   */
  function Property(v: JsValue, key: string): (r: Option<JsValue>)
    ensures r.None? <==> v.Undefined? || v.Null?
    ensures v.Obj? ==> r == Some(Lookup(v.fields, key))
  {
    match v
    case Undefined => None
    case Null => None
    case Obj(fields) => Some(Lookup(fields, key))
    case _ => Some(Undefined)
  }

  /** `v.key` on a value known not to be null or undefined. */
  function Field(v: JsValue, key: string): JsValue
  {
    if v.Obj? then Lookup(v.fields, key) else Undefined
  }

  predicate DistinctKeys(fields: seq<(string, JsValue)>)
  {
    forall i, j :: 0 <= i < j < |fields| ==> fields[i].0 != fields[j].0
  }

  /** In an object whose keys are distinct, every key reads back its own value. */
  lemma {:induction false} LookupDistinct(fields: seq<(string, JsValue)>)
    requires DistinctKeys(fields)
    ensures forall i :: 0 <= i < |fields| ==> Lookup(fields, fields[i].0) == fields[i].1
  {
    if |fields| > 0 {
      var init := fields[..|fields| - 1];
      LookupDistinct(init);
      forall i | 0 <= i < |fields| ensures Lookup(fields, fields[i].0) == fields[i].1 {
        if i < |fields| - 1 {
          assert init[i] == fields[i];
        }
      }
    }
  }

  /** The property names of an object, in order. */
  function Keys(v: JsValue): (ks: seq<string>)
    ensures v.Obj? ==> |ks| == |v.fields| && forall i :: 0 <= i < |ks| ==> ks[i] == v.fields[i].0
    ensures !v.Obj? ==> ks == []
  {
    if v.Obj? then seq(|v.fields|, i requires 0 <= i < |v.fields| => v.fields[i].0) else []
  }

  /** JavaScript's String(v), which `new Error(v)` applies to its message. */
  function ToJsString(v: JsValue): string
  {
    match v
    case Undefined => "undefined"
    case Null => "null"
    case Bool(b) => if b then "true" else "false"
    case Number(n) => NumberToString(n)
    case Str(s) => s
    case Arr(elems) =>
      if |elems| == 0 then ""
      else Join(seq(|elems|, i requires 0 <= i < |elems| =>
                  if elems[i].Undefined? || elems[i].Null? then "" else ToJsString(elems[i])), ',')
    case Obj(_) => "[object Object]"
  }

  // ---------------------------------------------------------------------------
  // request
  // ---------------------------------------------------------------------------

  datatype HttpMethod = GET | POST | PUT | DELETE | PATCH

  /** The options a builder hands to `request`; an absent body is Undefined. */
  datatype RequestOptions = RequestOptions(verb: Option<HttpMethod>, body: JsValue, headers: map<string, string>)

  const NoOptions := RequestOptions(None, Undefined, map[])

  function WithMethod(m: HttpMethod): RequestOptions
  {
    RequestOptions(Some(m), Undefined, map[])
  }

  function WithBody(m: HttpMethod, body: JsValue): RequestOptions
  {
    RequestOptions(Some(m), body, map[])
  }

  /** The fetch call `request` makes; `body` is the value JSON.stringify serialises, if any. */
  datatype FetchCall = FetchCall(url: string, verb: HttpMethod, headers: map<string, string>,
                                 credentials: string, body: Option<JsValue>)

  const JsonContentType := "application/json"

  /**
   * The fetch call for an endpoint: the base URL and the endpoint concatenated, the
   * method defaulting to GET, a JSON content type the caller's headers may override,
   * cookies included, and the body attached only when it is truthy.
   */
  function Request(baseUrl: string, endpoint: string, options: RequestOptions): (c: FetchCall)
    ensures c.url == baseUrl + endpoint
    ensures options.verb.None? ==> c.verb == GET
    ensures options.verb.Some? ==> c.verb == options.verb.value
    ensures c.headers.Keys == options.headers.Keys + {"Content-Type"}
    ensures forall k :: k in options.headers ==> c.headers[k] == options.headers[k]
    ensures "Content-Type" !in options.headers ==> c.headers["Content-Type"] == JsonContentType
    ensures c.credentials == "include"
    ensures c.body.Some? <==> Truthy(options.body)
    ensures c.body.Some? ==> c.body.value == options.body
  {
    FetchCall(baseUrl + endpoint,
              if options.verb.Some? then options.verb.value else GET,
              map["Content-Type" := JsonContentType] + options.headers,
              "include",
              if Truthy(options.body) then Some(options.body) else None)
  }

  /** A falsy body (0, "", false, null) is never sent, so it cannot be told apart from none. */
  lemma FalsyBodyDropped(baseUrl: string, endpoint: string, m: HttpMethod, body: JsValue)
    requires body in {Number(0), Str(""), Bool(false), Null, Undefined}
    ensures Request(baseUrl, endpoint, WithBody(m, body)) == Request(baseUrl, endpoint, WithMethod(m))
  {
  }

  /** What a response carries: its status and its body parsed as JSON (None when unparsable). */
  datatype Response = Response(status: int, body: Option<JsValue>)

  predicate Ok(r: Response)
  {
    200 <= r.status <= 299
  }

  /** What `request` rejects with. */
  datatype Thrown = Error(message: string) | TypeError | SyntaxError

  const FallbackMessage := "エラーが発生しました"

  function HttpStatusMessage(status: int): string
  {
    "HTTP " + NumberToString(status)
  }

  /**
   * How `request` settles: an ok response resolves to its parsed body (a body that does
   * not parse rejects); any other response rejects with an Error whose message is the
   * body's truthy `message`, or `HTTP <status>`; an unparsable body stands in as an
   * object holding the fixed fallback message, and a body of null throws a TypeError.
   */
  function Settle(r: Response): (out: Result<JsValue, Thrown>)
    ensures out.Success? <==> Ok(r) && r.body.Some?
    ensures out.Success? ==> out.value == r.body.value
    ensures Ok(r) && r.body.None? ==> out == Failure(SyntaxError)
    ensures !Ok(r) ==> out.Failure? && out.error != SyntaxError
    ensures out == Failure(TypeError) <==> !Ok(r) && r.body.Some? && (r.body.value.Null? || r.body.value.Undefined?)
  {
    if Ok(r) then
      if r.body.Some? then Success(r.body.value) else Failure(SyntaxError)
    else
      var error := if r.body.Some? then r.body.value else Obj([("message", Str(FallbackMessage))]);
      match Property(error, "message")
      case None => Failure(TypeError)
      case Some(m) => Failure(Error(if Truthy(m) then ToJsString(m) else HttpStatusMessage(r.status)))
  }

  /** The error messages of a failed response, case by case. */
  lemma ErrorMessages(status: int, fields: seq<(string, JsValue)>)
    requires !(200 <= status <= 299)
    ensures Settle(Response(status, None)) == Failure(Error(FallbackMessage))
    ensures Lookup(fields, "message").Str? && Lookup(fields, "message").s != "" ==>
      Settle(Response(status, Some(Obj(fields)))) == Failure(Error(Lookup(fields, "message").s))
    ensures !Truthy(Lookup(fields, "message")) ==>
      Settle(Response(status, Some(Obj(fields)))) == Failure(Error(HttpStatusMessage(status)))
    ensures Settle(Response(status, Some(Str("oops")))) == Failure(Error(HttpStatusMessage(status)))
  {
  }

  // ---------------------------------------------------------------------------
  // Builders
  // ---------------------------------------------------------------------------

  /** What a builder produces: the endpoint and the options it passes to `request`. */
  datatype ApiCall = ApiCall(endpoint: string, options: RequestOptions)

  /** The fetch call a builder's request makes against the client's base URL. */
  function Send(baseUrl: string, call: ApiCall): FetchCall
  {
    Request(baseUrl, call.endpoint, call.options)
  }

  /** A path written as a template literal: '/' before each segment. */
  function Path(segments: seq<string>): string
  {
    Join([""] + segments, '/')
  }

  /** A path followed by its query string. */
  function WithQuery(path: string, query: string): string
  {
    path + "?" + query
  }

  /** One `key=value` pair of a query string. */
  function Pair(key: string, value: string): string
  {
    key + "=" + value
  }

  /** The path of an endpoint split at '/', the query left off. */
  function PathSegments(endpoint: string): seq<string>
  {
    Split(Cut(endpoint, '?').0, '/')
  }

  /** A path segment value that cannot spill into a neighbouring segment or the query. */
  predicate Segment(s: string)
  {
    '/' !in s && '?' !in s
  }

  lemma {:induction false} JoinNoQuery(parts: seq<string>)
    requires |parts| >= 1
    requires forall i :: 0 <= i < |parts| ==> '?' !in parts[i]
    ensures '?' !in Join(parts, '/')
  {
    if |parts| > 1 {
      JoinNoQuery(parts[1..]);
    }
  }

  /** The segments of a path are the segments it was written from, provided none holds '/' or '?'. */
  lemma PathRoundTrip(segments: seq<string>)
    requires forall i :: 0 <= i < |segments| ==> Segment(segments[i])
    ensures PathSegments(Path(segments)) == [""] + segments
  {
    var parts := [""] + segments;
    assert forall i :: 0 <= i < |parts| ==> Segment(parts[i]);
    JoinNoQuery(parts);
    JoinSplit(parts, '/');
    SplitNoSep(Path(segments), '?');
  }

  // PathRoundTrip at fixed lengths, so that the path lemmas below stay cheap to check.
  lemma Segments1(a: string)
    requires Segment(a)
    ensures PathSegments(Path([a])) == ["", a]
  {
    PathRoundTrip([a]);
    assert [""] + [a] == ["", a];
    assert Join(["", a], '/') == "" + "/" + Join([a], '/');
  }

  lemma Segments2(a: string, b: string)
    requires Segment(a) && Segment(b)
    ensures PathSegments(Path([a, b])) == ["", a, b]
  {
    PathRoundTrip([a, b]);
    assert [""] + [a, b] == ["", a, b];
  }

  lemma Segments3(a: string, b: string, c: string)
    requires Segment(a) && Segment(b) && Segment(c)
    ensures PathSegments(Path([a, b, c])) == ["", a, b, c]
  {
    PathRoundTrip([a, b, c]);
    assert [""] + [a, b, c] == ["", a, b, c];
  }

  lemma Segments4(a: string, b: string, c: string, d: string)
    requires Segment(a) && Segment(b) && Segment(c) && Segment(d)
    ensures PathSegments(Path([a, b, c, d])) == ["", a, b, c, d]
  {
    PathRoundTrip([a, b, c, d]);
    assert [""] + [a, b, c, d] == ["", a, b, c, d];
  }

  /** A query after a path neither changes the path's segments nor loses anything itself. */
  lemma QueryRoundTrip(segments: seq<string>, query: string)
    requires forall i :: 0 <= i < |segments| ==> Segment(segments[i])
    ensures PathSegments(WithQuery(Path(segments), query)) == PathSegments(Path(segments))
    ensures RawQuery(WithQuery(Path(segments), query)) == query
  {
    var parts := [""] + segments;
    assert forall i :: 0 <= i < |parts| ==> Segment(parts[i]);
    JoinNoQuery(parts);
    SplitNoSep(Path(segments), '?');
    CutAt(Path(segments), '?', query);
  }

  /** A query of two pairs gives back each value under its key. */
  lemma TwoPairs(path: seq<string>, k1: string, v1: string, k2: string, v2: string)
    requires forall i :: 0 <= i < |path| ==> Segment(path[i])
    requires k1 != "" && '&' !in k1 && ';' !in k1 && '=' !in k1
    requires k2 != "" && '&' !in k2 && ';' !in k2 && '=' !in k2
    requires k1 != k2
    requires '&' !in v1 && ';' !in v1 && '&' !in v2 && ';' !in v2
    ensures QueryGet(RawQuery(WithQuery(Path(path), Pair(k1, v1) + "&" + Pair(k2, v2))), k1) == v1
    ensures QueryGet(RawQuery(WithQuery(Path(path), Pair(k1, v1) + "&" + Pair(k2, v2))), k2) == v2
  {
    QueryRoundTrip(path, Pair(k1, v1) + "&" + Pair(k2, v2));
    TwoPairQuery(k1, v1, k2, v2);
    assert Pair(k1, v1) + "&" + Pair(k2, v2) == k1 + "=" + v1 + "&" + k2 + "=" + v2;
  }

  /** A query of one pair gives back its value under its key. */
  lemma OnePair(path: seq<string>, k: string, v: string)
    requires forall i :: 0 <= i < |path| ==> Segment(path[i])
    requires k != "" && '&' !in k && ';' !in k && '=' !in k
    requires '&' !in v && ';' !in v
    ensures QueryGet(RawQuery(WithQuery(Path(path), Pair(k, v))), k) == v
  {
    QueryRoundTrip(path, Pair(k, v));
    OnePairQuery(k, v);
  }

  // auth

  function LoginBody(email: string, password: string): JsValue
  {
    Obj([("email", Str(email)), ("password", Str(password))])
  }

  function AuthLogin(email: string, password: string): ApiCall
  {
    ApiCall(Path(["auth", "login"]), WithBody(POST, LoginBody(email, password)))
  }

  const AuthLogout := ApiCall(Path(["auth", "logout"]), WithMethod(POST))
  const AuthMe := ApiCall(Path(["auth", "me"]), NoOptions)

  /** Login posts both credentials under their own names; logout posts nothing; me is a plain GET. */
  lemma AuthCalls(email: string, password: string)
    ensures Send("", AuthLogin(email, password)).verb == POST
    ensures Send("", AuthLogin(email, password)).body == Some(LoginBody(email, password))
    ensures Keys(LoginBody(email, password)) == ["email", "password"]
    ensures Field(LoginBody(email, password), "email") == Str(email)
    ensures Field(LoginBody(email, password), "password") == Str(password)
    ensures Send("", AuthLogout).verb == POST && Send("", AuthLogout).body.None?
    ensures Send("", AuthMe).verb == GET && Send("", AuthMe).body.None?
  {
    var fields := LoginBody(email, password).fields;
    LookupDistinct(fields);
    assert fields[0].0 == "email" && fields[1].0 == "password";
  }

  // inventory

  /** The fields of a stock receipt or issue as the screens hold them. */
  datatype StockMovement = StockMovement(itemId: string, locationId: string, quantity: int, reference: string)

  /** The snake_case body the inventory endpoints expect. */
  function MovementBody(m: StockMovement): JsValue
  {
    Obj([("item_id", Str(m.itemId)), ("location_id", Str(m.locationId)),
         ("quantity", Number(m.quantity)), ("reference", Str(m.reference))])
  }

  /** The movement body holds exactly the four snake_case fields, each with the caller's value. */
  lemma MovementBodyFields(m: StockMovement)
    ensures Keys(MovementBody(m)) == ["item_id", "location_id", "quantity", "reference"]
    ensures Field(MovementBody(m), "item_id") == Str(m.itemId)
    ensures Field(MovementBody(m), "location_id") == Str(m.locationId)
    ensures Field(MovementBody(m), "quantity") == Number(m.quantity)
    ensures Field(MovementBody(m), "reference") == Str(m.reference)
    ensures Field(MovementBody(m), "lot_number") == Undefined
  {
    var fields := MovementBody(m).fields;
    LookupDistinct(fields);
    assert fields[0].0 == "item_id" && fields[1].0 == "location_id";
    assert fields[2].0 == "quantity" && fields[3].0 == "reference";
    LookupMeaning(fields, "lot_number");
  }

  function InventoryGetStock(itemId: string, locationId: string): ApiCall
  {
    ApiCall(Path(["inventory", itemId, locationId]), NoOptions)
  }

  /** inventory.add: the lot number the caller may supply is not sent. */
  function InventoryAdd(m: StockMovement, lotNumber: Option<string>): ApiCall
  {
    ApiCall(Path(["inventory", "add"]), WithBody(POST, MovementBody(m)))
  }

  function InventoryRemove(m: StockMovement): ApiCall
  {
    ApiCall(Path(["inventory", "remove"]), WithBody(POST, MovementBody(m)))
  }

  /** A receipt ignores the lot and sends the same body an issue of the same movement sends. */
  lemma AddIgnoresLot(m: StockMovement, lot1: Option<string>, lot2: Option<string>)
    ensures InventoryAdd(m, lot1) == InventoryAdd(m, lot2)
    ensures Send("", InventoryAdd(m, lot1)).body == Send("", InventoryRemove(m)).body == Some(MovementBody(m))
    ensures Send("", InventoryAdd(m, lot1)).verb == Send("", InventoryRemove(m)).verb == POST
  {
  }


  datatype Transfer = Transfer(itemId: string, fromLocationId: string, toLocationId: string,
                               quantity: int, reference: string)

  function TransferBody(t: Transfer): JsValue
  {
    Obj([("item_id", Str(t.itemId)), ("from_location_id", Str(t.fromLocationId)),
         ("to_location_id", Str(t.toLocationId)), ("quantity", Number(t.quantity)),
         ("reference", Str(t.reference))])
  }

  function InventoryTransfer(t: Transfer): ApiCall
  {
    ApiCall(Path(["inventory", "transfer"]), WithBody(POST, TransferBody(t)))
  }

  /** inventory.transfer: the two locations renamed to snake_case, everything else as given. */
  lemma TransferFields(t: Transfer)
    ensures Send("", InventoryTransfer(t)).body == Some(TransferBody(t))
    ensures Keys(TransferBody(t)) == ["item_id", "from_location_id", "to_location_id", "quantity", "reference"]
    ensures Field(TransferBody(t), "item_id") == Str(t.itemId)
    ensures Field(TransferBody(t), "from_location_id") == Str(t.fromLocationId)
    ensures Field(TransferBody(t), "to_location_id") == Str(t.toLocationId)
    ensures Field(TransferBody(t), "quantity") == Number(t.quantity)
    ensures Field(TransferBody(t), "reference") == Str(t.reference)
  {
    var fields := TransferBody(t).fields;
    assert DistinctKeys(fields);
    LookupDistinct(fields);
    assert fields[0].0 == "item_id" && fields[1].0 == "from_location_id";
    assert fields[2].0 == "to_location_id" && fields[3].0 == "quantity" && fields[4].0 == "reference";
  }

  /** The history length asked for: `limit || 50`, so an omitted or zero limit becomes 50. */
  function HistoryLimit(limit: Option<int>): (n: int)
    ensures n != 0
    ensures limit.None? || limit == Some(0) ==> n == 50
    ensures limit.Some? && limit.value != 0 ==> n == limit.value
  {
    if limit.Some? && Truthy(Number(limit.value)) then limit.value else 50
  }

  function InventoryGetHistory(itemId: string, limit: Option<int>): ApiCall
  {
    ApiCall(WithQuery(Path(["inventory", itemId, "history"]), Pair("limit", NumberToString(HistoryLimit(limit)))), NoOptions)
  }

  /** inventory.getAlerts: the location defaults to "all" only when it is omitted. */
  function InventoryGetAlerts(locationId: Option<string>): ApiCall
  {
    ApiCall(Path(["alerts", if locationId.Some? then locationId.value else "all"]), NoOptions)
  }

  /** The ids of the stock, history and alert paths land in their own segments. */
  lemma InventoryPaths(itemId: string, locationId: string, limit: Option<int>)
    requires Segment(itemId) && Segment(locationId)
    ensures PathSegments(InventoryGetStock(itemId, locationId).endpoint) == ["", "inventory", itemId, locationId]
    ensures PathSegments(InventoryGetHistory(itemId, limit).endpoint) == ["", "inventory", itemId, "history"]
    ensures PathSegments(InventoryGetAlerts(Some(locationId)).endpoint) == ["", "alerts", locationId]
  {
    Segments3("inventory", itemId, locationId);
    QueryRoundTrip(["inventory", itemId, "history"], Pair("limit", NumberToString(HistoryLimit(limit))));
    Segments3("inventory", itemId, "history");
    Segments2("alerts", locationId);
  }

  /** The limit the history request carries reads back from its query as that number. */
  lemma HistoryQuery(itemId: string, limit: Option<int>)
    requires Segment(itemId)
    ensures Numeral(QueryGet(RawQuery(InventoryGetHistory(itemId, limit).endpoint), "limit")) ==
            Some(HistoryLimit(limit))
  {
    var n := NumberToString(HistoryLimit(limit));
    NumberHasNoDelimiters(HistoryLimit(limit));
    OnePair(["inventory", itemId, "history"], "limit", n);
    NumberRoundTrip(HistoryLimit(limit));
  }


  // products, locations, users: one shape of CRUD builders over three collections

  datatype Collection = Items | Locations | Users

  function CollectionName(c: Collection): string
  {
    match c
    case Items => "items"
    case Locations => "locations"
    case Users => "users"
  }

  /** The page offset the list builders send: (page - 1) * pageSize, pages counting from 1. */
  function PageOffset(page: int, pageSize: int): int
  {
    (page - 1) * pageSize
  }

  /** list(page = 1, pageSize = 20): the page window as an offset and a limit. */
  function ListPage(c: Collection, page: Option<int>, pageSize: Option<int>): ApiCall
  {
    var p := if page.Some? then page.value else 1;
    var s := if pageSize.Some? then pageSize.value else 20;
    ApiCall(WithQuery(Path([CollectionName(c)]),
                      Pair("offset", NumberToString(PageOffset(p, s))) + "&" + Pair("limit", NumberToString(s))),
            NoOptions)
  }

  /** The offset and limit a list request carries read back from its query. */
  lemma ListQuery(c: Collection, page: int, pageSize: int)
    ensures QueryGet(RawQuery(ListPage(c, Some(page), Some(pageSize)).endpoint), "offset") ==
            NumberToString(PageOffset(page, pageSize))
    ensures QueryGet(RawQuery(ListPage(c, Some(page), Some(pageSize)).endpoint), "limit") ==
            NumberToString(pageSize)
  {
    NumberHasNoDelimiters(PageOffset(page, pageSize));
    NumberHasNoDelimiters(pageSize);
    TwoPairs([CollectionName(c)], "offset", NumberToString(PageOffset(page, pageSize)), "limit", NumberToString(pageSize));
  }


  /** A one-segment path written out. */
  lemma OneSegmentPath(a: string)
    ensures Path([a]) == "/" + a
  {
    assert [""] + [a] == ["", a];
    assert Join(["", a], '/') == "" + "/" + Join([a], '/');
  }

  /** A list endpoint written out: the collection's path, then the offset and the limit. */
  lemma ListEndpoint(c: Collection, page: int, pageSize: int)
    ensures ListPage(c, Some(page), Some(pageSize)).endpoint ==
      "/" + CollectionName(c) + "?offset=" + NumberToString(PageOffset(page, pageSize)) +
      "&limit=" + NumberToString(pageSize)
  {
    OneSegmentPath(CollectionName(c));
    WindowQueryText("/" + CollectionName(c), NumberToString(PageOffset(page, pageSize)), NumberToString(pageSize));
  }

  /** The text of a path with an offset and a limit query. */
  lemma WindowQueryText(path: string, offset: string, limit: string)
    ensures WithQuery(path, Pair("offset", offset) + "&" + Pair("limit", limit)) ==
      path + "?offset=" + offset + "&limit=" + limit
  {
    assert "offset" + "=" == "offset=";
    assert "&" + "limit" + "=" == "&limit=";
  }

  /** Page 2 of ten asks for offset 10 and limit 10. */
  lemma ListSecondPage(c: Collection)
    ensures ListPage(c, Some(2), Some(10)).endpoint == "/" + CollectionName(c) + "?offset=10&limit=10"
  {
    SmallNumerals();
    ListEndpoint(c, 2, 10);
  }

  /** Without arguments a list asks for the first page of 20: offset 0 and limit 20. */
  lemma ListDefaults(c: Collection)
    ensures ListPage(c, None, None).endpoint == "/" + CollectionName(c) + "?offset=0&limit=20"
  {
    SmallNumerals();
    ListEndpoint(c, 1, 20);
  }

  function GetOne(c: Collection, id: string): ApiCall
  {
    ApiCall(Path([CollectionName(c), id]), NoOptions)
  }

  function CreateOne(c: Collection, data: JsValue): ApiCall
  {
    ApiCall(Path([CollectionName(c)]), WithBody(POST, data))
  }

  function UpdateOne(c: Collection, id: string, data: JsValue): ApiCall
  {
    ApiCall(Path([CollectionName(c), id]), WithBody(PUT, data))
  }

  function DeleteOne(c: Collection, id: string): ApiCall
  {
    ApiCall(Path([CollectionName(c), id]), WithMethod(DELETE))
  }

  /** get, update and delete address one resource path with the id as its last segment; create posts to the collection. */
  lemma ResourcePaths(c: Collection, id: string, data: JsValue)
    requires Segment(id)
    ensures PathSegments(GetOne(c, id).endpoint) == ["", CollectionName(c), id]
    ensures UpdateOne(c, id, data).endpoint == GetOne(c, id).endpoint == DeleteOne(c, id).endpoint
    ensures PathSegments(CreateOne(c, data).endpoint) == ["", CollectionName(c)]
  {
    Segments2(CollectionName(c), id);
    Segments1(CollectionName(c));
  }

  /** The resource calls differ in method and body: only create and update send the data. */
  lemma ResourceCalls(c: Collection, id: string, data: JsValue)
    ensures Send("", GetOne(c, id)).verb == GET && Send("", DeleteOne(c, id)).verb == DELETE
    ensures Send("", UpdateOne(c, id, data)).verb == PUT && Send("", CreateOne(c, data)).verb == POST
    ensures Send("", DeleteOne(c, id)).body.None? && Send("", GetOne(c, id)).body.None?
    ensures Truthy(data) ==> Send("", UpdateOne(c, id, data)).body == Send("", CreateOne(c, data)).body == Some(data)
  {
  }


  // stocktaking

  /** stocktaking.list: `?status=<s>` is appended only for a truthy status. */
  function StocktakingList(status: Option<string>): ApiCall
  {
    var path := Path(["stocktaking"]);
    ApiCall(if status.Some? && Truthy(Str(status.value)) then WithQuery(path, Pair("status", status.value)) else path,
            NoOptions)
  }

  /** The status filter reads back from the query when one is given; without one there is no query. */
  lemma StocktakingStatusQuery(status: string)
    requires status != "" && '&' !in status && ';' !in status
    ensures QueryGet(RawQuery(StocktakingList(Some(status)).endpoint), "status") == status
    ensures '?' !in StocktakingList(None).endpoint && '?' !in StocktakingList(Some("")).endpoint
  {
    OnePair(["stocktaking"], "status", status);
    JoinNoQuery(["", "stocktaking"]);
  }



  function StocktakingGet(id: string): ApiCall
  {
    ApiCall(Path(["stocktaking", id]), NoOptions)
  }

  /** stocktaking.create: the form data is sent unchanged, its keys still in camelCase. */
  function StocktakingCreate(locationId: string, scheduledDate: string): ApiCall
  {
    ApiCall(Path(["stocktaking"]), WithBody(POST, Obj([("locationId", Str(locationId)), ("scheduledDate", Str(scheduledDate))])))
  }

  /** stocktaking.updateItem: an omitted note is an undefined property, which JSON leaves out. */
  function StocktakingUpdateItem(stocktakingId: string, itemId: string, actualQuantity: int, note: Option<string>): ApiCall
  {
    ApiCall(Path(["stocktaking", stocktakingId, "items", itemId]),
            WithBody(PUT, Obj([("actualQuantity", Number(actualQuantity)),
                               ("note", if note.Some? then Str(note.value) else Undefined)])))
  }

  function StocktakingApprove(id: string): ApiCall
  {
    ApiCall(Path(["stocktaking", id, "approve"]), WithMethod(POST))
  }

  function StocktakingReject(id: string, reason: string): ApiCall
  {
    ApiCall(Path(["stocktaking", id, "reject"]), WithBody(POST, Obj([("reason", Str(reason))])))
  }

  /**
   * The stocktaking bodies: creation keeps camelCase keys, the item update carries the
   * count and the note (undefined when omitted), and only rejection of the two decisions
   * has a body.
   */
  lemma StocktakingBodies(id: string, itemId: string, qty: int, note: Option<string>, reason: string,
                          locationId: string, date: string)
    ensures Keys(StocktakingCreate(locationId, date).options.body) == ["locationId", "scheduledDate"]
    ensures Field(StocktakingCreate(locationId, date).options.body, "location_id") == Undefined
    ensures Field(StocktakingUpdateItem(id, itemId, qty, note).options.body, "actualQuantity") == Number(qty)
    ensures note.None? ==> Field(StocktakingUpdateItem(id, itemId, qty, note).options.body, "note") == Undefined
    ensures note.Some? ==> Field(StocktakingUpdateItem(id, itemId, qty, note).options.body, "note") == Str(note.value)
    ensures Send("", StocktakingUpdateItem(id, itemId, qty, note)).verb == PUT
    ensures Send("", StocktakingApprove(id)).verb == POST && Send("", StocktakingApprove(id)).body.None?
    ensures Send("", StocktakingReject(id, reason)).body.Some?
    ensures Field(StocktakingReject(id, reason).options.body, "reason") == Str(reason)
  {
    var fields := StocktakingUpdateItem(id, itemId, qty, note).options.body.fields;
    LookupDistinct(fields);
    assert fields[0].0 == "actualQuantity" && fields[1].0 == "note";
    LookupMeaning(StocktakingCreate(locationId, date).options.body.fields, "location_id");
  }

  /** The stocktaking and item ids land in their own segments; approval and rejection are siblings. */
  lemma StocktakingPaths(id: string, itemId: string, qty: int, note: Option<string>, reason: string)
    requires Segment(id) && Segment(itemId)
    ensures PathSegments(StocktakingGet(id).endpoint) == ["", "stocktaking", id]
    ensures PathSegments(StocktakingUpdateItem(id, itemId, qty, note).endpoint) == ["", "stocktaking", id, "items", itemId]
    ensures PathSegments(StocktakingApprove(id).endpoint) == ["", "stocktaking", id, "approve"]
    ensures PathSegments(StocktakingReject(id, reason).endpoint) == ["", "stocktaking", id, "reject"]
  {
    Segments2("stocktaking", id);
    Segments4("stocktaking", id, "items", itemId);
    Segments3("stocktaking", id, "approve");
    Segments3("stocktaking", id, "reject");
  }


  // lots

  function LotsGetByItem(itemId: string): ApiCall
  {
    ApiCall(Path(["lots", "item", itemId]), NoOptions)
  }

  function LotsGet(lotId: string): ApiCall
  {
    ApiCall(Path(["lots", lotId]), NoOptions)
  }

  /** lots.getExpiring(days = 14): the default applies only when days is omitted. */
  function LotsGetExpiring(days: Option<int>): ApiCall
  {
    ApiCall(WithQuery(Path(["lots", "expiring"]), Pair("days", NumberToString(if days.Some? then days.value else 14))),
            NoOptions)
  }

  const LotsGetExpired := ApiCall(Path(["lots", "expired"]), NoOptions)

  function LotsGetHistory(lotNumber: string): ApiCall
  {
    ApiCall(Path(["lots", lotNumber, "history"]), NoOptions)
  }

  /**
   * The lot paths put their ids in their own segments, and the fixed lot paths share
   * their shape with a lot lookup: the lot with id "expired" has the expired-lots path.
   */
  lemma LotPaths(lotId: string)
    requires Segment(lotId)
    ensures PathSegments(LotsGet(lotId).endpoint) == ["", "lots", lotId]
    ensures PathSegments(LotsGetByItem(lotId).endpoint) == ["", "lots", "item", lotId]
    ensures PathSegments(LotsGetHistory(lotId).endpoint) == ["", "lots", lotId, "history"]
    ensures LotsGet("expired") == LotsGetExpired
  {
    Segments2("lots", lotId);
    Segments3("lots", "item", lotId);
    Segments3("lots", lotId, "history");
  }

  /** The window reads back from the expiring-lots query. */
  lemma ExpiringQuery(days: int)
    ensures Numeral(QueryGet(RawQuery(LotsGetExpiring(Some(days)).endpoint), "days")) == Some(days)
  {
    NumberHasNoDelimiters(days);
    OnePair(["lots", "expiring"], "days", NumberToString(days));
    NumberRoundTrip(days);
  }


  /** users.list and the other lists default to page 1 and 20 rows only when an argument is omitted. */
  lemma PagingDefaults(c: Collection, page: Option<int>, pageSize: Option<int>)
    ensures ListPage(c, None, pageSize) == ListPage(c, Some(1), pageSize)
    ensures ListPage(c, page, None) == ListPage(c, page, Some(20))
  {
  }

  /** The alert location defaults to "all"; `limit || 50` and the status check also replace 0 and "". */
  lemma BuilderDefaults(itemId: string)
    ensures InventoryGetAlerts(None) == InventoryGetAlerts(Some("all"))
    ensures InventoryGetHistory(itemId, None) == InventoryGetHistory(itemId, Some(0)) == InventoryGetHistory(itemId, Some(50))
    ensures StocktakingList(Some("")) == StocktakingList(None)
  {
  }

  /** The expiry window defaults to 14 days only when omitted: a window of 0 is sent as 0. */
  lemma ExpiringDefault()
    ensures LotsGetExpiring(None) == LotsGetExpiring(Some(14))
    ensures LotsGetExpiring(Some(0)) != LotsGetExpiring(None)
  {
    assert NumberToString(0) == "0";
    assert |NumberToString(14)| == 2;
    assert |LotsGetExpiring(Some(0)).endpoint| < |LotsGetExpiring(None).endpoint|;
  }

  // roles

  const RolesList := ApiCall(Path(["roles"]), NoOptions)
}
