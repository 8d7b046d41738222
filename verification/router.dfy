/**
 * The worker's `fetch` entry point: a decision from the request's method and
 * pathname (and, for the two POST routes, its decoded body) and the custody
 * service's answers to an HTTP response, or to handing the request on to the
 * SSE or MCP transport.
 */
module Router {
  import opened Wrappers
  import opened Json
  import opened Accounts
  import opened Privy

  /** The `Content-Type` of the JSON responses, and the one a bare string body gets. */
  const JsonType := "application/json"
  const TextType := "text/plain;charset=UTF-8"

  datatype Response = Response(status: int, contentType: string, body: string)

  /** What `fetch` does with a request: serve it over SSE, over MCP, or answer it. */
  datatype Outcome = ServeSse | ServeMcp | Respond(response: Response)

  /**
   * The request body as `request.json()` and the destructuring after it see
   * it: the object's fields, or the message of the error that reading threw.
   */
  datatype Body = Fields(fields: map<string, Json>) | Unreadable(message: string)

  /** The request: its method (`request.method`), `url.pathname` and body. */
  datatype Request = Request(verb: string, pathname: string, body: Body)

  const MethodNotAllowed := Response(405, TextType, "Method Not Allowed")
  const NotFound := Response(404, TextType, "Not found")
  const WalletIdRequired := "Wallet ID is required"

  function JsonResponse(status: int, j: Json): Response {
    Response(status, JsonType, Stringify(j))
  }

  function ErrorResponse(status: int, message: string): Response {
    JsonResponse(status, ErrorObject(message))
  }

  /** `s.split(sep)`: the pieces between separators, always at least one. */
  function Split(s: string, sep: char): (parts: seq<string>)
    ensures |parts| >= 1
    ensures |parts| == 1 ==> parts[0] == s
    ensures sep !in s ==> parts == [s]
  {
    if s == [] then [""]
    else
      var rest := Split(s[1..], sep);
      if s[0] == sep then [""] + rest
      else [[s[0]] + rest[0]] + rest[1..]
  }

  /** `parts[i]`: `undefined` past the end. */
  function Element(parts: seq<string>, i: nat): Option<string> {
    if i < |parts| then Some(parts[i]) else None
  }

  /** The text of `s` before its first `sep`. */
  function Segment(s: string, sep: char): (r: string)
    ensures sep !in r
    ensures StartsWith(s, r)
    ensures |r| == |s| || s[|r|] == sep
  {
    if s == [] || s[0] == sep then "" else [s[0]] + Segment(s[1..], sep)
  }

  /** The segment of `id + suffix` is `id` when `id` holds no separator and `suffix` is empty or starts with one. */
  lemma {:induction false} SegmentOfPrefix(id: string, suffix: string)
    requires '/' !in id
    requires suffix == "" || suffix[0] == '/'
    ensures Segment(id + suffix, '/') == id
  {
    if id != [] {
      assert (id + suffix)[1..] == id[1..] + suffix;
      SegmentOfPrefix(id[1..], suffix);
      assert [id[0]] + id[1..] == id;
    } else {
      assert id + suffix == suffix;
    }
  }

  /** Splitting at a first separator puts what precedes it in a piece of its own. */
  lemma {:induction false} SplitAtSeparator(x: string, y: string, sep: char)
    requires sep !in x
    ensures Split(x + [sep] + y, sep) == [x] + Split(y, sep)
  {
    if x != [] {
      assert (x + [sep] + y)[1..] == x[1..] + [sep] + y;
      SplitAtSeparator(x[1..], y, sep);
      assert [x[0]] + x[1..] == x;
    } else {
      assert x + [sep] + y == [sep] + y;
    }
  }

  /** The first piece of a split is the text before the first separator. */
  lemma {:induction false} SplitFirst(s: string, sep: char)
    ensures Split(s, sep)[0] == Segment(s, sep)
  {
    if s != [] && s[0] != sep {
      SplitFirst(s[1..], sep);
    }
  }

  /** `url.pathname.split("/")[3]`, the wallet id the GET route reads. */
  function WalletIdOf(pathname: string): Option<string> {
    Element(Split(pathname, '/'), 3)
  }

  /**
   * Under `/v1/wallets/` the wallet id is always there, possibly empty: it is
   * the text after that prefix up to the next `/`.
   */
  lemma WalletIdIsSegment(rest: string)
    ensures WalletIdOf("/v1/wallets/" + rest) == Some(Segment(rest, '/'))
  {
    var p := "/v1/wallets/" + rest;
    assert p == "" + ['/'] + ("v1" + ['/'] + ("wallets" + ['/'] + rest));
    SplitAtSeparator("", "v1" + ['/'] + ("wallets" + ['/'] + rest), '/');
    SplitAtSeparator("v1", "wallets" + ['/'] + rest, '/');
    SplitAtSeparator("wallets", rest, '/');
    SplitFirst(rest, '/');
  }

  /** The answer to a wallet lookup: 500 on a throw, 404 on a falsy wallet, else 200 with the wallet. */
  function LookupResponse(call: Call<Json>): Response {
    match call
    case Threw(m) => ErrorResponse(500, m)
    case Returned(w) =>
      if !Truthy(Some(w)) then ErrorResponse(404, WalletNotFound) else JsonResponse(200, w)
  }

  /** GET under `/v1/wallets/`: 400 without an id, else the lookup of that id. */
  function GetWallet(pathname: string, privy: Client): Response {
    var walletId := WalletIdOf(pathname);
    if !Truthy(AsJson(walletId)) then ErrorResponse(400, WalletIdRequired)
    else LookupResponse(privy.getWallet(walletId.value))
  }

  /** A body field as a property read: `undefined` when absent. */
  function Field(fields: map<string, Json>, key: string): Option<Json> {
    if key in fields then Some(fields[key]) else None
  }

  /** The `createWallet` argument taken from the body `{ owner, chainType, idempotencyKey }`. */
  function CreationOf(fields: map<string, Json>): WalletCreation {
    WalletCreation(Field(fields, "owner"), Field(fields, "chainType"), Field(fields, "idempotencyKey"))
  }

  /** The `importUser` argument taken from the body `{ email, phone_number, external_id, metadata }`. */
  function ImportOf(fields: map<string, Json>): UserImport {
    UserImport(
      LinkedAccounts(Field(fields, "email"), Field(fields, "phone_number"), Field(fields, "external_id")),
      Field(fields, "metadata"))
  }

  /** POST `/v1/wallets`: 201 with the created wallet; any error thrown gives 400. */
  function CreateWallet(body: Body, privy: Client): Response {
    match body
    case Unreadable(m) => ErrorResponse(400, m)
    case Fields(f) =>
      match privy.createWallet(CreationOf(f))
      case Threw(m) => ErrorResponse(400, m)
      case Returned(w) => JsonResponse(201, w)
  }

  /** POST `/v1/users`: 201 with `{ userId }`; any error thrown gives 400. */
  function ImportUser(body: Body, privy: Client): Response {
    match body
    case Unreadable(m) => ErrorResponse(400, m)
    case Fields(f) =>
      match privy.importUser(ImportOf(f))
      case Threw(m) => ErrorResponse(400, m)
      case Returned(id) => JsonResponse(201, UserRef(id))
  }

  /**
   * `fetch`. Every answer is one of six statuses; a plain-text answer is only
   * ever the routing 404 or 405, and every other answer is JSON.
   */
  function Fetch(req: Request, privy: Client): (r: Outcome)
    ensures r.Respond? ==> r.response.status in {200, 201, 400, 404, 405, 500}
    ensures r.Respond? ==> r.response.contentType in {JsonType, TextType}
    ensures r.Respond? && r.response.contentType == TextType ==> r.response in {NotFound, MethodNotAllowed}
  {
    var path := req.pathname;
    if path == "/sse" || path == "/sse/message" then ServeSse
    else if path == "/mcp" then ServeMcp
    else if StartsWith(path, "/v1/wallets/") then
      if req.verb == "GET" then Respond(GetWallet(path, privy)) else Respond(MethodNotAllowed)
    else if StartsWith(path, "/v1/") then
      if req.verb == "POST" then
        if path == "/v1/wallets" then Respond(CreateWallet(req.body, privy))
        else if path == "/v1/users" then Respond(ImportUser(req.body, privy))
        else Respond(NotFound)
      else Respond(MethodNotAllowed)
    else Respond(NotFound)
  }

  /** A path under `/v1/` is none of the transport paths, and `/v1/wallets/` lies under `/v1/`. */
  lemma ApiPaths(p: string)
    ensures StartsWith(p, "/v1/") ==> p !in {"/sse", "/sse/message", "/mcp"}
    ensures StartsWith(p, "/v1/wallets/") ==> StartsWith(p, "/v1/")
  {
    assert StartsWith(p, "/v1/") ==> p[1] == "/v1/"[1];
    assert StartsWith(p, "/v1/wallets/") ==> p[..4] == "/v1/wallets/"[..4];
  }

  /** The exact bodies of the two fixed JSON errors of the GET route. */
  lemma FixedErrorBody(status: int, message: string)
    requires message == WalletIdRequired || message == WalletNotFound
    ensures ErrorResponse(status, message).body == "{\"error\":\"" + message + "\"}"
  {
    assert Plain(message);
    ErrorObjectText(message);
  }

  /** Only `/sse` and `/sse/message` go to the SSE transport, and only `/mcp` to the MCP one, whatever the method. */
  lemma TransportPaths(req: Request, privy: Client)
    ensures Fetch(req, privy) == ServeSse <==> req.pathname in {"/sse", "/sse/message"}
    ensures Fetch(req, privy) == ServeMcp <==> req.pathname == "/mcp"
  {
  }

  /**
   * A GET under `/v1/wallets/` whose id segment is empty is answered 400
   * `{"error":"Wallet ID is required"}` whatever the custody service would say,
   * so no lookup happens.
   */
  lemma MissingWalletId(rest: string, body: Body, privy: Client)
    requires Segment(rest, '/') == ""
    ensures Fetch(Request("GET", "/v1/wallets/" + rest, body), privy)
            == Respond(Response(400, JsonType, "{\"error\":\"" + WalletIdRequired + "\"}"))
  {
    var path := "/v1/wallets/" + rest;
    WalletIdIsSegment(rest);
    assert StartsWith(path, "/v1/wallets/");
    ApiPaths(path);
    FixedErrorBody(400, WalletIdRequired);
    assert GetWallet(path, privy) == ErrorResponse(400, WalletIdRequired);
  }

  /**
   * A GET `/v1/wallets/{id}[/...]` with a non-empty id looks up that id only:
   * 404 `{"error":"Wallet not found"}` for a falsy wallet, 200 with the
   * wallet's JSON, or 500 with the thrown message.
   */
  lemma WalletLookup(id: string, suffix: string, body: Body, privy: Client)
    requires id != "" && '/' !in id
    requires suffix == "" || suffix[0] == '/'
    ensures Fetch(Request("GET", "/v1/wallets/" + id + suffix, body), privy) == Respond(match privy.getWallet(id)
      case Threw(m) => ErrorResponse(500, m)
      case Returned(w) =>
        if Truthy(Some(w)) then Response(200, JsonType, Stringify(w))
        else Response(404, JsonType, "{\"error\":\"" + WalletNotFound + "\"}"))
  {
    var rest := id + suffix;
    SegmentOfPrefix(id, suffix);
    var path := "/v1/wallets/" + rest;
    WalletIdIsSegment(rest);
    assert "/v1/wallets/" + id + suffix == path;
    assert StartsWith(path, "/v1/wallets/");
    ApiPaths(path);
    FixedErrorBody(404, WalletNotFound);
    assert GetWallet(path, privy) == LookupResponse(privy.getWallet(id));
  }

  /** Any method but GET under `/v1/wallets/` is answered 405. */
  lemma WalletsOnlyGet(req: Request, privy: Client)
    requires StartsWith(req.pathname, "/v1/wallets/") && req.verb != "GET"
    ensures Fetch(req, privy) == Respond(MethodNotAllowed)
  {
    ApiPaths(req.pathname);
  }

  /** Any method but POST on another `/v1/` path is answered 405, even on a path that would be 404. */
  lemma ApiOnlyPost(req: Request, privy: Client)
    requires StartsWith(req.pathname, "/v1/") && !StartsWith(req.pathname, "/v1/wallets/")
    requires req.verb != "POST"
    ensures Fetch(req, privy) == Respond(MethodNotAllowed)
  {
    ApiPaths(req.pathname);
  }

  /**
   * POST `/v1/wallets` passes the body's `owner`, `chainType` and
   * `idempotencyKey` on as they are: 201 with the wallet, else 400 with the
   * message of whatever threw.
   */
  lemma CreateWalletRoute(body: Body, privy: Client)
    ensures Fetch(Request("POST", "/v1/wallets", body), privy) == Respond(match body
      case Unreadable(m) => ErrorResponse(400, m)
      case Fields(f) =>
        match privy.createWallet(WalletCreation(Field(f, "owner"), Field(f, "chainType"), Field(f, "idempotencyKey")))
        case Threw(m) => ErrorResponse(400, m)
        case Returned(w) => Response(201, JsonType, Stringify(w)))
  {
    assert !StartsWith("/v1/wallets", "/v1/wallets/");
    assert StartsWith("/v1/wallets", "/v1/");
  }

  /**
   * POST `/v1/users` imports a user with the linked accounts of the body's
   * truthy fields: 201 with `{ userId }`, else 400 with the message.
   */
  lemma ImportUserRoute(body: Body, privy: Client)
    ensures Fetch(Request("POST", "/v1/users", body), privy) == Respond(match body
      case Unreadable(m) => ErrorResponse(400, m)
      case Fields(f) =>
        match privy.importUser(UserImport(
          LinkedAccounts(Field(f, "email"), Field(f, "phone_number"), Field(f, "external_id")), Field(f, "metadata")))
        case Threw(m) => ErrorResponse(400, m)
        case Returned(id) => Response(201, JsonType, Stringify(UserRef(id))))
  {
    assert !StartsWith("/v1/users", "/v1/wallets/");
    assert StartsWith("/v1/users", "/v1/");
  }

  /** A POST to any other `/v1/` path is 404. */
  lemma UnknownApiPath(req: Request, privy: Client)
    requires StartsWith(req.pathname, "/v1/") && !StartsWith(req.pathname, "/v1/wallets/")
    requires req.pathname != "/v1/wallets" && req.pathname != "/v1/users"
    requires req.verb == "POST"
    ensures Fetch(req, privy) == Respond(NotFound)
  {
    ApiPaths(req.pathname);
  }

  /** Every path outside `/sse`, `/sse/message`, `/mcp` and `/v1/` is 404, whatever the method. */
  lemma OutsideRoutes(req: Request, privy: Client)
    requires req.pathname !in {"/sse", "/sse/message", "/mcp"} && !StartsWith(req.pathname, "/v1/")
    ensures Fetch(req, privy) == Respond(NotFound)
  {
    ApiPaths(req.pathname);
  }
}
