# Privy wallet worker: request dispatch and payload shaping

This project models the dispatch logic of a Cloudflare worker that exposes Privy custodial-wallet
operations on two surfaces:

- **The MCP tool surface** (`MyMCP.init`). It has four tools: `get_wallet_address`,
  `get_wallet_details`, `create_wallet` and `import_user`. Each tool answers with one text block.
- **The HTTP surface** (the default export's `fetch`). It routes on method and pathname: to the SSE
  or MCP transport, to a wallet lookup, to wallet creation or to user import. Otherwise it answers
  with a fixed 400, 404 or 405.

The Privy SDK is not modelled. A `Privy.Client` value stands for it. It holds three total functions
(`getWallet`, `createWallet`, `importUser`), and each one gives either the value the awaited call
resolves to or the message of the error it throws. Given a client, every handler is a pure function.

Modules, one per concern:

- `Json` (json.dfy): JSON values, JavaScript truthiness, and `JSON.stringify` with its string escapes.
  HTTP bodies and tool texts are therefore exact strings.
- `Accounts` (accounts.dfy): the `linkedAccounts` list built by both `import_user` handlers. It has a
  method that performs the conditional pushes and a function it is proved equal to. A declarative
  description is proved to determine the list.
- `Privy` (privy.dfy): the SDK call arguments and the client oracle.
- `Address` (address.dfy): the mock address, `"0x" + userId.slice(0, 40).padEnd(40, '0')`.
- `Tools` (tools.dfy): the four tool handlers.
- `Router` (router.dfy): `fetch`, and one lemma per routing rule.
- `Surfaces` (surfaces.dfy): for the same logical request, both surfaces make the same Privy call and
  carry the same payload, except for an empty wallet id (see below).

The model follows the code of `src/index.ts`. That file has no balance, transactions, key-quorum,
signing or `/v1/wallets/{id}/rpc` route, and `get_wallet_address` makes no lookup: it only
computes a mock address, and every GET under `/v1/wallets/` is a wallet
lookup of path segment 3. So `/v1/wallets/abc/balance` looks up wallet `abc`.

Some behaviour of the code as written, which the lemmas state:

- `POST /v1/wallets/` (with the slash) is answered 405, because the GET-only branch is checked first.
- `GET /v1/wallets` (without the slash) is also 405.
- The body of `POST /v1/wallets` is passed to Privy without validation.
- An empty wallet id is handled differently on the two surfaces. `get_wallet_details` with `walletId: ""`
  calls `getWallet("")` and reports the answer. `GET /v1/wallets/` answers 400 without a lookup.
- A wallet id containing `/` reaches `getWallet` whole from the tool. Over HTTP only the text before
  the first `/` is looked up.

## Model

| member | source | states |
|---|---|---|
| `Router.Fetch` | src/index.ts:137-253 | every answer is 200, 201, 400, 404, 405 or 500; a plain-text answer is only the routing 404 "Not found" or the 405 "Method Not Allowed", and every other answer is `application/json` |
| `Router.TransportPaths` | src/index.ts:144-150 | exactly `/sse` and `/sse/message` go to the SSE transport and exactly `/mcp` to the MCP transport, for any method, before any `/v1/` rule |
| `Router.Split` | src/index.ts:157 | `split("/")` always gives at least one piece, and a string without separators gives itself |
| `Router.SplitAtSeparator` | src/index.ts:157 | splitting `x + "/" + y`, where `x` has no `/`, gives `x` followed by the pieces of `y` |
| `Router.SplitFirst` | src/index.ts:157 | the first piece of a split is the text before the first `/` |
| `Router.WalletIdIsSegment` | src/index.ts:153-157 | for any path `/v1/wallets/` + rest, `split("/")[3]` exists and is the text of rest up to its first `/` |
| `Router.SegmentOfPrefix` | src/index.ts:157 | the segment of `id + suffix` is `id` when `id` has no `/` and the suffix is empty or starts with `/` |
| `Router.MissingWalletId` | src/index.ts:157-163 | a GET under `/v1/wallets/` with an empty id segment gives 400 `{"error":"Wallet ID is required"}` for every client, so no lookup happens |
| `Router.FixedErrorBody` | src/index.ts:159-169 | the two fixed errors are written `{"error":"<message>"}` |
| `Router.WalletLookup` | src/index.ts:157-179 | GET `/v1/wallets/{id}[/...]` with a non-empty id depends only on `getWallet(id)`: a falsy wallet gives 404 `{"error":"Wallet not found"}`, a wallet gives 200 with its JSON, and a throw gives 500 `{"error":message}` |
| `Router.WalletsOnlyGet` | src/index.ts:153-183 | any method other than GET under `/v1/wallets/` gives 405 |
| `Router.ApiOnlyPost` | src/index.ts:184-248 | any method other than POST on another `/v1/` path gives 405, including paths a POST would get 404 for |
| `Router.CreateWalletRoute` | src/index.ts:188-205 | POST `/v1/wallets` passes the body's `owner`, `chainType` and `idempotencyKey` on unchanged; the created wallet gives 201 with its JSON; an unreadable body or a throw gives 400 with the message |
| `Router.ImportUserRoute` | src/index.ts:206-242 | POST `/v1/users` imports a user with the linked accounts of the body's fields and its metadata; the result gives 201 `{"userId":...}`; an unreadable body or a throw gives 400 with the message |
| `Router.UnknownApiPath` | src/index.ts:243-244 | a POST to any other path under `/v1/` gives 404 |
| `Router.OutsideRoutes` | src/index.ts:251-252 | every path outside `/sse`, `/sse/message`, `/mcp` and `/v1/` gives 404, whatever the method |
| `Accounts.Build` | src/index.ts:112-121 | the conditional pushes (the same code as src/index.ts:218-227) produce `LinkedAccounts(email, phone, external_id)`, with at most three entries |
| `Accounts.LinkedAccountsSize` | src/index.ts:112-121 | the list has one entry per truthy field, so at most three, and none when no field is truthy |
| `Accounts.LinkedAccountsDescribed` | src/index.ts:112-121 | the list is ordered email, phone, custom_auth; an entry of a kind is present exactly when its field is truthy, and it carries that field's value |
| `Accounts.OrderedUnique` | src/index.ts:112-121 | two kind-ordered lists with the same entries are equal |
| `Accounts.LinkedAccountsCharacterized` | src/index.ts:112-121 | a list meets that description if and only if it is the built list |
| `Accounts.StringFieldsIncluded` | src/index.ts:102-121 | for the tool's string fields, an entry of a kind is present exactly when its string is non-empty |
| `Address.MockAddress` | src/index.ts:51 | the address has 42 characters and starts with `0x`; position `2+i` holds `userId[i]` for `i < min(len, 40)`, and `'0'` after that |
| `Address.Slice` | src/index.ts:51 | `slice(start, end)` with clamped indices: its length, and that it copies `s` from `start` |
| `Address.PadEnd` | src/index.ts:51 | `padEnd(n, c)` keeps `s` as a prefix, has length `max(len, n)`, and fills the rest with `c` |
| `Address.MockAddressEqual` | src/index.ts:51 | two user ids get the same address if and only if they agree on the first forty positions, where a missing character counts as `'0'` |
| `Address.MockAddressOfLongId` | src/index.ts:51 | an id of forty characters or more gives `"0x"` followed by its first forty characters |
| `Tools.GetWalletAddress` | src/index.ts:46-54 | one text block, exactly `Wallet address for <userId>: ` followed by the 42-character mock address |
| `Tools.GetWalletDetails` | src/index.ts:56-73 | one text block; it starts with `Error fetching wallet details: ` if and only if `getWallet` threw, and then ends with its message; a falsy wallet gives `Wallet not found`, and a found wallet gives its JSON text |
| `Tools.CreateWallet` | src/index.ts:75-97 | one text block; it starts with `Error creating wallet: ` if and only if `createWallet` threw, and then ends with its message; otherwise it is the created wallet's JSON text |
| `Tools.ImportUser` | src/index.ts:99-132 | one text block; it starts with `Error importing user: ` if and only if `importUser` threw, and then ends with its message; otherwise it is `{"userId":...}` with the imported id |
| `Tools.ErrorPrefixesDistinct` | src/index.ts:69-130 | no text starts with two of the three error prefixes, so an error text identifies its tool |
| `Surfaces.WalletDetailsAgree` | src/index.ts:60-70 | `get_wallet_details` and GET `/v1/wallets/{id}`: for a found wallet the tool text equals the 200 body; "Wallet not found" and a thrown message reach both surfaces unchanged |
| `Surfaces.EmptyWalletIdDiffers` | src/index.ts:56-70 | for an empty wallet id, `GET /v1/wallets/` answers 400 `{"error":"Wallet ID is required"}` for every client, while `get_wallet_details` reports what `getWallet("")` answers |
| `Surfaces.CreateWalletAgree` | src/index.ts:87-92 | `create_wallet` and POST `/v1/wallets` with the corresponding body make the identical `createWallet` call; the tool text equals the 201 body, and a throw gives the same message on both |
| `Surfaces.ImportUserAgree` | src/index.ts:218-233 | `import_user` and POST `/v1/users` with the corresponding body build identical `linkedAccounts` and make the identical `importUser` call; the tool text equals the 201 body |
| `Json.Stringify` | src/index.ts:68 | `JSON.stringify` output is never empty; its first character is one that can begin a JSON value, and an object's text is enclosed in braces |
| `Json.StringifyAvoidsPrefix` | src/index.ts:68-70 | no JSON text starts with `Error ...`, so a success text can never be read as an error text |
| `Json.EscapePlain` | src/index.ts:176 | a string without quotes, backslashes or control characters is written unchanged inside its quotes |
| `Json.EscapeLength` | src/index.ts:176 | escaping never shortens a string, and it keeps the length exactly when no character needs an escape |
| `Json.ErrorObjectText` | src/index.ts:176 | `{ error: message }` is written `{"error":"<message>"}` for a message that needs no escapes |

## Left out

- The Privy SDK (`getWallet`, `createWallet`, `importUser`) is an oracle parameter. Its results and its wire behaviour are not modelled.
- Creating a `PrivyClient` is not modelled, neither in `fetch` (line 141) nor in each tool. Neither is a throw from that constructor: in `fetch` it happens outside any `try`.
- The SSE and MCP transports (`serveSSE`, `serve`) appear only as the outcomes `ServeSse` and `ServeMcp`. The MCP server registration and the zod schemas are not modelled. Tool arguments arrive already checked: `ChainType` is the enum, and optional fields are `Option`.
- `Request`, `URL`, `Response` and `console.log` are I/O. The model takes the method, `url.pathname` as given (no URL normalisation) and the body.
- `Body.Unreadable` stands for both ways reading the body can throw: `request.json()` rejecting, and destructuring a `null` body. A non-object body destructures to no fields, and the model shows that as an empty field map.
- `Body.Unreadable`: the model gives one error message per body. For a `null` body the source's message names the route's destructured variable (`owner` on `POST /v1/wallets`, `email` on `POST /v1/users`), so the two routes' messages can differ; no lemma relates the two.
- `Json.JObj`: the member order is taken as given. JavaScript enumerates integer-like keys first, in ascending order, and an object cannot repeat a key; the model does not enforce either.
- A response is modelled as its status, its `Content-Type` and its body text. Other headers are left out.
- `Router.ImportUser`, `Tools.ImportUser`: `importUser` is modelled as resolving to the user's id string. A resolved value without `id`, which would give `{}` on both surfaces, is not modelled.
- `Router.CreateWallet`, `Tools.CreateWallet`: a `createWallet` that resolves to `undefined` is not modelled. It would give an empty 201 body over HTTP and the text `undefined` from the tool.
- `Privy.Call`: a thrown value that is not an `Error` has an `undefined` message in the source. The model always carries a string message.
- `Json.Stringify`: numbers are integers. Non-integral numbers and the exponent form `JSON.stringify` uses from 10^21 on are not modelled.
- `Address.MockAddress`: lengths count Unicode scalar values, while JavaScript's `slice` and `padEnd` count UTF-16 code units. The two agree for user ids without characters outside the Basic Multilingual Plane.
- Balance, transactions, key quorums, signing and the RPC route are not part of this source file, so they are not modelled.
