/**
 * The tool surface and the HTTP surface side by side: for the same logical
 * request they make the same call to the custody service and carry the same
 * payload, in their own envelopes. The one exception is an empty wallet id,
 * which the tool looks up and the HTTP surface refuses.
 */
module Surfaces {
  import opened Wrappers
  import opened Json
  import opened Accounts
  import opened Privy
  import opened Tools
  import opened Router

  /**
   * `get_wallet_details` and GET `/v1/wallets/{id}`: the tool's text is the
   * HTTP body of a found wallet; on "Wallet not found" and on a throw both
   * carry the same message.
   */
  lemma WalletDetailsAgree(id: string, body: Body, privy: Client)
    requires id != "" && '/' !in id
    ensures var http := Fetch(Request("GET", "/v1/wallets/" + id, body), privy);
      var text := Tools.GetWalletDetails(id, privy).content[0].text;
      && http.Respond?
      && match privy.getWallet(id)
        case Threw(m) => http.response == ErrorResponse(500, m) && text == DetailsErrorPrefix + m
        case Returned(w) =>
          if Truthy(Some(w)) then http.response == Response(200, JsonType, text)
          else http.response == ErrorResponse(404, text)
  {
    assert "/v1/wallets/" + id + "" == "/v1/wallets/" + id;
    WalletLookup(id, "", body, privy);
  }

  /**
   * An empty wallet id: `get_wallet_details` still calls `getWallet("")` and
   * reports what it answers, while GET `/v1/wallets/` answers 400 without a
   * lookup, whatever the client.
   */
  lemma EmptyWalletIdDiffers(body: Body, privy: Client)
    ensures Fetch(Request("GET", "/v1/wallets/", body), privy)
            == Respond(Response(400, JsonType, "{\"error\":\"" + WalletIdRequired + "\"}"))
    ensures var text := Tools.GetWalletDetails("", privy).content[0].text;
      match privy.getWallet("")
      case Threw(m) => text == DetailsErrorPrefix + m
      case Returned(w) => text == if Truthy(Some(w)) then Stringify(w) else WalletNotFound
  {
    assert "/v1/wallets/" + "" == "/v1/wallets/";
    MissingWalletId("", body, privy);
  }

  /** The HTTP body that asks for what the tool's arguments ask for. */
  function CreateBody(args: CreateWalletArgs): map<string, Json> {
    var fields := map["owner" := UserRef(args.userId), "chainType" := JStr(ChainName(args.chainType))];
    match args.idempotencyKey
    case None => fields
    case Some(k) => fields["idempotencyKey" := JStr(k)]
  }

  /**
   * `create_wallet` and POST `/v1/wallets` with the corresponding body make
   * the same `createWallet` call; the tool's text is the 201 body, and a throw
   * gives the same message on both.
   */
  lemma CreateWalletAgree(args: CreateWalletArgs, privy: Client)
    ensures CreationOf(CreateBody(args)) == CreationFor(args)
    ensures var http := Fetch(Request("POST", "/v1/wallets", Fields(CreateBody(args))), privy);
      var text := Tools.CreateWallet(args, privy).content[0].text;
      match privy.createWallet(CreationFor(args))
      case Threw(m) => http == Respond(ErrorResponse(400, m)) && text == CreateErrorPrefix + m
      case Returned(w) => http == Respond(Response(201, JsonType, text))
  {
    assert CreationOf(CreateBody(args)) == CreationFor(args);
    CreateWalletRoute(Fields(CreateBody(args)), privy);
  }

  /** Adds `key` to the body when the optional value is present. */
  function With(fields: map<string, Json>, key: string, value: Option<Json>): map<string, Json> {
    match value
    case None => fields
    case Some(v) => fields[key := v]
  }

  /** The HTTP body that asks for what the tool's arguments ask for. */
  function ImportBody(args: ImportUserArgs): map<string, Json> {
    With(With(With(With(map[], "email", AsJson(args.email)), "phone_number", AsJson(args.phoneNumber)),
      "external_id", AsJson(args.externalId)), "metadata", args.metadata)
  }

  /**
   * `import_user` and POST `/v1/users` with the corresponding body build the
   * identical `linkedAccounts` list and make the same `importUser` call; the
   * tool's text is the 201 body, and a throw gives the same message on both.
   */
  lemma ImportUserAgree(args: ImportUserArgs, privy: Client)
    ensures ImportOf(ImportBody(args)).linkedAccounts == ImportFor(args).linkedAccounts
    ensures ImportOf(ImportBody(args)) == ImportFor(args)
    ensures var http := Fetch(Request("POST", "/v1/users", Fields(ImportBody(args))), privy);
      var text := Tools.ImportUser(args, privy).content[0].text;
      match privy.importUser(ImportFor(args))
      case Threw(m) => http == Respond(ErrorResponse(400, m)) && text == ImportErrorPrefix + m
      case Returned(id) => http == Respond(Response(201, JsonType, text))
  {
    var f := ImportBody(args);
    assert Field(f, "email") == AsJson(args.email);
    assert Field(f, "phone_number") == AsJson(args.phoneNumber);
    assert Field(f, "external_id") == AsJson(args.externalId);
    assert Field(f, "metadata") == args.metadata;
    ImportUserRoute(Fields(f), privy);
  }
}
