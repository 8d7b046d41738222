/**
 * The four tools `MyMCP.init` registers. Each handler answers with exactly one
 * text block; an error thrown by the SDK is caught and written into that block
 * after a fixed, per-tool prefix.
 */
module Tools {
  import opened Wrappers
  import opened Json
  import opened Accounts
  import opened Privy
  import opened Address

  /** `{ type: "text", text }`. */
  datatype Content = Text(text: string)

  /** `{ content: [...] }`, what a tool handler resolves to. */
  datatype ToolResult = ToolResult(content: seq<Content>)

  function TextResult(text: string): ToolResult {
    ToolResult([Text(text)])
  }

  const DetailsErrorPrefix := "Error fetching wallet details: "
  const CreateErrorPrefix := "Error creating wallet: "
  const ImportErrorPrefix := "Error importing user: "

  /** The arguments of `create_wallet`, already checked against its schema. */
  datatype CreateWalletArgs = CreateWalletArgs(userId: string, chainType: ChainType, idempotencyKey: Option<string>)

  /** The arguments of `import_user`, already checked against its schema. */
  datatype ImportUserArgs = ImportUserArgs(
    email: Option<string>, phoneNumber: Option<string>, externalId: Option<string>, metadata: Option<Json>)

  /**
   * `get_wallet_address`: no SDK call; the text names the user and ends with
   * the 42-character mock address.
   */
  function GetWalletAddress(userId: string): (r: ToolResult)
    ensures |r.content| == 1
    ensures StartsWith(r.content[0].text, "Wallet address for " + userId + ": ")
    ensures var t := r.content[0].text;
      |t| >= 2 + Width && t[|t| - (2 + Width)..] == MockAddress(userId)
    ensures |r.content[0].text| == |"Wallet address for " + userId + ": "| + 2 + Width
  {
    var t := "Wallet address for " + userId + ": " + MockAddress(userId);
    assert t[|t| - (2 + Width)..] == MockAddress(userId);
    TextResult(t)
  }

  /**
   * `get_wallet_details`: the text starts with the error prefix exactly when
   * `getWallet` threw, and then carries its message; a falsy answer gives
   * "Wallet not found", and a found wallet gives its JSON text.
   */
  function GetWalletDetails(walletId: string, privy: Client): (r: ToolResult)
    ensures |r.content| == 1
    ensures StartsWith(r.content[0].text, DetailsErrorPrefix) <==> privy.getWallet(walletId).Threw?
    ensures privy.getWallet(walletId).Threw? ==>
      r.content[0].text == DetailsErrorPrefix + privy.getWallet(walletId).message
    ensures privy.getWallet(walletId).Returned? && !Truthy(Some(privy.getWallet(walletId).value)) ==>
      r.content[0].text == WalletNotFound
    ensures privy.getWallet(walletId).Returned? && Truthy(Some(privy.getWallet(walletId).value)) ==>
      r.content[0].text == Stringify(privy.getWallet(walletId).value)
  {
    match privy.getWallet(walletId)
    case Threw(m) => TextResult(DetailsErrorPrefix + m)
    case Returned(w) =>
      if !Truthy(Some(w)) then TextResult(WalletNotFound)
      else
        StringifyAvoidsPrefix(w, DetailsErrorPrefix);
        TextResult(Stringify(w))
  }

  /** The `createWallet` argument the tool builds: owner `{ userId }`, the chain's name, the key if given. */
  function CreationFor(args: CreateWalletArgs): WalletCreation {
    WalletCreation(Some(UserRef(args.userId)), Some(JStr(ChainName(args.chainType))), AsJson(args.idempotencyKey))
  }

  /**
   * `create_wallet`: the text starts with the error prefix exactly when
   * `createWallet` threw, and then carries its message; otherwise it is the
   * created wallet's JSON text.
   */
  function CreateWallet(args: CreateWalletArgs, privy: Client): (r: ToolResult)
    ensures |r.content| == 1
    ensures StartsWith(r.content[0].text, CreateErrorPrefix) <==> privy.createWallet(CreationFor(args)).Threw?
    ensures privy.createWallet(CreationFor(args)).Threw? ==>
      r.content[0].text == CreateErrorPrefix + privy.createWallet(CreationFor(args)).message
    ensures privy.createWallet(CreationFor(args)).Returned? ==>
      r.content[0].text == Stringify(privy.createWallet(CreationFor(args)).value)
  {
    match privy.createWallet(CreationFor(args))
    case Threw(m) => TextResult(CreateErrorPrefix + m)
    case Returned(w) =>
      StringifyAvoidsPrefix(w, CreateErrorPrefix);
      TextResult(Stringify(w))
  }

  /** The `importUser` argument the tool builds: the linked accounts of its three string fields. */
  function ImportFor(args: ImportUserArgs): UserImport {
    UserImport(LinkedAccounts(AsJson(args.email), AsJson(args.phoneNumber), AsJson(args.externalId)), args.metadata)
  }

  /**
   * `import_user`: the text starts with the error prefix exactly when
   * `importUser` threw, and then carries its message; otherwise it is
   * `{"userId":...}` with the imported user's id.
   */
  function ImportUser(args: ImportUserArgs, privy: Client): (r: ToolResult)
    ensures |r.content| == 1
    ensures StartsWith(r.content[0].text, ImportErrorPrefix) <==> privy.importUser(ImportFor(args)).Threw?
    ensures privy.importUser(ImportFor(args)).Threw? ==>
      r.content[0].text == ImportErrorPrefix + privy.importUser(ImportFor(args)).message
    ensures privy.importUser(ImportFor(args)).Returned? ==>
      r.content[0].text == Stringify(UserRef(privy.importUser(ImportFor(args)).value))
  {
    match privy.importUser(ImportFor(args))
    case Threw(m) => TextResult(ImportErrorPrefix + m)
    case Returned(id) =>
      StringifyAvoidsPrefix(UserRef(id), ImportErrorPrefix);
      TextResult(Stringify(UserRef(id)))
  }

  /**
   * The three error prefixes are pairwise distinct and none is a prefix of
   * another, so an error text names the tool it came from.
   */
  lemma ErrorPrefixesDistinct(t: string)
    ensures !(StartsWith(t, DetailsErrorPrefix) && StartsWith(t, CreateErrorPrefix))
    ensures !(StartsWith(t, DetailsErrorPrefix) && StartsWith(t, ImportErrorPrefix))
    ensures !(StartsWith(t, CreateErrorPrefix) && StartsWith(t, ImportErrorPrefix))
  {
    assert StartsWith(t, DetailsErrorPrefix) ==> t[6] == DetailsErrorPrefix[6] == 'f';
    assert StartsWith(t, CreateErrorPrefix) ==> t[6] == CreateErrorPrefix[6] == 'c';
    assert StartsWith(t, ImportErrorPrefix) ==> t[6] == ImportErrorPrefix[6] == 'i';
  }
}
