/**
 * The three Privy SDK calls the worker awaits, seen only through what they
 * resolve to or throw. The SDK itself is not part of this model: a `Client`
 * stands for whatever the custody service answers.
 */
module Privy {
  import opened Wrappers
  import opened Json
  import opened Accounts

  /** What an awaited SDK call gives back: its value, or the `message` of the error it threw. */
  datatype Call<T> = Returned(value: T) | Threw(message: string)

  /** The argument of `walletApi.createWallet`; each field is passed on exactly as it was read. */
  datatype WalletCreation = WalletCreation(owner: Option<Json>, chainType: Option<Json>, idempotencyKey: Option<Json>)

  /** The argument of `importUser`. */
  datatype UserImport = UserImport(linkedAccounts: seq<LinkedAccount>, customMetadata: Option<Json>)

  /**
   * The custody service as an oracle: `getWallet` by id (a wallet object, or a
   * falsy value when there is none), `createWallet`, and `importUser`, which
   * gives the new user's id.
   */
  datatype Client = Client(
    getWallet: string -> Call<Json>,
    createWallet: WalletCreation -> Call<Json>,
    importUser: UserImport -> Call<string>)

  /** The text both surfaces give when `getWallet` answers with a falsy value. */
  const WalletNotFound := "Wallet not found"

  /** The chain types the `create_wallet` tool accepts. */
  datatype ChainType = Cosmos | Stellar | Sui | Tron | Solana | Ethereum

  /** The string the tool's enum schema uses for a chain type. */
  function ChainName(c: ChainType): string {
    match c
    case Cosmos => "cosmos"
    case Stellar => "stellar"
    case Sui => "sui"
    case Tron => "tron"
    case Solana => "solana"
    case Ethereum => "ethereum"
  }

  /**
   * `{ userId }`: the owner of a wallet the tool creates, and the answer of
   * both import handlers.
   */
  function UserRef(userId: string): Json {
    JObj([("userId", JStr(userId))])
  }
}
