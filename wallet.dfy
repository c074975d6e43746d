/** What the wallet connector reports to the application. The connector
    itself (wagmi and RainbowKit) is not modelled: its state is an input. */
module Wallet {
  import opened Outcomes

  /** What `useAccount` returns: the connection flag and the account address
      (`undefined` while there is none). */
  datatype Account = Account(isConnected: bool, address: Option<string>)

  /** JavaScript truthiness of an optional string: present and non-empty. */
  predicate Present(s: Option<string>)
  {
    s.Some? && s.value != ""
  }

  /** Whether `useWalletClient` and `usePublicClient` returned a client. */
  datatype Clients = Clients(hasWalletClient: bool, hasPublicClient: bool)

  /** The guard shared by the coin and NFT creation hooks: connected, with an
      address, a wallet client and a public client. */
  predicate ReadyToCreate(account: Account, clients: Clients)
  {
    account.isConnected && Present(account.address)
    && clients.hasWalletClient && clients.hasPublicClient
  }
}
