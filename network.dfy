/** The closed set of chains the library knows about. */
module Networks {
  /** The two testnet protocol versions. */
  datatype TestnetVersion = V3 | V4

  /** A chain variant: main chain, a testnet, signet or regtest. */
  datatype Network = Bitcoin | Testnet(version: TestnetVersion) | Signet | Regtest
}
