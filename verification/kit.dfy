/** The MarketKit value types the modelled screens read. Only the fields that
    the modelled code touches are kept. */
module Kit {

  /** The chain a token or a restore setting belongs to. The chains the modelled
      code distinguishes are named; every other chain is `OtherChain`. */
  datatype BlockchainType =
    | Ethereum
    | BinanceSmartChain
    | Bitcoin
    | BitcoinCash
    | Litecoin
    | OtherChain(uid: string)

  datatype Blockchain = Blockchain(blockchainType: BlockchainType, name: string)

  datatype Coin = Coin(uid: string, name: string, code: string, imageUrl: string)

  /** How a token is addressed on its chain. `Eip20` carries the contract address. */
  datatype TokenType = Native | Eip20(address: string) | OtherTokenType(kind: string)

  datatype Token = Token(coin: Coin, blockchainType: BlockchainType, tokenType: TokenType)

  /** A coin together with all the tokens that represent it on different chains. */
  datatype FullCoin = FullCoin(coin: Coin, tokens: seq<Token>)

  datatype Currency = Currency(code: string)
}
