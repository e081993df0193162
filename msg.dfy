/** The messages the contract accepts: instantiation, the eight commands and
    the query shapes. */
module Msg {
  import opened Host
  import Cw721

  datatype InstantiateMsg = InstantiateMsg(name: string, symbol: string)

  /** The fields of a mint command. `description` is optional as the mint
      handler reads it (an absent description is stored as empty). */
  datatype MintMsg = MintMsg(
    tokenId: string,
    isccCode: string,
    tophash: string,
    owner: string,
    name: string,
    description: Option<string>,
    image: string,
    licenseUrl: string,
    licensePrice: Coin)

  /** The closed set of commands. Only `Mint` and `License` are handled by
      this contract; the other six are passed to the cw721-base handlers.
      `License` carries the `price` the dispatch destructures. */
  datatype ExecuteMsg =
    | Mint(mint: MintMsg)
    | TransferNft(recipient: string, tokenId: string)
    | SendNft(contract: string, tokenId: string, payload: seq<bv8>)
    | Approve(spender: string, tokenId: string, expires: Option<Cw721.Expiration>)
    | Revoke(spender: string, tokenId: string)
    | ApproveAll(operator: string, expires: Option<Cw721.Expiration>)
    | RevokeAll(operator: string)
    | License(tokenId: string, price: Coin)

  /** The closed set of queries. */
  datatype QueryMsg =
    | OwnerOf(tokenId: string, includeExpired: Option<bool>)
    | ApprovedForAll(owner: string, includeExpired: Option<bool>, startAfter: Option<string>, limit: Option<nat>)
    | NumTokens
    | ContractInfo
    | NftInfo(tokenId: string)
    | AllNftInfo(tokenId: string, includeExpired: Option<bool>)
    | Tokens(owner: string, startAfter: Option<string>, limit: Option<nat>)
    | AllTokens(startAfter: Option<string>, limit: Option<nat>)
    | GetByIsccCode(isccCode: string)
}
