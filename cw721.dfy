/** The token-registry types this contract reuses from the cw721 / cw721-base
    crates: token records, approvals with their expirations, the errors and the
    query responses. */
module Cw721 {
  import opened Host

  /** When an approval stops being valid. */
  datatype Expiration = AtHeight(height: nat) | AtTime(time: nat) | Never

  /** The expiry rule of the cw0 crate: a height or time bound has passed once
      the block reaches it; `Never` never expires. */
  predicate IsExpired(e: Expiration, block: BlockInfo) {
    match e
    case AtHeight(h) => block.height >= h
    case AtTime(t) => block.time >= t
    case Never => false
  }

  /** A spender allowed to move one token, until `expires`. */
  datatype Approval = Approval(spender: Addr, expires: Expiration)

  /** The canonical token record kept in the `tokens` table. */
  datatype TokenInfo = TokenInfo(
    owner: Addr,
    approvals: seq<Approval>,
    name: string,
    description: string,
    image: string)

  /** Name and symbol saved at instantiation. */
  datatype ContractInfo = ContractInfo(name: string, symbol: string)

  /** How a command or query fails. `Claimed`, `Unauthorized` and `NotFound`
      are the source's error values; `Panic` is the abort caused by indexing
      an empty funds list; `NoHandler` is a query the dispatch has no arm for. */
  datatype ContractError = Claimed | Unauthorized | NotFound | Panic | NoHandler

  datatype NftInfoResponse = NftInfoResponse(name: string, description: string, image: string)

  datatype OwnerOfResponse = OwnerOfResponse(owner: Addr, approvals: seq<Approval>)

  datatype AllNftInfoResponse = AllNftInfoResponse(access: OwnerOfResponse, info: NftInfoResponse)
}
