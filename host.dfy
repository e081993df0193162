/** Values the execution host hands to the contract: coins, block data, the
    message envelope and the response a command returns. */
module Host {

  datatype Option<+T> = None | Some(value: T) {
    /** `unwrap_or` */
    function GetOr(default: T): T {
      match this
      case Some(v) => v
      case None => default
    }
  }

  datatype Result<+R, +E> = Ok(value: R) | Err(error: E)

  /** Addresses are taken as already validated strings. */
  type Addr = string

  /** A (denomination, amount) pair; the 128-bit amount is a natural number. */
  datatype Coin = Coin(denom: string, amount: nat)

  /** The block a query or command runs in. */
  datatype BlockInfo = BlockInfo(height: nat, time: nat, chainId: string)

  /** Who sent the command and the funds attached to it. */
  datatype MessageInfo = MessageInfo(sender: Addr, funds: seq<Coin>)

  /** A bank transfer instruction. */
  datatype BankMsg = Send(toAddress: Addr, amount: seq<Coin>)

  /** What a successful command hands back to the host: the messages the host
      must still dispatch (event attributes are not modelled). */
  datatype Response = Response(messages: seq<BankMsg>)
}
