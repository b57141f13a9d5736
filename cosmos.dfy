/** The host environment's value types: addresses, coins, the block
    environment and the information attached to an invocation. */
module Cosmos {

  /** Addresses are their bech32 text; validation is the identity here. */
  type Addr = string

  datatype Coin = Coin(denom: string, amount: nat)

  /** The block height and the contract's own address. */
  datatype Env = Env(height: nat, contractAddress: Addr)

  /** The sender of the invocation and the native coins attached to it. */
  datatype MessageInfo = MessageInfo(sender: Addr, funds: seq<Coin>)
}
