/** Failure-compatible wrappers shared by the whole model: the contract's error
    kinds and the `Result`/`Option` types its handlers return. */
module Results {

  /** Which persisted entry a failed load was looking for. */
  datatype Item = ConfigItem | NftAddressItem | ListingItem

  /** The error kinds a handler can return. `NotFound` is the storage layer's
      load failure, `Overflow` the `checked_sub` underflow during settlement and
      `QueryFailed` a failed query to the NFT registry. */
  datatype ContractError =
    | Unauthorized
    | AuctionEnded
    | AuctionNotEnded
    | AssetInfoMismatch
    | InsufficientFundsSend
    | InvalidRoyaltyRate
    | NotFound(item: Item)
    | Overflow
    | QueryFailed

  datatype Option<+T> = None | Some(value: T)

  datatype Result<+T> = Ok(value: T) | Err(error: ContractError) {
    predicate IsFailure() { Err? }

    function PropagateFailure<U>(): Result<U>
      requires Err?
    {
      Err(error)
    }

    function Extract(): T
      requires Ok?
    {
      value
    }
  }
}
