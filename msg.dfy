/** Inbound message shapes and the outbound message descriptors the handlers
    return for the host to dispatch. */
module Messages {
  import opened Results
  import opened Cosmos
  import opened Assets
  import opened State

  /** Outbound messages: a native transfer, a CW20 transfer executed on a
      token contract, and the NFT registry's approve, transfer and mint. */
  datatype CosmosMsg =
    | BankSend(toAddress: Addr, amount: seq<Coin>)
    | Cw20Transfer(tokenContract: Addr, recipient: Addr, value: nat)
    | NftApprove(nftContract: Addr, spender: Addr, tokenId: string, expiresAtHeight: nat)
    | NftTransfer(nftContract: Addr, recipient: Addr, tokenId: string)
    | NftMint(nftContract: Addr, tokenId: string, owner: Addr, tokenUri: Option<string>, extension: Metadata)

  /** The ordered messages of a successful handler (attributes are not modelled). */
  datatype Response = Response(messages: seq<CosmosMsg>)

  /** The message that pays `asset` to `recipient` on its own rail. */
  function IntoMsg(asset: Asset, recipient: Addr): CosmosMsg
  {
    match asset.info
    case Native(denom) => BankSend(recipient, [Coin(denom, asset.amount)])
    case Token(contractAddr) => Cw20Transfer(contractAddr, recipient, asset.amount)
  }

  /** A payment read back from a message: who receives which asset. */
  datatype Payment = Payment(recipient: Addr, asset: Asset)

  function PaymentOf(m: CosmosMsg): Option<Payment>
  {
    match m
    case BankSend(to, coins) =>
      if |coins| == 1 then Some(Payment(to, Asset(Native(coins[0].denom), coins[0].amount))) else None
    case Cw20Transfer(token, to, value) => Some(Payment(to, Asset(Token(token), value)))
    case _ => None
  }

  /** Every payment message names its recipient and asset unambiguously. */
  lemma IntoMsgRoundTrip(asset: Asset, recipient: Addr)
    ensures PaymentOf(IntoMsg(asset, recipient)) == Some(Payment(recipient, asset))
  {
  }

  /** The total paid by a run of payment messages (non-payments count zero). */
  function TotalPaid(msgs: seq<CosmosMsg>): nat
    decreases |msgs|
  {
    if msgs == [] then 0
    else
      var last := PaymentOf(msgs[|msgs| - 1]);
      TotalPaid(msgs[..|msgs| - 1]) + (if last.Some? then last.value.asset.amount else 0)
  }

  /** The actions a CW20 transfer notification can carry. */
  datatype Cw20HookMsg = HookPlaceListing(id: string) | HookBidListing(listingId: string)

  /** A CW20 transfer notification, its inner action already decoded. */
  datatype Cw20ReceiveMsg = Cw20ReceiveMsg(sender: Addr, amount: nat, msg: Cw20HookMsg)

  datatype GFMintMsg = GFMintMsg(
    owner: Addr,
    name: string,
    imageUri: Option<string>,
    externalLink: Option<string>,
    description: Option<string>,
    collection: Option<nat>,
    numRealRepr: nat,
    numNfts: nat,
    royalties: seq<Royalty>,
    initPrice: nat)

  datatype ExecuteMsg =
    | PlaceListing(id: string, minimumBid: Asset)
    | BidListing(listingId: string, bidPrice: Asset)
    | WithdrawListing(listingId: string)
    | Mint(mintMsg: GFMintMsg)
    | UpdateMinter(minter: Addr)
    | RemoveMinter(minter: Addr)
    | ReceiveToken(wrapper: Cw20ReceiveMsg)
    | SetNftAddress(nftAddress: Addr)
}
