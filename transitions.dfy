/** The contract's handlers as transitions of the store: each takes the
    store before the invocation, the block environment and the invocation's
    information, and yields either an error kind (the host then discards all
    writes) or the store to commit together with the ordered outbound
    messages. */
module Transitions {
  import opened Results
  import opened Cosmos
  import opened Assets
  import opened Decimals
  import opened State
  import opened Messages
  import opened Royalties
  import Keys

  /** The auction duration every instantiation configures, in blocks. */
  const DEFAULT_EXPIRE_BLOCKS: nat := 50_000

  datatype Outcome = Outcome(store: Store, response: Response)

  /** What the NFT registry answers for a token's royalty schedule, by token
      id; a token it does not know makes the query fail. */
  type Registry = map<string, seq<Royalty>>

  /** The id of the token minted when the counter reaches `count`. */
  function MintTokenId(count: nat): string
  {
    "GF." + Keys.NatToString(count)
  }

  function Instantiate(st: Store, info: MessageInfo): Result<Outcome>
  {
    Ok(Outcome(st.(config := Some(Config(0, info.sender, DEFAULT_EXPIRE_BLOCKS))), Response([])))
  }

  function SetNftAddress(st: Store, info: MessageInfo, nftAddress: Addr): Result<Outcome>
  {
    var config :- st.ReadConfig();
    if info.sender != config.owner then Err(Unauthorized)
    else Ok(Outcome(st.(nftAddress := Some(nftAddress)), Response([])))
  }

  function UpdateMinters(st: Store, info: MessageInfo, minter: Addr): Result<Outcome>
  {
    var config :- st.ReadConfig();
    if info.sender != config.owner then Err(Unauthorized)
    else Ok(Outcome(st.(minters := st.minters[minter := MinterInfo]), Response([])))
  }

  function UnregisterMinter(st: Store, info: MessageInfo, minter: Addr): Result<Outcome>
  {
    var config :- st.ReadConfig();
    if info.sender != config.owner then Err(Unauthorized)
    else Ok(Outcome(st.(minters := st.minters - {minter}), Response([])))
  }

  function ExecuteMint(st: Store, info: MessageInfo, msg: GFMintMsg): Result<Outcome>
  {
    if st.ReadMinterInfo(info.sender).None? then Err(Unauthorized)
    else
      var nftContract :- st.ReadNftAddress();
      if SumRates(msg.royalties) > DECIMAL_FRACTIONAL then Err(InvalidRoyaltyRate)
      else
        var config :- st.ReadConfig();
        var count := config.listingCount + 1;
        var extension := Metadata(msg.name, msg.description, msg.externalLink, Some(1),
                                  msg.numRealRepr, msg.numNfts, msg.royalties, msg.initPrice);
        var mint := NftMint(nftContract, MintTokenId(count), msg.owner, msg.imageUri, extension);
        Ok(Outcome(st.(config := Some(config.(listingCount := count))), Response([mint])))
  }

  function ExecuteBidListing(st: Store, env: Env, info: MessageInfo, listingId: string,
                             bidPrice: Asset, sender: Addr): Result<Outcome>
  {
    if !SentNativeTokenBalance(bidPrice, info) then Err(InsufficientFundsSend)
    else
      var listing :- st.LoadListing(listingId);
      if listing.blockLimit < env.height then Err(AuctionEnded)
      else if bidPrice.info != listing.maxBid.info then Err(AssetInfoMismatch)
      else if bidPrice.amount < listing.maxBid.amount then Err(InsufficientFundsSend)
      else
        var refund := IntoMsg(listing.maxBid, listing.maxBidder);
        var updated := listing.(maxBidder := sender, maxBid := bidPrice);
        var store := st.(listings := st.listings[listingId := updated]);
        Ok(Outcome(store, Response(if env.contractAddress != listing.maxBidder then [refund] else [])))
  }

  function ExecutePlaceListing(st: Store, env: Env, id: string, minimumBid: Asset, sender: Addr): Result<Outcome>
  {
    var nftContract :- st.ReadNftAddress();
    var config :- st.ReadConfig();
    var key := Keys.NatToString(config.listingCount + 1);
    var blockLimit := env.height + config.maxAuctionDurationBlocks;
    var listing := Listing(id, nftContract, sender, minimumBid, env.contractAddress, blockLimit);
    var approve := NftApprove(nftContract, env.contractAddress, id, blockLimit);
    var transfer := NftTransfer(nftContract, env.contractAddress, id);
    Ok(Outcome(st.(listings := st.listings[key := listing]), Response([approve, transfer])))
  }

  /** The royalty schedule the registry at the stored NFT address reports:
      no stored address is the storage's `NotFound`, an unknown token a
      failed cross-contract query. */
  function QueryNftRoyalties(st: Store, registry: Registry, tokenId: string): (r: Result<seq<Royalty>>)
    ensures st.nftAddress.None? ==> r == Err(NotFound(NftAddressItem))
    ensures st.nftAddress.Some? ==> (r.Ok? <==> tokenId in registry)
    ensures st.nftAddress.Some? && tokenId !in registry ==> r == Err(QueryFailed)
    ensures r.Ok? ==> tokenId in registry && r.value == registry[tokenId]
  {
    var _ :- st.ReadNftAddress();
    if tokenId in registry then Ok(registry[tokenId]) else Err(QueryFailed)
  }

  function ExecuteWithdrawListing(st: Store, env: Env, listingId: string, registry: Registry): Result<Outcome>
  {
    var listing :- st.LoadListing(listingId);
    if listing.blockLimit >= env.height then Err(AuctionNotEnded)
    else
      var store := st.(listings := st.listings - {listingId});
      if env.contractAddress != listing.maxBidder then
        var toBuyer := NftTransfer(listing.contractAddr, listing.maxBidder, listingId);
        var schedule :- QueryNftRoyalties(st, registry, listing.tokenId);
        var payout :- SettleSale(listing.maxBid.info, listing.maxBid.amount, schedule, listing.seller);
        Ok(Outcome(store, Response([toBuyer] + payout)))
      else
        Ok(Outcome(store, Response([NftTransfer(listing.contractAddr, listing.seller, listingId)])))
  }

  /** A CW20 notification re-dispatched as a token-denominated bid or
      placement on behalf of the token's original sender. */
  function ReceiveToken(st: Store, env: Env, info: MessageInfo, wrapper: Cw20ReceiveMsg): Result<Outcome>
  {
    var asset := Asset(Token(info.sender), wrapper.amount);
    match wrapper.msg
    case HookBidListing(listingId) => ExecuteBidListing(st, env, info, listingId, asset, wrapper.sender)
    case HookPlaceListing(id) => ExecutePlaceListing(st, env, id, asset, wrapper.sender)
  }

  function Execute(st: Store, env: Env, info: MessageInfo, msg: ExecuteMsg, registry: Registry): Result<Outcome>
  {
    match msg
    case PlaceListing(id, minimumBid) => ExecutePlaceListing(st, env, id, minimumBid, info.sender)
    case BidListing(listingId, bidPrice) => ExecuteBidListing(st, env, info, listingId, bidPrice, info.sender)
    case WithdrawListing(listingId) => ExecuteWithdrawListing(st, env, listingId, registry)
    case Mint(mintMsg) => ExecuteMint(st, info, mintMsg)
    case UpdateMinter(minter) => UpdateMinters(st, info, minter)
    case RemoveMinter(minter) => UnregisterMinter(st, info, minter)
    case ReceiveToken(wrapper) => ReceiveToken(st, env, info, wrapper)
    case SetNftAddress(nftAddress) => SetNftAddress(st, info, nftAddress)
  }

  /** The answer of a read-only query: a value, an error, or an abort of the
      whole query (an unwrap of an absent value). */
  datatype QueryResult<T> = Answer(value: T) | Failed(error: ContractError) | Panic

  /** Resolving a listing by key; an absent key aborts. */
  function QueryListResolver(st: Store, id: string): (r: QueryResult<Listing>)
    ensures r.Answer? <==> id in st.listings
    ensures r.Answer? ==> r.value == st.listings[id]
    ensures !r.Failed?
  {
    match st.MayLoadListing(id)
    case Some(listing) => Answer(listing)
    case None => Panic
  }
}
