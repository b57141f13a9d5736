/** The handlers as the contract runs them: each loads what it needs from the
    storage, validates, writes its changes through the storage accessors and
    builds its outbound messages. Each is proved to do exactly what the
    corresponding transition in `Transitions` prescribes. */
module Contract {
  import opened Results
  import opened Cosmos
  import opened Assets
  import opened Decimals
  import opened State
  import opened Messages
  import opened Royalties
  import T = Transitions

  /** The handler returned what the transition prescribes. On success the
      storage holds the store to commit. On failure no entry was added or
      changed; an entry the handler removed before failing is restored by the
      host, which discards every write of a failed invocation. */
  ghost predicate Commits(before: Store, after: Store, r: Result<Response>, spec: Result<T.Outcome>)
  {
    match spec
    case Ok(o) => r == Ok(o.response) && after == o.store
    case Err(e) =>
      && r == Err(e)
      && after.config == before.config
      && after.nftAddress == before.nftAddress
      && after.minters == before.minters
      && after.listings.Keys <= before.listings.Keys
      && forall k :: k in after.listings ==> after.listings[k] == before.listings[k]
  }

  method Instantiate(storage: Storage, info: MessageInfo) returns (r: Result<Response>)
    modifies storage
    ensures Commits(old(storage.View()), storage.View(), r, T.Instantiate(old(storage.View()), info))
  {
    var configState := Config(0, info.sender, T.DEFAULT_EXPIRE_BLOCKS);
    storage.StoreConfig(configState);
    r := Ok(Response([]));
  }

  method SetNftAddress(storage: Storage, info: MessageInfo, nftAddress: Addr) returns (r: Result<Response>)
    modifies storage
    ensures Commits(old(storage.View()), storage.View(), r, T.SetNftAddress(old(storage.View()), info, nftAddress))
    ensures r.Err? ==> storage.View() == old(storage.View())
  {
    var config :- storage.View().ReadConfig();
    if info.sender != config.owner {
      return Err(Unauthorized);
    }
    storage.StoreNftAddress(nftAddress);
    r := Ok(Response([]));
  }

  method UpdateMinters(storage: Storage, info: MessageInfo, minter: Addr) returns (r: Result<Response>)
    modifies storage
    ensures Commits(old(storage.View()), storage.View(), r, T.UpdateMinters(old(storage.View()), info, minter))
    ensures r.Err? ==> storage.View() == old(storage.View())
  {
    var config :- storage.View().ReadConfig();
    if info.sender != config.owner {
      return Err(Unauthorized);
    }
    storage.StoreMinters(minter, MinterInfo);
    r := Ok(Response([]));
  }

  method UnregisterMinter(storage: Storage, info: MessageInfo, minter: Addr) returns (r: Result<Response>)
    modifies storage
    ensures Commits(old(storage.View()), storage.View(), r, T.UnregisterMinter(old(storage.View()), info, minter))
    ensures r.Err? ==> storage.View() == old(storage.View())
  {
    var config :- storage.View().ReadConfig();
    if info.sender != config.owner {
      return Err(Unauthorized);
    }
    storage.RemoveMinter(minter);
    r := Ok(Response([]));
  }

  method ExecuteMint(storage: Storage, info: MessageInfo, msg: GFMintMsg) returns (r: Result<Response>)
    modifies storage
    ensures Commits(old(storage.View()), storage.View(), r, T.ExecuteMint(old(storage.View()), info, msg))
    ensures r.Err? ==> storage.View() == old(storage.View())
  {
    var minterInfo := storage.View().ReadMinterInfo(info.sender);
    if minterInfo == None {
      return Err(Unauthorized);
    }
    var nftContract :- storage.View().ReadNftAddress();
    var sumTotalRate := SumTotalRate(msg.royalties);
    if sumTotalRate > DECIMAL_FRACTIONAL {
      return Err(InvalidRoyaltyRate);
    }
    var config :- storage.View().ReadConfig();
    config := config.(listingCount := config.listingCount + 1);
    storage.StoreConfig(config);
    var extension := Metadata(msg.name, msg.description, msg.externalLink, Some(1),
                              msg.numRealRepr, msg.numNfts, msg.royalties, msg.initPrice);
    r := Ok(Response([NftMint(nftContract, T.MintTokenId(config.listingCount), msg.owner, msg.imageUri, extension)]));
  }

  method ExecuteBidListing(storage: Storage, env: Env, info: MessageInfo, listingId: string,
                           bidPrice: Asset, sender: Addr) returns (r: Result<Response>)
    modifies storage
    ensures Commits(old(storage.View()), storage.View(), r,
                    T.ExecuteBidListing(old(storage.View()), env, info, listingId, bidPrice, sender))
    ensures r.Err? ==> storage.View() == old(storage.View())
  {
    if !SentNativeTokenBalance(bidPrice, info) {
      return Err(InsufficientFundsSend);
    }
    var listing :- storage.View().LoadListing(listingId);
    if listing.blockLimit < env.height {
      return Err(AuctionEnded);
    }
    if bidPrice.info != listing.maxBid.info {
      return Err(AssetInfoMismatch);
    }
    if bidPrice.amount < listing.maxBid.amount {
      return Err(InsufficientFundsSend);
    }
    var lastBid, lastBidder := listing.maxBid, listing.maxBidder;
    var msg := IntoMsg(lastBid, lastBidder);
    listing := listing.(maxBidder := sender, maxBid := bidPrice);
    storage.SaveListing(listingId, listing);
    if env.contractAddress != lastBidder {
      r := Ok(Response([msg]));
    } else {
      r := Ok(Response([]));
    }
  }

  method ExecutePlaceListing(storage: Storage, env: Env, id: string, minimumBid: Asset, sender: Addr)
    returns (r: Result<Response>)
    modifies storage
    ensures Commits(old(storage.View()), storage.View(), r,
                    T.ExecutePlaceListing(old(storage.View()), env, id, minimumBid, sender))
    ensures r.Err? ==> storage.View() == old(storage.View())
  {
    var nftContract :- storage.View().ReadNftAddress();
    var configState :- storage.View().ReadConfig();
    var listingCount := configState.listingCount + 1;
    var blockLimit := env.height + configState.maxAuctionDurationBlocks;
    var listing := Listing(id, nftContract, sender, minimumBid, env.contractAddress, blockLimit);
    var key := Keys.NatToString(listingCount);
    storage.SaveListing(key, listing);
    r := Ok(Response([
      NftApprove(nftContract, env.contractAddress, id, blockLimit),
      NftTransfer(nftContract, env.contractAddress, id)]));
  }

  method ExecuteWithdrawListing(storage: Storage, env: Env, listingId: string, registry: T.Registry)
    returns (r: Result<Response>)
    modifies storage
    ensures Commits(old(storage.View()), storage.View(), r,
                    T.ExecuteWithdrawListing(old(storage.View()), env, listingId, registry))
  {
    var listing :- storage.View().LoadListing(listingId);
    if listing.blockLimit >= env.height {
      return Err(AuctionNotEnded);
    }
    storage.RemoveListing(listingId);
    if env.contractAddress != listing.maxBidder {
      var msgs := [NftTransfer(listing.contractAddr, listing.maxBidder, listingId)];
      var schedule :- T.QueryNftRoyalties(storage.View(), registry, listing.tokenId);
      NoUnderflowIff(listing.maxBid.amount, schedule);
      var payout :- DistributeRoyalties(listing.maxBid.info, listing.maxBid.amount, schedule);
      msgs := msgs + payout.payments + [IntoMsg(Asset(listing.maxBid.info, payout.residual), listing.seller)];
      assert schedule == T.QueryNftRoyalties(old(storage.View()), registry, listing.tokenId).value;
      assert msgs == [msgs[0]] + SettleSale(listing.maxBid.info, listing.maxBid.amount, schedule, listing.seller).value;
      r := Ok(Response(msgs));
    } else {
      r := Ok(Response([NftTransfer(listing.contractAddr, listing.seller, listingId)]));
    }
  }

  method ReceiveToken(storage: Storage, env: Env, info: MessageInfo, wrapper: Cw20ReceiveMsg)
    returns (r: Result<Response>)
    modifies storage
    ensures Commits(old(storage.View()), storage.View(), r, T.ReceiveToken(old(storage.View()), env, info, wrapper))
    ensures r.Err? ==> storage.View() == old(storage.View())
  {
    var asset := Asset(Token(info.sender), wrapper.amount);
    match wrapper.msg {
      case HookBidListing(listingId) =>
        r := ExecuteBidListing(storage, env, info, listingId, asset, wrapper.sender);
      case HookPlaceListing(id) =>
        r := ExecutePlaceListing(storage, env, id, asset, wrapper.sender);
    }
  }

  method Execute(storage: Storage, env: Env, info: MessageInfo, msg: ExecuteMsg, registry: T.Registry)
    returns (r: Result<Response>)
    modifies storage
    ensures Commits(old(storage.View()), storage.View(), r, T.Execute(old(storage.View()), env, info, msg, registry))
  {
    match msg {
      case PlaceListing(id, minimumBid) =>
        r := ExecutePlaceListing(storage, env, id, minimumBid, info.sender);
      case BidListing(listingId, bidPrice) =>
        r := ExecuteBidListing(storage, env, info, listingId, bidPrice, info.sender);
      case WithdrawListing(listingId) =>
        r := ExecuteWithdrawListing(storage, env, listingId, registry);
      case Mint(mintMsg) =>
        r := ExecuteMint(storage, info, mintMsg);
      case UpdateMinter(minter) =>
        r := UpdateMinters(storage, info, minter);
      case RemoveMinter(minter) =>
        r := UnregisterMinter(storage, info, minter);
      case ReceiveToken(wrapper) =>
        r := ReceiveToken(storage, env, info, wrapper);
      case SetNftAddress(nftAddress) =>
        r := SetNftAddress(storage, info, nftAddress);
    }
  }
}
