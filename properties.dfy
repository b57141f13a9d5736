/** What the marketplace promises, proved about the transitions: the bidding
    and withdrawal windows, bid acceptance and its effects, placement,
    withdrawal and settlement, minting, owner gating, and invariants that
    hold over any sequence of invocations. */
module Properties {
  import opened Results
  import opened Cosmos
  import opened Assets
  import opened Decimals
  import opened State
  import opened Messages
  import opened Royalties
  import opened Transitions
  import Keys

  // ---------------------------------------------------------------- windows

  /** Bidding is open up to and including the block limit, withdrawal only
      after it; for every height exactly one of the two passes its check. */
  lemma TimeWindows(st: Store, env: Env, info: MessageInfo, id: string, bid: Asset, sender: Addr, registry: Registry)
    requires SentNativeTokenBalance(bid, info) && id in st.listings
    ensures ExecuteBidListing(st, env, info, id, bid, sender) == Err(AuctionEnded)
            <==> env.height > st.listings[id].blockLimit
    ensures ExecuteWithdrawListing(st, env, id, registry) == Err(AuctionNotEnded)
            <==> env.height <= st.listings[id].blockLimit
    ensures (ExecuteBidListing(st, env, info, id, bid, sender) != Err(AuctionEnded))
            != (ExecuteWithdrawListing(st, env, id, registry) != Err(AuctionNotEnded))
  {
  }

  // -------------------------------------------------------------------- bids

  /** The conditions under which a bid on `listing` is accepted. */
  predicate BidAcceptable(listing: Listing, env: Env, bid: Asset)
  {
    env.height <= listing.blockLimit && bid.info == listing.maxBid.info && bid.amount >= listing.maxBid.amount
  }

  /** A bid is accepted exactly when the attached funds match, the listing
      exists, the auction is open, the currency matches and the amount is at
      least the current one; otherwise the first failing check, in that
      order, names the error. */
  lemma BidAcceptance(st: Store, env: Env, info: MessageInfo, id: string, bid: Asset, sender: Addr)
    ensures ExecuteBidListing(st, env, info, id, bid, sender).Ok?
            <==> SentNativeTokenBalance(bid, info) && id in st.listings && BidAcceptable(st.listings[id], env, bid)
    ensures !SentNativeTokenBalance(bid, info) ==>
              ExecuteBidListing(st, env, info, id, bid, sender) == Err(InsufficientFundsSend)
    ensures SentNativeTokenBalance(bid, info) && id !in st.listings ==>
              ExecuteBidListing(st, env, info, id, bid, sender) == Err(NotFound(ListingItem))
    ensures SentNativeTokenBalance(bid, info) && id in st.listings
            && env.height <= st.listings[id].blockLimit && bid.info != st.listings[id].maxBid.info ==>
              ExecuteBidListing(st, env, info, id, bid, sender) == Err(AssetInfoMismatch)
    ensures SentNativeTokenBalance(bid, info) && id in st.listings
            && env.height <= st.listings[id].blockLimit && bid.info == st.listings[id].maxBid.info
            && bid.amount < st.listings[id].maxBid.amount ==>
              ExecuteBidListing(st, env, info, id, bid, sender) == Err(InsufficientFundsSend)
  {
  }

  /** How a listing may change without being re-placed: the token, registry,
      seller, block limit and currency stay, and the leading amount does not
      decrease. */
  predicate Evolves(before: Listing, after: Listing)
  {
    && after.tokenId == before.tokenId
    && after.contractAddr == before.contractAddr
    && after.seller == before.seller
    && after.blockLimit == before.blockLimit
    && after.maxBid.info == before.maxBid.info
    && after.maxBid.amount >= before.maxBid.amount
  }

  /** A successful bid makes the sender the leader with the bid, changes
      nothing else in the store, and refunds the previous leader's bid to
      them unless that leader is the contract's own address. */
  lemma BidEffects(st: Store, env: Env, info: MessageInfo, id: string, bid: Asset, sender: Addr)
    requires ExecuteBidListing(st, env, info, id, bid, sender).Ok?
    ensures var o := ExecuteBidListing(st, env, info, id, bid, sender).value;
            var before := st.listings[id];
            && o.store == st.(listings := st.listings[id := before.(maxBidder := sender, maxBid := bid)])
            && Evolves(before, o.store.listings[id])
            && o.store.listings[id].maxBidder == sender && o.store.listings[id].maxBid == bid
            && (before.maxBidder != env.contractAddress ==>
                  o.response.messages == [IntoMsg(before.maxBid, before.maxBidder)]
                  && PaymentOf(o.response.messages[0]) == Some(Payment(before.maxBidder, before.maxBid)))
            && (before.maxBidder == env.contractAddress ==> o.response.messages == [])
  {
    var before := st.listings[id];
    IntoMsgRoundTrip(before.maxBid, before.maxBidder);
  }

  // --------------------------------------------------------------- placement

  /** Placement fails only for want of a stored NFT-registry address; it
      stores the listing under the key after the counter without advancing
      the counter, with the minimum bid as leading bid and the contract as
      leader, and asks the registry to approve and then to transfer the
      token into escrow. */
  lemma PlaceEffects(st: Store, env: Env, id: string, minimumBid: Asset, sender: Addr)
    requires st.config.Some?
    ensures ExecutePlaceListing(st, env, id, minimumBid, sender).Ok? <==> st.nftAddress.Some?
    ensures st.nftAddress.None? ==>
              ExecutePlaceListing(st, env, id, minimumBid, sender) == Err(NotFound(NftAddressItem))
    ensures st.nftAddress.Some? ==>
              var o := ExecutePlaceListing(st, env, id, minimumBid, sender).value;
              var config, nft := st.config.value, st.nftAddress.value;
              var blockLimit := env.height + config.maxAuctionDurationBlocks;
              && o.store.config == st.config
              && o.store.nftAddress == st.nftAddress && o.store.minters == st.minters
              && o.store.listings == st.listings[Keys.NatToString(config.listingCount + 1)
                   := Listing(id, nft, sender, minimumBid, env.contractAddress, blockLimit)]
              && o.response.messages == [NftApprove(nft, env.contractAddress, id, blockLimit),
                                         NftTransfer(nft, env.contractAddress, id)]
  {
  }

  /** As written, the listing key is not persisted: two placements with no
      mint in between use the same key, and the second replaces the first
      listing, whose token stays in escrow with no listing left to settle it. */
  lemma PlaceTwiceOverwrites(st: Store, env1: Env, id1: string, bid1: Asset, seller1: Addr,
                             env2: Env, id2: string, bid2: Asset, seller2: Addr)
    requires ExecutePlaceListing(st, env1, id1, bid1, seller1).Ok?
    ensures var st1 := ExecutePlaceListing(st, env1, id1, bid1, seller1).value.store;
            var r2 := ExecutePlaceListing(st1, env2, id2, bid2, seller2);
            var key := Keys.NatToString(st.config.value.listingCount + 1);
            && r2.Ok?
            && key in st1.listings && st1.listings[key].tokenId == id1
            && r2.value.store.listings.Keys == st1.listings.Keys
            && r2.value.store.listings[key].tokenId == id2
            && r2.value.store.listings[key].seller == seller2
  {
  }

  // -------------------------------------------------------------- withdrawal

  /** A successful withdrawal removes the listing and nothing else, so a
      second withdrawal or a bid on that key fails to load it and resolving
      it aborts. */
  lemma WithdrawRemoves(st: Store, env: Env, id: string, registry: Registry,
                        env2: Env, info2: MessageInfo, bid2: Asset, sender2: Addr, registry2: Registry)
    requires ExecuteWithdrawListing(st, env, id, registry).Ok?
    ensures var after := ExecuteWithdrawListing(st, env, id, registry).value.store;
            && id in st.listings && id !in after.listings
            && after == st.(listings := st.listings - {id})
            && ExecuteWithdrawListing(after, env2, id, registry2) == Err(NotFound(ListingItem))
            && (SentNativeTokenBalance(bid2, info2) ==>
                  ExecuteBidListing(after, env2, info2, id, bid2, sender2) == Err(NotFound(ListingItem)))
            && QueryListResolver(after, id) == Panic
  {
  }

  /** With no bid ever accepted, withdrawal returns the token to the seller
      in a single message and pays nobody. */
  lemma WithdrawUnsold(st: Store, env: Env, id: string, registry: Registry)
    requires ExecuteWithdrawListing(st, env, id, registry).Ok?
    requires st.listings[id].maxBidder == env.contractAddress
    ensures var listing := st.listings[id];
            var msgs := ExecuteWithdrawListing(st, env, id, registry).value.response.messages;
            msgs == [NftTransfer(listing.contractAddr, listing.seller, id)] && TotalPaid(msgs) == 0
  {
    var listing := st.listings[id];
    var msgs := [NftTransfer(listing.contractAddr, listing.seller, id)];
    assert msgs[..0] == [];
  }

  /** Settlement of a sold listing: the token goes to the leader (the
      transfer names the listing key as the token id), then each royalty
      entry is paid its rounded-down cut in schedule order and the seller the
      residual, all in the sale's currency and adding up to the sale amount.
      It fails with an underflow exactly when the cuts exceed the amount,
      which rates summing to at most 1 rule out. */
  lemma WithdrawSold(st: Store, env: Env, id: string, registry: Registry)
    requires id in st.listings && env.height > st.listings[id].blockLimit
    requires st.listings[id].maxBidder != env.contractAddress
    requires st.nftAddress.Some? && st.listings[id].tokenId in registry
    ensures var listing := st.listings[id];
            var schedule := registry[listing.tokenId];
            var total := listing.maxBid.amount;
            var r := ExecuteWithdrawListing(st, env, id, registry);
            && (r.Ok? <==> NoUnderflow(total, schedule))
            && (r.Err? ==> r.error == Overflow)
            && (SumRates(schedule) <= DECIMAL_FRACTIONAL ==> r.Ok?)
            && (r.Ok? ==>
                  var msgs := r.value.response.messages;
                  && |msgs| == |schedule| + 2
                  && msgs[0] == NftTransfer(listing.contractAddr, listing.maxBidder, id)
                  && (forall i :: 0 <= i < |schedule| ==>
                        msgs[i + 1] == IntoMsg(Asset(listing.maxBid.info, Cut(total, schedule[i])), schedule[i].address))
                  && msgs[|schedule| + 1] == IntoMsg(Asset(listing.maxBid.info, total - SumCuts(total, schedule)), listing.seller)
                  && TotalPaid(msgs[1..]) == total)
  {
    var listing := st.listings[id];
    var schedule := registry[listing.tokenId];
    var total := listing.maxBid.amount;
    NoUnderflowIff(total, schedule);
    if SumRates(schedule) <= DECIMAL_FRACTIONAL {
      RatesAtMostOneFit(total, schedule);
    }
    var r := ExecuteWithdrawListing(st, env, id, registry);
    if r.Ok? {
      var msgs := r.value.response.messages;
      var payout := SettleSale(listing.maxBid.info, total, schedule, listing.seller).value;
      assert msgs == [msgs[0]] + payout;
      assert msgs[1..] == payout;
      RoyaltyMsgsAt(listing.maxBid.info, total, schedule);
      SettleSaleConserves(listing.maxBid.info, total, schedule, listing.seller);
    }
  }

  // ----------------------------------------------------------------- minting

  /** Minting is refused to a sender without a minter entry and, for a
      minter, to a schedule whose rates sum past 1. A successful mint
      advances and persists the counter by one and emits one mint message
      for token `GF.<new count>` carrying the royalties verbatim. */
  lemma MintEffects(st: Store, info: MessageInfo, msg: GFMintMsg)
    ensures info.sender !in st.minters ==> ExecuteMint(st, info, msg) == Err(Unauthorized)
    ensures info.sender in st.minters && st.nftAddress.Some? && SumRates(msg.royalties) > DECIMAL_FRACTIONAL ==>
              ExecuteMint(st, info, msg) == Err(InvalidRoyaltyRate)
    ensures ExecuteMint(st, info, msg).Ok? <==>
              info.sender in st.minters && st.nftAddress.Some?
              && SumRates(msg.royalties) <= DECIMAL_FRACTIONAL && st.config.Some?
    ensures ExecuteMint(st, info, msg).Ok? ==>
              var o := ExecuteMint(st, info, msg).value;
              var count := st.config.value.listingCount + 1;
              && o.store == st.(config := Some(st.config.value.(listingCount := count)))
              && |o.response.messages| == 1
              && o.response.messages[0].NftMint?
              && o.response.messages[0].nftContract == st.nftAddress.value
              && o.response.messages[0].tokenId == MintTokenId(count)
              && o.response.messages[0].owner == msg.owner
              && o.response.messages[0].extension.royalties == msg.royalties
  {
  }

  /** Different counter values give different token ids. */
  lemma MintTokenIdInjective(a: nat, b: nat)
    ensures MintTokenId(a) == MintTokenId(b) ==> a == b
  {
    if MintTokenId(a) == MintTokenId(b) {
      assert MintTokenId(a)[3..] == Keys.NatToString(a);
      assert MintTokenId(b)[3..] == Keys.NatToString(b);
      Keys.NatToStringInjective(a, b);
    }
  }

  // ------------------------------------------------------------ owner gating

  /** The admin operations succeed exactly for the configured owner, write
      one namespace and return no messages; anyone else gets Unauthorized. */
  lemma OwnerGating(st: Store, info: MessageInfo, addr: Addr)
    requires st.config.Some?
    ensures var isOwner := info.sender == st.config.value.owner;
            && (Transitions.SetNftAddress(st, info, addr) ==
                  if isOwner then Ok(Outcome(st.(nftAddress := Some(addr)), Response([]))) else Err(Unauthorized))
            && (UpdateMinters(st, info, addr) ==
                  if isOwner then Ok(Outcome(st.(minters := st.minters[addr := MinterInfo]), Response([])))
                  else Err(Unauthorized))
            && (UnregisterMinter(st, info, addr) ==
                  if isOwner then Ok(Outcome(st.(minters := st.minters - {addr}), Response([])))
                  else Err(Unauthorized))
  {
  }

  /** Instantiation records the instantiator as owner, a zero counter and a
      50 000-block auction duration. */
  lemma InstantiateConfig(st: Store, info: MessageInfo)
    ensures Instantiate(st, info).Ok?
    ensures Instantiate(st, info).value.store.ReadConfig() == Ok(Config(0, info.sender, 50_000))
    ensures Instantiate(st, info).value.response.messages == []
  {
  }
}
