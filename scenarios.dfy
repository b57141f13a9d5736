/** End-to-end auctions on concrete values: one sold with a 10% royalty, one
    never bid on, and a key resolved after its withdrawal. */
module Scenarios {
  import opened Results
  import opened Cosmos
  import opened Assets
  import opened State
  import opened Messages
  import opened Transitions
  import Royalties
  import Keys

  const Market: Addr := "market"
  const Uusd := Native("uusd")

  /** The store after instantiation by "owner" and registration of the
      registry "nft". */
  function Configured(): Store
  {
    var st0 := Instantiate(EmptyStore, MessageInfo("owner", [])).value.store;
    st0.(nftAddress := Some("nft"))
  }

  /** Token "tok1" listed by "seller" at height 10 for at least 100 uusd; then
      B bids 150 (accepted, no refund owed to the contract), C bids 120
      (refused), and after expiry the withdrawal hands listing key "1" to B,
      pays the artist 15 and the seller the remaining 135. */
  lemma SoldAuction()
    ensures var registry := map["tok1" := [Royalty("artist", 100_000_000_000_000_000)]];
            var placed := Execute(Configured(), Env(10, Market), MessageInfo("seller", []),
                                  PlaceListing("tok1", Asset(Uusd, 100)), registry);
            && placed.Ok?
            && placed.value.store.listings == map["1" := Listing("tok1", "nft", "seller", Asset(Uusd, 100), Market, 50_010)]
            && var bidB := Execute(placed.value.store, Env(20, Market), MessageInfo("b", [Coin("uusd", 150)]),
                                   BidListing("1", Asset(Uusd, 150)), registry);
            && bidB.Ok? && bidB.value.response.messages == []
            && bidB.value.store.listings["1"].maxBidder == "b"
            && Execute(bidB.value.store, Env(30, Market), MessageInfo("c", [Coin("uusd", 120)]),
                       BidListing("1", Asset(Uusd, 120)), registry) == Err(InsufficientFundsSend)
            && var done := Execute(bidB.value.store, Env(50_011, Market), MessageInfo("anyone", []),
                                   WithdrawListing("1"), registry);
            && done.Ok?
            && done.value.response.messages == [
                 NftTransfer("nft", "b", "1"),
                 BankSend("artist", [Coin("uusd", 15)]),
                 BankSend("seller", [Coin("uusd", 135)])]
            && QueryListResolver(done.value.store, "1") == Panic
  {
    var registry := map["tok1" := [Royalty("artist", 100_000_000_000_000_000)]];
    assert Keys.NatToString(1) == "1";
    var placed := Execute(Configured(), Env(10, Market), MessageInfo("seller", []),
                          PlaceListing("tok1", Asset(Uusd, 100)), registry);
    var bidB := Execute(placed.value.store, Env(20, Market), MessageInfo("b", [Coin("uusd", 150)]),
                        BidListing("1", Asset(Uusd, 150)), registry);
    var schedule := registry["tok1"];
    assert Royalties.SumCuts(150, schedule) == 15 by {
      assert schedule[..0] == [];
    }
    assert Royalties.RoyaltyMsgs(Uusd, 150, schedule) == [BankSend("artist", [Coin("uusd", 15)])] by {
      assert schedule[..0] == [];
    }
  }

  /** A listing nobody bids on goes back to its seller, with no payment. */
  lemma UnsoldAuction()
    ensures var registry: Registry := map[];
            var placed := Execute(Configured(), Env(10, Market), MessageInfo("seller", []),
                                  PlaceListing("tok1", Asset(Uusd, 100)), registry);
            && placed.Ok?
            && var done := Execute(placed.value.store, Env(50_011, Market), MessageInfo("anyone", []),
                                   WithdrawListing("1"), registry);
            && done.Ok?
            && done.value.response.messages == [NftTransfer("nft", "seller", "1")]
            && done.value.store.listings == map[]
  {
    assert Keys.NatToString(1) == "1";
  }
}
