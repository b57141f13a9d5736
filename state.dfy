/** The contract's persisted state: its record types, the four storage
    namespaces as a value (`Store`) with their lookups, and the mutable
    `Storage` the handlers write through. */
module State {
  import opened Results
  import opened Cosmos
  import opened Assets
  import opened Decimals
  import Keys

  /** The configuration singleton. `listingCount` counts minted tokens. */
  datatype Config = Config(listingCount: nat, owner: Addr, maxAuctionDurationBlocks: nat)

  /** A listing held in escrow. `maxBidder` is the contract's own address
      until a first bid is accepted. */
  datatype Listing = Listing(
    tokenId: string,
    contractAddr: Addr,
    seller: Addr,
    maxBid: Asset,
    maxBidder: Addr,
    blockLimit: nat)

  datatype Royalty = Royalty(address: Addr, royaltyRate: Decimal)

  /** Presence of this record marks an address as an authorised minter. */
  datatype MinterInfo = MinterInfo

  datatype Metadata = Metadata(
    name: string,
    description: Option<string>,
    externalLink: Option<string>,
    collection: Option<nat>,
    numRealRepr: nat,
    numNfts: nat,
    royalties: seq<Royalty>,
    initPrice: nat)

  /** The four persisted namespaces: the config singleton (absent until
      instantiation), the NFT-registry address singleton, the minter bucket
      and the listing bucket. */
  datatype Store = Store(
    config: Option<Config>,
    nftAddress: Option<Addr>,
    minters: map<Addr, MinterInfo>,
    listings: map<string, Listing>)
  {
    /** Loading the config singleton fails until it has been stored. */
    function ReadConfig(): (r: Result<Config>)
      ensures r.Ok? <==> config.Some?
      ensures r.Err? ==> r.error == NotFound(ConfigItem)
    {
      match config
      case Some(c) => Ok(c)
      case None => Err(NotFound(ConfigItem))
    }

    /** Loading the NFT-registry address fails until it has been stored. */
    function ReadNftAddress(): (r: Result<Addr>)
      ensures r.Ok? <==> nftAddress.Some?
      ensures r.Err? ==> r.error == NotFound(NftAddressItem)
    {
      match nftAddress
      case Some(a) => Ok(a)
      case None => Err(NotFound(NftAddressItem))
    }

    /** A minter lookup never fails: a missing entry reads as `None`. */
    function ReadMinterInfo(minter: Addr): (r: Option<MinterInfo>)
      ensures r.Some? <==> minter in minters
    {
      if minter in minters then Some(minters[minter]) else None
    }

    /** The registered minters in ascending key order. */
    ghost function ReadMinters(): (r: seq<Addr>)
      ensures forall m :: m in r <==> m in minters
      ensures forall i, j :: 0 <= i < j < |r| ==> Keys.Below(r[i], r[j])
    {
      Keys.AscendingKeys(minters.Keys)
    }

    /** Loading a listing fails when its key is absent. */
    function LoadListing(key: string): (r: Result<Listing>)
      ensures r.Ok? <==> key in listings
      ensures r.Ok? ==> r.value == listings[key]
      ensures r.Err? ==> r.error == NotFound(ListingItem)
    {
      if key in listings then Ok(listings[key]) else Err(NotFound(ListingItem))
    }

    /** The optional load: `None` for an absent key. */
    function MayLoadListing(key: string): (r: Option<Listing>)
      ensures r.Some? <==> key in listings
    {
      if key in listings then Some(listings[key]) else None
    }
  }

  /** Storage before instantiation: every namespace empty. */
  const EmptyStore := Store(None, None, map[], map[])

  /** The contract's storage, which the handlers update in place. */
  class Storage {
    var config: Option<Config>
    var nftAddress: Option<Addr>
    var minters: map<Addr, MinterInfo>
    var listings: map<string, Listing>

    /** The current contents of every namespace. */
    function View(): Store
      reads this
    {
      Store(config, nftAddress, minters, listings)
    }

    constructor ()
      ensures View() == EmptyStore
      ensures View().ReadConfig().Err? && View().ReadNftAddress().Err?
    {
      config, nftAddress, minters, listings := None, None, map[], map[];
    }

    method StoreConfig(data: Config)
      modifies this
      ensures View() == old(View()).(config := Some(data))
      ensures View().ReadConfig() == Ok(data)
    {
      config := Some(data);
    }

    method StoreMinters(minter: Addr, info: MinterInfo)
      modifies this
      ensures View() == old(View()).(minters := old(minters)[minter := info])
      ensures View().ReadMinterInfo(minter) == Some(info)
      ensures forall m :: m != minter ==> View().ReadMinterInfo(m) == old(View()).ReadMinterInfo(m)
    {
      minters := minters[minter := info];
    }

    method RemoveMinter(minter: Addr)
      modifies this
      ensures View() == old(View()).(minters := old(minters) - {minter})
      ensures View().ReadMinterInfo(minter) == None
      ensures forall m :: m != minter ==> View().ReadMinterInfo(m) == old(View()).ReadMinterInfo(m)
      ensures minter !in old(minters) ==> View() == old(View())
    {
      minters := minters - {minter};
    }

    method StoreNftAddress(nftAddress': Addr)
      modifies this
      ensures View() == old(View()).(nftAddress := Some(nftAddress'))
      ensures View().ReadNftAddress() == Ok(nftAddress')
    {
      nftAddress := Some(nftAddress');
    }

    method SaveListing(key: string, listing: Listing)
      modifies this
      ensures View() == old(View()).(listings := old(listings)[key := listing])
      ensures View().LoadListing(key) == Ok(listing)
      ensures forall k :: k != key ==> View().MayLoadListing(k) == old(View()).MayLoadListing(k)
    {
      listings := listings[key := listing];
    }

    method RemoveListing(key: string)
      modifies this
      ensures View() == old(View()).(listings := old(listings) - {key})
      ensures View().LoadListing(key).Err?
      ensures forall k :: k != key ==> View().MayLoadListing(k) == old(View()).MayLoadListing(k)
    {
      listings := listings - {key};
    }
  }
}
