# NFT auction marketplace — a Dafny model

This project models the core of a CosmWasm NFT marketplace contract: the
auction of escrowed NFTs (placing a listing, bidding, withdrawing and
settling it with royalty payments), the whitelist-gated mint path, the
owner-gated admin operations and the storage they run over.

The contract's storage holds four namespaces: the `Config` singleton
(a counter, the owner, the auction duration), the NFT-registry address
singleton, a bucket of minter entries and a bucket of listings keyed by
string. Each handler receives the storage, the block environment (height,
the contract's own address) and the invocation's information (sender,
attached native coins). It returns either an error kind or a response
carrying the ordered outbound messages for the host to dispatch.

The model has two layers:

- `Transitions` gives every handler as a pure function from the store
  before the call to `Err(kind)` or to the store to commit plus the
  response. `Properties`, `Runs` and `Scenarios` prove what the marketplace
  promises about these functions.
- `Contract` gives the same handlers as the contract runs them. They
  load, validate, mutate and save through the `State.Storage` class, whose
  methods are the state.rs accessors. Each handler method is proved to
  return and commit exactly what its transition prescribes (`Commits`).
  The two accumulating loops of the source are the methods
  `Royalties.SumTotalRate` and `Royalties.DistributeRoyalties`, proved
  against `SumRates`, `SumCuts` and `RoyaltyMsgs`.

Modules, in dependency order: `Results` (error kinds, `Result`, `Option`),
`Cosmos` (addresses, coins, environment), `Assets` (the native/token asset
and the attached-funds check), `Decimals` (fixed-point rates), `Keys`
(decimal key text, key order), `State`, `Messages`, `Royalties`,
`Transitions`, `Contract`, `Properties`, `Runs`, `Scenarios`.

Representation choices:

- A `Decimal` rate is a natural numerator over 10^18. `amount * rate` is
  `floor(amount * numerator / 10^18)` (`Decimals.MulDecimal`).
- `AssetInfo` is `Native(denom) | Token(contractAddr)` with structural
  equality. Paying an asset (`into_msg`) is a bank send of one coin or a
  CW20 transfer executed on the token contract (`Messages.IntoMsg`).
- The attached-funds check before a bid passes for a token asset. For a
  native asset it passes when the first attached coin of that denomination
  (or zero, if there is none) equals the asset's amount
  (`Assets.SentNativeTokenBalance`).
- The registry's royalty schedules are a parameter of withdrawal, a map
  from token id to schedule (`Transitions.Registry`). They are looked up by
  the listing's `token_id`, and the lookup fails when no NFT address is
  stored or the token is unknown.
- The listing-resolver query aborts on an absent key. It is modelled as
  the explicit outcome `Panic`.

## Source behaviour kept as written

- Placement derives the listing key from `listing_count + 1` but never
  persists the count (src/contract.rs:256-271). Two placements without a
  mint in between share a key, and the second replaces the first
  (`Properties.PlaceTwiceOverwrites`). A leader of the replaced listing
  gets no refund (`Runs.PlaceDisplacesLeader`).
- Withdrawal transfers the NFT under the listing key, not under the
  listing's `token_id` (src/contract.rs:325, 359). The royalty lookup does
  use `token_id` (src/contract.rs:332). `Scenarios.SoldAuction` shows a
  transfer of token "1" for a listing of "tok1".
- A missing NFT address makes placement fail with the storage's
  `NotFound` error; no dedicated error kind exists for it.
- Resolving an absent listing aborts the query
  (src/contract.rs:421) instead of returning an error.
- Minting ignores the requested `collection` and always records
  `Some(1)` (src/contract.rs:182).

## Model

| member | source | states |
|---|---|---|
| `State.Storage.constructor` | src/state.rs:44-50 | Fresh storage is empty: loading the config or the NFT address fails until one is stored |
| `State.Storage.StoreConfig` | src/state.rs:26-33 | `read_config` after `store_config(c)` returns `c`; no other namespace changes |
| `State.Storage.StoreMinters` | src/state.rs:35-37 | Afterwards the minter's lookup is `Some`; every other address's lookup is unchanged |
| `State.Storage.RemoveMinter` | src/state.rs:39-42 | Afterwards the minter's lookup is `None` and other lookups are unchanged; removing an absent minter changes nothing |
| `State.Storage.StoreNftAddress` | src/state.rs:44-50 | Afterwards `read_nft_address` returns the address just stored |
| `State.Storage.SaveListing` | src/state.rs:112-118 | A load after a save returns the saved listing (overwriting any earlier one); other keys are unchanged |
| `State.Storage.RemoveListing` | src/state.rs:112-118 | A load after a remove fails; other keys are unchanged |
| `State.Store.ReadConfig` | src/state.rs:31-33 | Loading the config fails with `NotFound` exactly when none is stored |
| `State.Store.ReadNftAddress` | src/state.rs:48-50 | Loading the NFT address fails with `NotFound` exactly when none is stored |
| `State.Store.ReadMinterInfo` | src/state.rs:60-65 | Never fails: `Some` exactly for a stored minter, `None` otherwise |
| `State.Store.ReadMinters` | src/state.rs:54-58 | Lists exactly the stored minters, in strictly ascending key order |
| `State.Store.LoadListing` | src/contract.rs:205-207 | Loading a listing fails with `NotFound` exactly when its key is absent, else returns the stored listing |
| `State.Store.MayLoadListing` | src/contract.rs:417-420 | The optional load is `None` exactly when the key is absent |
| `Keys.AscendingKeys` | src/state.rs:54-58 | The keys of a namespace, each once, in strictly ascending byte order |
| `Keys.NatToStringRoundTrip` | src/contract.rs:269 | The decimal text of a counter reads back as that counter |
| `Keys.NatToStringInjective` | src/contract.rs:269 | Different counters give different listing keys |
| `Assets.SentAmount` | src/contract.rs:202-203 | The attached amount of a denomination is the first such coin's amount, or zero when none is attached |
| `Assets.SentNativeTokenBalance` | src/contract.rs:202-203 | A token asset always passes; a native asset passes exactly when the first attached coin of its denomination carries its amount, or, with no such coin, when the amount is zero. A failure is reported as `InsufficientFundsSend` |
| `Transitions.QueryNftRoyalties` | src/contract.rs:378-392 | (called from withdrawal at line 332) Without a stored NFT address it fails with `NotFound`; for a token the registry does not know it fails with `QueryFailed`; otherwise it returns that token's royalty schedule |
| `Decimals.MulDecimalAtMost` | src/contract.rs:337 | A cut at a rate of at most 1 never exceeds the amount |
| `Messages.IntoMsgRoundTrip` | src/contract.rs:227 | A payment message names exactly the recipient and asset it was built from |
| `Royalties.SumTotalRate` | src/contract.rs:153-158 | The loop accumulates the sum of the schedule's rates |
| `Royalties.DistributeRoyalties` | src/contract.rs:329-341 | Succeeds exactly when no running remainder goes negative (else `Overflow`); then emits one payment per entry in order, and the residual plus the cuts equals the sale amount |
| `Royalties.NoUnderflowIff` | src/contract.rs:330-341 | No running remainder goes negative exactly when the cuts of the whole schedule fit in the amount |
| `Royalties.RatesAtMostOneFit` | src/contract.rs:153-162 | Rates summing to at most 1 (the mint-time bound) make the cuts fit, so settlement cannot underflow |
| `Royalties.SumCutsBound` | src/contract.rs:337 | The rounded-down cuts add up to at most the amount times the summed rates |
| `Royalties.RoyaltyMsgsAt` | src/contract.rs:334-338 | Entry i of the royalty payments pays entry i of the schedule its cut, in the sale's currency |
| `Royalties.RoyaltyMsgsPaid` | src/contract.rs:334-341 | The royalty payments add up to the sum of the cuts |
| `Royalties.SettleSaleConserves` | src/contract.rs:329-347 | The royalty payments plus the seller's residual add up exactly to the sale amount |
| `Transitions.QueryListResolver` | src/contract.rs:413-431 | Answers the stored listing for a present key and aborts for an absent one; never returns an ordinary error |
| `Contract.Instantiate` | src/contract.rs:21-36 | Stores the initial config, as `Transitions.Instantiate` prescribes |
| `Contract.SetNftAddress` | src/contract.rs:63-78 | Returns and commits exactly what the transition prescribes; a failure leaves the storage untouched |
| `Contract.UpdateMinters` | src/contract.rs:80-97 | Returns and commits exactly what the transition prescribes; a failure leaves the storage untouched |
| `Contract.UnregisterMinter` | src/contract.rs:99-114 | Returns and commits exactly what the transition prescribes; a failure leaves the storage untouched |
| `Contract.ReceiveToken` | src/contract.rs:116-136 | Re-dispatches the notification as a token-denominated bid or placement for the token's sender, as the transition prescribes |
| `Contract.ExecuteMint` | src/contract.rs:138-192 | Returns and commits exactly what the transition prescribes; a failure leaves the storage untouched |
| `Contract.ExecuteBidListing` | src/contract.rs:194-243 | Returns and commits exactly what the transition prescribes; a failure leaves the storage untouched |
| `Contract.ExecutePlaceListing` | src/contract.rs:245-295 | Returns and commits exactly what the transition prescribes; a failure leaves the storage untouched |
| `Contract.ExecuteWithdrawListing` | src/contract.rs:297-365 | Returns and commits exactly what the transition prescribes; a failure adds or changes no entry |
| `Contract.Execute` | src/contract.rs:38-61 | Routes each message to its handler and returns and commits what `Transitions.Execute` prescribes |
| `Properties.TimeWindows` | src/contract.rs:209-211 | (with the withdrawal check at lines 308-310) Bidding fails with `AuctionEnded` exactly when height > block limit, withdrawal with `AuctionNotEnded` exactly when height <= block limit; exactly one passes at every height |
| `Properties.BidAcceptance` | src/contract.rs:202-222 | A bid is accepted exactly when funds match, the listing exists, the auction is open, the currency matches and the amount is at least the current one (equal accepted); each failing check gives its error, in source order |
| `Properties.BidEffects` | src/contract.rs:224-242 | The sender and bid become the leader; token, registry, seller, block limit and currency are unchanged and nothing else in the store changes; one refund of the old bid to the old leader exactly when that leader is not the contract |
| `Properties.PlaceEffects` | src/contract.rs:253-294 | Fails only without a stored NFT address; stores the listing under key `count+1` with the minimum bid, the contract as leader and block limit height + duration; the counter is unchanged; emits approve then transfer |
| `Properties.PlaceTwiceOverwrites` | src/contract.rs:256-271 | Two placements without a mint between share a key; the second replaces the first |
| `Properties.WithdrawRemoves` | src/contract.rs:304-314 | A successful withdrawal removes only that listing; a second withdrawal or a bid on the key fails with `NotFound` and resolving it aborts |
| `Properties.WithdrawUnsold` | src/contract.rs:352-363 | Without a bid, exactly one message returns the NFT to the seller and nothing is paid |
| `Properties.WithdrawSold` | src/contract.rs:318-351 | NFT to the leader first, then one rounded-down cut per royalty entry in order, then the residual to the seller, all in the bid's currency and summing to the bid; fails with `Overflow` exactly when a remainder would go negative, never when rates sum to at most 1 |
| `Properties.MintEffects` | src/contract.rs:145-191 | Unauthorized without a minter entry; InvalidRoyaltyRate when rates sum past 1; on success the counter goes up by one and is persisted, and one mint message for `GF.<count>` carries the royalties verbatim |
| `Properties.MintTokenIdInjective` | src/contract.rs:169 | Different counter values give different token ids |
| `Properties.OwnerGating` | src/contract.rs:63-114 | The admin operations succeed exactly for the owner, writing one namespace; anyone else gets `Unauthorized` and nothing is written |
| `Properties.InstantiateConfig` | src/contract.rs:27-33 | Instantiation stores counter 0, the sender as owner and a 50 000-block duration |
| `Runs.StepMintIds` | src/contract.rs:164-169 | Only a mint asks for a token, advancing the counter by one to the minted id's number; every other handler leaves the counter alone |
| `Runs.StepCounter` | src/contract.rs:164-169 | Any invocation, successful or failed, advances the counter by exactly the number of ids it mints, and those ids continue the numbering |
| `Runs.MintedIdsConsecutive` | src/contract.rs:164-169 | Over any sequence of invocations the minted ids are GF.(n+1), GF.(n+2), ... and the counter ends at n plus the number of mints |
| `Runs.MintedIdsDistinct` | src/contract.rs:164-169 | No token id is ever minted twice |
| `Runs.StepEvolves` | src/contract.rs:225-232 | Every invocation keeps each surviving listing's token, seller, block limit and currency, never lowers its amount, and adds no listing, except at the one key a successful placement writes |
| `Runs.RunEvolves` | src/contract.rs:225-232 | Over any sequence of invocations, at every key no placement in it wrote, a listing's block limit and currency are fixed and its leading amount never decreases |
| `Runs.PlaceDisplacesLeader` | src/contract.rs:269-294 | A placement writes its key with the contract as leader and emits no payment, so a replaced listing's leader is not refunded |
| `Scenarios.SoldAuction` | src/contract.rs:194-365 | Place at 100, bid 150 accepted, bid 120 refused, withdrawal after expiry gives the NFT to the bidder and pays 15 royalty and 135 to the seller |
| `Scenarios.UnsoldAuction` | src/contract.rs:318-363 | A listing nobody bids on goes back to its seller and the listing is removed |

## Left out

- Serialization (`to_binary`, `from_binary`), response attributes, JSON schema and entry-point wiring. The CW20 notification arrives with its inner action already decoded, so a decode failure in `receive_token` is not modelled.
- The `query` router and the cross-contract queries `query_nft_info` and `query_all_nft_ids`. Withdrawal receives the registry's royalty schedules as a parameter instead.
- src/asset.rs is not part of this model. The attached-funds check and `into_msg` follow the behaviour stated above; any tax deduction or failure inside `into_msg` is not modelled.
- Address validation (`addr_validate`) is the identity, so it never fails.
- Overflow panics of `u64`, `Uint128` and `Decimal` arithmetic (counter increment, block-limit sum, rate sum, `multiply_ratio`). All integers are unbounded.
- Host atomicity, message dispatch and re-entrancy. The model stops at the returned message list. Discarding a failed invocation's writes is modelled over runs by `Runs.Next`, which keeps the store a failed step found; `Commits` states only that a failed handler adds or changes no entry.
- Contract.ExecuteWithdrawListing: on a failure after the listing was removed, the storage still lacks the listing. The host's rollback that restores it is not modelled, so the failure case states only that no entry was added or changed.
- State.Store.ReadMinters: defined as a ghost function, because choosing the least key of a set is not executable here.
