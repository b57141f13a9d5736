/** Invariants over any sequence of invocations, and the end-to-end auction
    scenarios. A failed invocation commits nothing, so the store it leaves is
    the one it found. */
module Runs {
  import opened Results
  import opened Cosmos
  import opened Assets
  import opened State
  import opened Messages
  import opened Royalties
  import opened Transitions
  import opened Properties

  datatype Call = Call(env: Env, info: MessageInfo, msg: ExecuteMsg)

  function Step(st: Store, call: Call, registry: Registry): Result<Outcome>
  {
    Execute(st, call.env, call.info, call.msg, registry)
  }

  /** The store a successful step commits, or the unchanged store. */
  function Next(st: Store, call: Call, registry: Registry): Store
  {
    var r := Step(st, call, registry);
    if r.Ok? then r.value.store else st
  }

  function Run(st: Store, calls: seq<Call>, registry: Registry): Store
    decreases |calls|
  {
    if calls == [] then st else Run(Next(st, calls[0], registry), calls[1..], registry)
  }

  /** The token ids a message list asks the registry to mint. */
  function MintIds(msgs: seq<CosmosMsg>): seq<string>
    decreases |msgs|
  {
    if msgs == [] then []
    else (if msgs[0].NftMint? then [msgs[0].tokenId] else []) + MintIds(msgs[1..])
  }

  /** Every token id minted by a sequence of invocations, in order. */
  function MintedIds(st: Store, calls: seq<Call>, registry: Registry): seq<string>
    decreases |calls|
  {
    if calls == [] then []
    else StepIds(st, calls[0], registry) + MintedIds(Next(st, calls[0], registry), calls[1..], registry)
  }

  /** The token ids one invocation mints: none when it fails. */
  function StepIds(st: Store, call: Call, registry: Registry): seq<string>
  {
    var r := Step(st, call, registry);
    if r.Ok? then MintIds(r.value.response.messages) else []
  }

  /** The invocations that (re-)place a listing. */
  predicate Places(msg: ExecuteMsg)
  {
    msg.PlaceListing? || (msg.ReceiveToken? && msg.wrapper.msg.HookPlaceListing?)
  }

  lemma {:induction false} MintIdsNone(msgs: seq<CosmosMsg>)
    requires forall i :: 0 <= i < |msgs| ==> !msgs[i].NftMint?
    ensures MintIds(msgs) == []
    decreases |msgs|
  {
    if msgs != [] {
      MintIdsNone(msgs[1..]);
    }
  }

  /** Only a mint asks for a token to be minted, and it advances the counter
      by one to the minted id's number; every other invocation leaves the
      counter alone. */
  lemma StepMintIds(st: Store, call: Call, registry: Registry)
    requires st.config.Some? && Step(st, call, registry).Ok?
    ensures var o := Step(st, call, registry).value;
            var n := st.config.value.listingCount;
            && o.store.config.Some?
            && ((o.store.config.value.listingCount == n && MintIds(o.response.messages) == [])
                || (o.store.config.value.listingCount == n + 1
                    && MintIds(o.response.messages) == [MintTokenId(n + 1)]))
  {
    var o := Step(st, call, registry).value;
    var msgs := o.response.messages;
    match call.msg {
      case Mint(m) =>
        assert MintIds(msgs[1..]) == [];
      case WithdrawListing(id) =>
        var listing := st.listings[id];
        if call.env.contractAddress != listing.maxBidder {
          var schedule := registry[listing.tokenId];
          RoyaltyMsgsAt(listing.maxBid.info, listing.maxBid.amount, schedule);
        }
        MintIdsNone(msgs);
      case _ =>
        MintIdsNone(msgs);
    }
  }

  /** Over any sequence of invocations after instantiation the minted ids
      are GF.(n+1), GF.(n+2), ... in order, where n is the starting counter,
      and the counter ends at n plus the number of mints. */
  lemma {:induction false} MintedIdsConsecutive(st: Store, calls: seq<Call>, registry: Registry)
    requires st.config.Some?
    ensures Run(st, calls, registry).config.Some?
    ensures var n := st.config.value.listingCount;
            var ids := MintedIds(st, calls, registry);
            && Run(st, calls, registry).config.value.listingCount == n + |ids|
            && forall i :: 0 <= i < |ids| ==> ids[i] == MintTokenId(n + i + 1)
    decreases |calls|
  {
    if calls != [] {
      var next := Next(st, calls[0], registry);
      StepCounter(st, calls[0], registry);
      MintedIdsConsecutive(next, calls[1..], registry);
    }
  }

  /** One invocation, successful or not, advances the counter by the number
      of ids it mints, and those ids continue the numbering. */
  lemma StepCounter(st: Store, call: Call, registry: Registry)
    requires st.config.Some?
    ensures var n := st.config.value.listingCount;
            var next := Next(st, call, registry);
            var ids := StepIds(st, call, registry);
            && next.config.Some? && next.config.value.listingCount == n + |ids|
            && forall i :: 0 <= i < |ids| ==> ids[i] == MintTokenId(n + i + 1)
  {
    if Step(st, call, registry).Ok? {
      StepMintIds(st, call, registry);
    }
  }

  /** No token id is ever minted twice. */
  lemma MintedIdsDistinct(st: Store, calls: seq<Call>, registry: Registry)
    requires st.config.Some?
    ensures var ids := MintedIds(st, calls, registry);
            forall i, j :: 0 <= i < j < |ids| ==> ids[i] != ids[j]
  {
    var n := st.config.value.listingCount;
    var ids := MintedIds(st, calls, registry);
    MintedIdsConsecutive(st, calls, registry);
    forall i, j | 0 <= i < j < |ids| ensures ids[i] != ids[j] {
      MintTokenIdInjective(n + i + 1, n + j + 1);
    }
  }

  /** The listing key a successful placement writes, or none. */
  function Placed(st: Store, call: Call, registry: Registry): set<string>
  {
    if Places(call.msg) && Step(st, call, registry).Ok? && st.config.Some?
    then {Keys.NatToString(st.config.value.listingCount + 1)}
    else {}
  }

  /** Every listing key written by a successful placement along a run. */
  function PlacedKeys(st: Store, calls: seq<Call>, registry: Registry): set<string>
    decreases |calls|
  {
    if calls == [] then {}
    else Placed(st, calls[0], registry) + PlacedKeys(Next(st, calls[0], registry), calls[1..], registry)
  }

  /** Every invocation keeps each surviving listing's token, registry,
      seller, block limit and currency, never lowers its leading amount, and
      adds no listing, except at the one key a successful placement writes. */
  lemma StepEvolves(st: Store, call: Call, registry: Registry)
    ensures var after := Next(st, call, registry);
            forall k :: k in after.listings && k !in Placed(st, call, registry) ==>
              k in st.listings && Evolves(st.listings[k], after.listings[k])
  {
    match call.msg
    case PlaceListing(id, minimumBid) =>
      if st.nftAddress.Some? && st.config.Some? {
        PlaceEffects(st, call.env, id, minimumBid, call.info.sender);
      }
    case ReceiveToken(wrapper) =>
      if wrapper.msg.HookPlaceListing? && st.nftAddress.Some? && st.config.Some? {
        var asset := Asset(Token(call.info.sender), wrapper.amount);
        PlaceEffects(st, call.env, wrapper.msg.id, asset, wrapper.sender);
      }
    case _ =>
  }

  /** The same over any sequence of invocations: outside the keys that
      placements wrote, a listing's block limit and currency are fixed for
      its lifetime and its leading amount only grows. */
  lemma {:induction false} RunEvolves(st: Store, calls: seq<Call>, registry: Registry)
    ensures var after := Run(st, calls, registry);
            forall k :: k in after.listings && k !in PlacedKeys(st, calls, registry) ==>
              k in st.listings && Evolves(st.listings[k], after.listings[k])
    decreases |calls|
  {
    if calls != [] {
      var next := Next(st, calls[0], registry);
      StepEvolves(st, calls[0], registry);
      RunEvolves(next, calls[1..], registry);
    }
  }

  /** A placement over a key whose listing has a real leader replaces it
      outright: the leader's escrowed bid is neither kept nor refunded, and
      the leading amount may fall to the new minimum. */
  lemma PlaceDisplacesLeader(st: Store, call: Call, registry: Registry)
    requires Places(call.msg) && Step(st, call, registry).Ok? && st.config.Some?
    ensures var key := Keys.NatToString(st.config.value.listingCount + 1);
            var o := Step(st, call, registry).value;
            && key in Placed(st, call, registry)
            && key in o.store.listings
            && o.store.listings[key].maxBidder == call.env.contractAddress
            && forall i :: 0 <= i < |o.response.messages| ==> PaymentOf(o.response.messages[i]).None?
  {
  }
}
