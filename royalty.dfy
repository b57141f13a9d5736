/** Royalty distribution at settlement: each royalty entry receives the sale
    amount times its rate, rounded down, taken from a running remainder; the
    seller receives what remains. */
module Royalties {
  import opened Results
  import opened Cosmos
  import opened Assets
  import opened Decimals
  import opened State
  import opened Messages

  /** The sum of the rates of a royalty schedule. */
  function SumRates(royalties: seq<Royalty>): nat
    decreases |royalties|
  {
    if royalties == [] then 0
    else SumRates(royalties[..|royalties| - 1]) + royalties[|royalties| - 1].royaltyRate
  }

  /** One entry's cut of the sale amount. */
  function Cut(total: nat, royalty: Royalty): nat
  {
    MulDecimal(total, royalty.royaltyRate)
  }

  /** The sum of the cuts of a schedule. */
  function SumCuts(total: nat, schedule: seq<Royalty>): nat
    decreases |schedule|
  {
    if schedule == [] then 0
    else SumCuts(total, schedule[..|schedule| - 1]) + Cut(total, schedule[|schedule| - 1])
  }

  /** The message paying one entry its cut, in the sale's currency. */
  function RoyaltyMsg(info: AssetInfo, total: nat, royalty: Royalty): CosmosMsg
  {
    IntoMsg(Asset(info, Cut(total, royalty)), royalty.address)
  }

  /** The royalty payments of a schedule, in schedule order. */
  function RoyaltyMsgs(info: AssetInfo, total: nat, schedule: seq<Royalty>): seq<CosmosMsg>
    decreases |schedule|
  {
    if schedule == [] then []
    else RoyaltyMsgs(info, total, schedule[..|schedule| - 1]) + [RoyaltyMsg(info, total, schedule[|schedule| - 1])]
  }

  /** No running remainder goes negative: after every prefix of the schedule
      the cuts paid so far do not exceed the sale amount. */
  predicate NoUnderflow(total: nat, schedule: seq<Royalty>)
  {
    forall k :: 0 <= k <= |schedule| ==> SumCuts(total, schedule[..k]) <= total
  }

  /** The whole sold-case payout: one payment per royalty entry and the
      residual to the seller, or the underflow error. */
  function SettleSale(info: AssetInfo, total: nat, schedule: seq<Royalty>, seller: Addr): Result<seq<CosmosMsg>>
  {
    if SumCuts(total, schedule) <= total then
      Ok(RoyaltyMsgs(info, total, schedule) + [IntoMsg(Asset(info, total - SumCuts(total, schedule)), seller)])
    else Err(Overflow)
  }

  lemma {:induction false} SumCutsPrefix(total: nat, schedule: seq<Royalty>, k: nat)
    requires k <= |schedule|
    ensures SumCuts(total, schedule[..k]) <= SumCuts(total, schedule)
    decreases |schedule|
  {
    if k < |schedule| {
      var init := schedule[..|schedule| - 1];
      assert init[..k] == schedule[..k];
      SumCutsPrefix(total, init, k);
    } else {
      assert schedule[..k] == schedule;
    }
  }

  /** The remainder never goes negative exactly when the cuts of the whole
      schedule fit in the sale amount. */
  lemma NoUnderflowIff(total: nat, schedule: seq<Royalty>)
    ensures NoUnderflow(total, schedule) <==> SumCuts(total, schedule) <= total
  {
    assert schedule[..|schedule|] == schedule;
    if SumCuts(total, schedule) <= total {
      forall k | 0 <= k <= |schedule| ensures SumCuts(total, schedule[..k]) <= total {
        SumCutsPrefix(total, schedule, k);
      }
    }
  }

  lemma {:induction false} SumCutsBound(total: nat, schedule: seq<Royalty>)
    ensures SumCuts(total, schedule) <= total * SumRates(schedule) / DECIMAL_FRACTIONAL
    decreases |schedule|
  {
    if schedule != [] {
      var init, last := schedule[..|schedule| - 1], schedule[|schedule| - 1];
      SumCutsBound(total, init);
      DivAddLe(total * SumRates(init), total * last.royaltyRate, DECIMAL_FRACTIONAL);
      assert total * SumRates(init) + total * last.royaltyRate == total * SumRates(schedule);
    }
  }

  /** Rates summing to at most 1, as minting enforces, never make the
      settlement underflow: the cuts fit in the sale amount. */
  lemma RatesAtMostOneFit(total: nat, schedule: seq<Royalty>)
    requires SumRates(schedule) <= DECIMAL_FRACTIONAL
    ensures SumCuts(total, schedule) <= total
    ensures NoUnderflow(total, schedule)
  {
    SumCutsBound(total, schedule);
    MulMonotone(total, DECIMAL_FRACTIONAL, SumRates(schedule));
    DivUpperBound(total * SumRates(schedule), DECIMAL_FRACTIONAL, total);
    NoUnderflowIff(total, schedule);
  }

  /** The royalty messages are one payment per entry, in schedule order. */
  lemma {:induction false} RoyaltyMsgsAt(info: AssetInfo, total: nat, schedule: seq<Royalty>)
    ensures |RoyaltyMsgs(info, total, schedule)| == |schedule|
    ensures forall i :: 0 <= i < |schedule| ==>
      RoyaltyMsgs(info, total, schedule)[i] == IntoMsg(Asset(info, Cut(total, schedule[i])), schedule[i].address)
    decreases |schedule|
  {
    if schedule != [] {
      RoyaltyMsgsAt(info, total, schedule[..|schedule| - 1]);
    }
  }

  /** The royalty messages pay out exactly the sum of the cuts. */
  lemma {:induction false} RoyaltyMsgsPaid(info: AssetInfo, total: nat, schedule: seq<Royalty>)
    ensures TotalPaid(RoyaltyMsgs(info, total, schedule)) == SumCuts(total, schedule)
    decreases |schedule|
  {
    if schedule != [] {
      var init := schedule[..|schedule| - 1];
      var msgs := RoyaltyMsgs(info, total, schedule);
      assert msgs[..|msgs| - 1] == RoyaltyMsgs(info, total, init);
      IntoMsgRoundTrip(Asset(info, Cut(total, schedule[|schedule| - 1])), schedule[|schedule| - 1].address);
      RoyaltyMsgsPaid(info, total, init);
    }
  }

  /** Settlement conserves value: the royalty payments and the seller's
      residual add up to the sale amount, all in the sale's currency. */
  lemma SettleSaleConserves(info: AssetInfo, total: nat, schedule: seq<Royalty>, seller: Addr)
    requires SettleSale(info, total, schedule, seller).Ok?
    ensures TotalPaid(SettleSale(info, total, schedule, seller).value) == total
  {
    var royalties := RoyaltyMsgs(info, total, schedule);
    var msgs := SettleSale(info, total, schedule, seller).value;
    assert msgs[..|msgs| - 1] == royalties;
    RoyaltyMsgsPaid(info, total, schedule);
    IntoMsgRoundTrip(Asset(info, total - SumCuts(total, schedule)), seller);
  }

  /** The accumulation of the schedule's rates, entry by entry. */
  method SumTotalRate(royalties: seq<Royalty>) returns (sum: nat)
    ensures sum == SumRates(royalties)
  {
    sum := 0;
    for i := 0 to |royalties|
      invariant sum == SumRates(royalties[..i])
    {
      assert royalties[..i + 1][..i] == royalties[..i];
      sum := sum + royalties[i].royaltyRate;
    }
    assert royalties[..|royalties|] == royalties;
  }

  /** The payout of the sold case. */
  datatype Payout = Payout(payments: seq<CosmosMsg>, residual: nat)

  /** Pays each entry its cut while subtracting it from the running
      remainder with an underflow check; the final remainder is the
      seller's residual. */
  method DistributeRoyalties(info: AssetInfo, total: nat, schedule: seq<Royalty>) returns (r: Result<Payout>)
    ensures r.Ok? <==> NoUnderflow(total, schedule)
    ensures r.Ok? ==> r.value.payments == RoyaltyMsgs(info, total, schedule)
    ensures r.Ok? ==> r.value.residual + SumCuts(total, schedule) == total
    ensures r.Err? ==> r.error == Overflow
  {
    var msgs := [];
    var remain := total;
    for i := 0 to |schedule|
      invariant msgs == RoyaltyMsgs(info, total, schedule[..i])
      invariant remain + SumCuts(total, schedule[..i]) == total
      invariant forall k :: 0 <= k <= i ==> SumCuts(total, schedule[..k]) <= total
    {
      var prefix := schedule[..i + 1];
      assert prefix[..i] == schedule[..i];
      var cut := Cut(total, schedule[i]);
      msgs := msgs + [IntoMsg(Asset(info, cut), schedule[i].address)];
      if cut > remain {
        assert SumCuts(total, prefix) > total;
        return Err(Overflow);
      }
      remain := remain - cut;
    }
    assert schedule[..|schedule|] == schedule;
    r := Ok(Payout(msgs, remain));
  }
}
