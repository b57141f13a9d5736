/** The asset abstraction that unifies the two payment rails: a native coin
    denomination or a CW20 token contract. */
module Assets {
  import opened Cosmos

  datatype AssetInfo = Native(denom: string) | Token(contractAddr: Addr)

  datatype Asset = Asset(info: AssetInfo, amount: nat)

  /** Coin `i` is the first attached coin of `denom`. */
  predicate FirstOfDenom(funds: seq<Coin>, denom: string, i: int)
  {
    0 <= i < |funds| && funds[i].denom == denom && forall j :: 0 <= j < i ==> funds[j].denom != denom
  }

  /** The amount of `denom` found in the attached coins: the first coin of
      that denomination, or zero when there is none. */
  function SentAmount(funds: seq<Coin>, denom: string): (n: nat)
    ensures (forall i :: 0 <= i < |funds| ==> funds[i].denom != denom) ==> n == 0
    ensures forall i :: FirstOfDenom(funds, denom, i) ==> n == funds[i].amount
  {
    if funds == [] then 0
    else if funds[0].denom == denom then funds[0].amount
    else SentAmount(funds[1..], denom)
  }

  /** The check run before a bid: a native asset must be matched exactly by
      the coins attached to the invocation; a token asset is already vouched
      for by the token contract's notification, so nothing is checked. */
  predicate SentNativeTokenBalance(asset: Asset, info: MessageInfo): (ok: bool)
    ensures asset.info.Token? ==> ok
    ensures forall i :: asset.info.Native? && FirstOfDenom(info.funds, asset.info.denom, i) ==>
              (ok <==> info.funds[i].amount == asset.amount)
    ensures asset.info.Native? && (forall i :: 0 <= i < |info.funds| ==> info.funds[i].denom != asset.info.denom) ==>
              (ok <==> asset.amount == 0)
  {
    match asset.info
    case Native(denom) => SentAmount(info.funds, denom) == asset.amount
    case Token(_) => true
  }
}
