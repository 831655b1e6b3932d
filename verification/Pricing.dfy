/** Amounts per product: operator overlay, then the channel's map, then the channel's fallback. */
module Pricing {
  import opened Base

  datatype PurchaseKind = OneTime | SubscriptionKind

  /** An overlay row sets only the columns the operator set. */
  datatype OverlayRow = OverlayRow(
    name: Option<string>, kind: Option<PurchaseKind>, tokens: Option<int>, archived: bool, updatedAt: int)

  datatype Channel = CloudPaymentsChannel | AdaptyChannel | ManualChannel | StoreKitChannel

  datatype Config = Config(
    tokenProducts: map<string, int>,
    adaptyProducts: map<string, int>,
    cloudProducts: map<string, int>,
    adaptyFallback: int,
    cloudFallback: int,
    periodCredits: int,
    overlay: map<string, OverlayRow>)

  function Lookup(m: map<string, int>, key: string): Option<int> {
    if key in m then Some(m[key]) else None
  }

  function OneTimeCredits(cfg: Config, product: string): Option<int> {
    if product in cfg.overlay && cfg.overlay[product].kind == Some(OneTime) && cfg.overlay[product].tokens.Some?
    then cfg.overlay[product].tokens
    else Lookup(cfg.tokenProducts, product)
  }

  /** Products classified as one-time: the token map, plus the overlay's one-time rows, minus its
      subscription rows. */
  function OneTimeIds(cfg: Config): set<string> {
    (cfg.tokenProducts.Keys + set p | p in cfg.overlay && cfg.overlay[p].kind == Some(OneTime))
    - set p | p in cfg.overlay && cfg.overlay[p].kind == Some(SubscriptionKind)
  }

  /** A mapped zero falls through to the fallback, as `or`-style truthiness does in the source. */
  function MapOrFallback(mapped: Option<int>, fallback: int): int {
    if mapped.Some? && mapped.value != 0 then mapped.value else fallback
  }

  function SubscriptionCredits(cfg: Config, product: Option<string>, channel: Channel): int {
    var key := if product.Some? then product.value else "";
    if key != "" && key in cfg.overlay && cfg.overlay[key].kind == Some(SubscriptionKind) && cfg.overlay[key].tokens.Some?
    then cfg.overlay[key].tokens.value
    else match channel
      case CloudPaymentsChannel => MapOrFallback(Lookup(cfg.cloudProducts, key), cfg.cloudFallback)
      case AdaptyChannel => MapOrFallback(Lookup(cfg.adaptyProducts, key), cfg.adaptyFallback)
      case ManualChannel => MapOrFallback(Lookup(cfg.cloudProducts, key), cfg.periodCredits)
      case StoreKitChannel => cfg.periodCredits
  }

  // ----- Which number a purchase is worth -----

  /** A token pack is worth the operator's number if the operator made it one, else the token map's. */
  lemma OneTimeAmount(cfg: Config, product: string, n: int)
    ensures OneTimeCredits(cfg, product) == Some(n) <==>
            if product in cfg.overlay && cfg.overlay[product].kind == Some(OneTime) && cfg.overlay[product].tokens != None
            then cfg.overlay[product].tokens == Some(n)
            else product in cfg.tokenProducts && cfg.tokenProducts[product] == n
  {
  }

  /** A subscription the operator priced is worth that number on every channel, 0 included. Otherwise each
      channel reads its own map, falls back to its own number, and sees nothing of the others'. */
  lemma SubscriptionAmount(cfg: Config, product: string, n: int)
    requires product != ""
    ensures product in cfg.overlay && cfg.overlay[product].kind == Some(SubscriptionKind) && cfg.overlay[product].tokens == Some(n) ==>
              forall ch :: SubscriptionCredits(cfg, Some(product), ch) == n
    ensures !(product in cfg.overlay && cfg.overlay[product].kind == Some(SubscriptionKind) && cfg.overlay[product].tokens.Some?) ==>
              && (product in cfg.adaptyProducts && cfg.adaptyProducts[product] == n != 0 ==>
                    SubscriptionCredits(cfg, Some(product), AdaptyChannel) == n)
              && (product !in cfg.adaptyProducts || cfg.adaptyProducts[product] == 0 ==>
                    SubscriptionCredits(cfg, Some(product), AdaptyChannel) == cfg.adaptyFallback)
              && (product in cfg.cloudProducts && cfg.cloudProducts[product] == n != 0 ==>
                    && SubscriptionCredits(cfg, Some(product), CloudPaymentsChannel) == n
                    && SubscriptionCredits(cfg, Some(product), ManualChannel) == n)
              && (product !in cfg.cloudProducts || cfg.cloudProducts[product] == 0 ==>
                    && SubscriptionCredits(cfg, Some(product), CloudPaymentsChannel) == cfg.cloudFallback
                    && SubscriptionCredits(cfg, Some(product), ManualChannel) == cfg.periodCredits)
              && SubscriptionCredits(cfg, Some(product), StoreKitChannel) == cfg.periodCredits
  {
  }
}
