/** The checkout gate against the webhook: which products a link may be issued for. */
module Checkout {
  import opened Base
  import opened Pricing
  import opened CloudPayments

  /** `validate_product`: true when a link is issued, false for `422 unknown_product`. */
  predicate ValidateProduct(product: string, cfg: Config) {
    var kind := ClassifyProduct(product, OneTimeIds(cfg));
    && kind != UnknownClass
    && !(kind == TokensClass && (OneTimeCredits(cfg, product).None? || OneTimeCredits(cfg, product).value <= 0))
  }

  predicate KnownPaymentType(p: Payment) {
    p.paymentType == "one_time" || p.paymentType == "subscription"
  }

  /** The webhook never skips a product the checkout accepted, whichever type the provider reports. */
  lemma AcceptedIsNeverSkipped(p: Payment, cfg: Config)
    requires ValidateProduct(p.productCode, cfg) && KnownPaymentType(p)
    ensures CreditsOf(p, cfg).Some?
  {
    hide Lower, Contains;
  }

  /** The converse, exactly. A payment reported as one-time is credited for the accepted products, and
      also for a product no rule classifies that the token map still prices: one whose overlay row is of
      the subscription class. For it the class comes from one set and the amount from another. */
  lemma OneTimeCreditedIff(p: Payment, cfg: Config)
    requires p.paymentType == "one_time"
    ensures CreditsOf(p, cfg).Some? <==>
            || ValidateProduct(p.productCode, cfg)
            || (ClassifyProduct(p.productCode, OneTimeIds(cfg)) == UnknownClass
                && OneTimeCredits(cfg, p.productCode).Some? && OneTimeCredits(cfg, p.productCode).value > 0)
    ensures ClassifyProduct(p.productCode, OneTimeIds(cfg)) == UnknownClass && OneTimeCredits(cfg, p.productCode).Some? ==>
              && p.productCode in cfg.tokenProducts
              && p.productCode in cfg.overlay && cfg.overlay[p.productCode].kind == Some(SubscriptionKind)
  {
    hide Lower, Contains;
  }

  /** A product of that family: refused at checkout, credited by the webhook. */
  lemma RefusedButCredited(cfg: Config, p: Payment)
    requires cfg.tokenProducts == map["gem" := 5]
    requires cfg.overlay.Keys == {"gem"} && cfg.overlay["gem"].kind == Some(SubscriptionKind)
    requires p.productCode == "gem" && p.paymentType == "one_time"
    ensures !ValidateProduct("gem", cfg) && CreditsOf(p, cfg) == Some(5)
  {
    assert "gem" !in OneTimeIds(cfg);
    PlainName();
    hide TokensName, LooksLikeSubscription, OneTimeIds;
  }

  lemma PlainName()
    ensures !TokensName("gem") && !LooksLikeSubscription("gem")
  {
    assert Lower("gem") == "gem";
    assert !TokensName("gem");
    assert !LooksLikeSubscription("gem") by {
      assert |INTERVAL_KEYWORDS[0]| == 4 && |INTERVAL_KEYWORDS[1]| == 5 && |INTERVAL_KEYWORDS[2]| == 4;
      assert INTERVAL_KEYWORDS[3] == "day";
      forall i | 0 <= i <= 3 ensures !("day" <= "gem"[i..]) {
        assert i == 0 ==> "gem"[0] != "day"[0];
      }
    }
  }
}
