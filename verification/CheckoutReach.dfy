/** The checkout gate against the webhook on the configurations the product editor can reach. */
module CheckoutReach {
  import opened Base
  import opened Pricing
  import opened CloudPayments
  import opened Checkout
  import Database
  import Wallet
  import CloudPaymentsDelivery
  import OverlayProducts

  type Catalog = map<string, OverlayProducts.SourceRow>

  /** No product of the token map carries a row of the subscription class. */
  ghost predicate TokensStayTokens(cfg: Config, rows: OverlayProducts.Rows) {
    forall id :: id in cfg.tokenProducts && id in rows ==> rows[id].kind != Some(SubscriptionKind)
  }

  lemma StepKeepsTokens(cfg: Config, catalog: Catalog, st: OverlayProducts.State, op: OverlayProducts.Op)
    requires TokensStayTokens(cfg, st.rows)
    ensures TokensStayTokens(cfg, OverlayProducts.Step(st, cfg, catalog, op).rows)
  {
    hide Strip, OverlayProducts.BadId, OverlayProducts.TokensRefusal;
    var id := OverlayProducts.Target(op);
    if op.Create? && id in cfg.tokenProducts {
      assert OverlayProducts.Merged(OverlayProducts.SourceOf(cfg, catalog, id), st.rows, id).Some?;
    }
  }

  /** The editor never moves a product of the token map to the subscription class. */
  lemma {:induction false} EditorKeepsTokens(cfg: Config, catalog: Catalog, st: OverlayProducts.State, ops: seq<OverlayProducts.Op>)
    requires TokensStayTokens(cfg, st.rows)
    ensures TokensStayTokens(cfg, OverlayProducts.Run(st, cfg, catalog, ops).rows)
    decreases |ops|
  {
    hide TokensStayTokens, OverlayProducts.Step;
    if ops != [] {
      var n := |ops| - 1;
      EditorKeepsTokens(cfg, catalog, st, ops[..n]);
      StepKeepsTokens(cfg, catalog, OverlayProducts.Run(st, cfg, catalog, ops[..n]), ops[n]);
    }
  }

  /** So under one environment, starting from no rows, gate and webhook agree after every run of the editor:
      a one-time payment is credited iff its product is accepted at checkout. */
  lemma ReachableOneTimeCreditedIff(cfg: Config, catalog: Catalog, audit: seq<OverlayProducts.Event>,
                                    ops: seq<OverlayProducts.Op>, p: Payment)
    requires p.paymentType == "one_time"
    ensures var reached := OverlayProducts.With(cfg, OverlayProducts.Run(OverlayProducts.State(map[], audit), cfg, catalog, ops));
            CreditsOf(p, reached).Some? <==> ValidateProduct(p.productCode, reached)
  {
    var st := OverlayProducts.Run(OverlayProducts.State(map[], audit), cfg, catalog, ops);
    EditorKeepsTokens(cfg, catalog, OverlayProducts.State(map[], audit), ops);
    OneTimeCreditedIff(p, OverlayProducts.With(cfg, st));
    hide OverlayProducts.Run, CreditsOf, ValidateProduct, ClassifyProduct, OneTimeIds, OneTimeCredits;
  }

  /** The disagreement needs the environment to change: a subscription the operator created, whose id later
      appears in the token map. It is refused at checkout and credited as a one-time purchase. */
  lemma TokenMapGainsOperatorProduct(cfg: Config, catalog: Catalog, now: OverlayProducts.Stamp, p: Payment)
    requires cfg.tokenProducts == map[] && "gem" !in cfg.adaptyProducts && "gem" !in cfg.cloudProducts && "gem" !in catalog
    requires p.productCode == "gem" && p.paymentType == "one_time"
    ensures var create := OverlayProducts.Create(OverlayProducts.CreateRequest("gem", "Gem", SubscriptionKind, 7, None), now);
            var st := OverlayProducts.Step(OverlayProducts.State(map[], []), cfg, catalog, create);
            var later := OverlayProducts.With(cfg, st).(tokenProducts := map["gem" := 5]);
            "gem" in st.rows && !ValidateProduct("gem", later) && CreditsOf(p, later) == Some(5)
  {
    var r := OverlayProducts.CreateRequest("gem", "Gem", SubscriptionKind, 7, None);
    assert StripLeft("gem") == "gem" && StripRight("gem") == "gem";
    assert !OverlayProducts.BadId("gem");
    var st := OverlayProducts.CreateSpec(OverlayProducts.State(map[], []), OverlayProducts.SourceOf(cfg, catalog, "gem"), r, now);
    assert st.rows == map["gem" := OverlayRow(Some("Gem"), Some(SubscriptionKind), Some(7), false, now)];
    hide OverlayProducts.CreateSpec;
    RefusedButCredited(OverlayProducts.With(cfg, st).(tokenProducts := map["gem" := 5]), p);
  }

  /** Not skipped is not yet credited: a new payment of an accepted product is credited iff it is worth
      something, and raises otherwise. Only subscriptions can be accepted and worth nothing. */
  lemma AcceptedIsCreditedIff(t: Database.Tables, p: Payment, u: Database.UserId, now: Database.Instant, cfg: Config)
    requires CloudPaymentsDelivery.Paired(t) && p.paymentId !in t.cpEvents
    requires ValidateProduct(p.productCode, cfg) && KnownPaymentType(p)
    ensures CreditsOf(p, cfg).Some?
    ensures PaymentSpec(t, p, u, now, cfg).Ok? <==> CreditsOf(p, cfg).value > 0
    ensures PaymentSpec(t, p, u, now, cfg).Ok? ==> PaymentSpec(t, p, u, now, cfg).value.1 == Credited
    ensures CreditsOf(p, cfg).value <= 0 ==> KindOf(p, cfg) == Some(SubscriptionKind)
  {
    AcceptedIsNeverSkipped(p, cfg);
    CloudPaymentsDelivery.PaymentRefusedIff(t, p, u, now, cfg);
    hide KindOf, ValidateProduct, PaymentAudit, OneTimeCredits, SubscriptionCredits;
  }
}
