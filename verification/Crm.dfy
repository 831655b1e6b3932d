/** The operator's subscription grant: idempotent by grant id, extending what is active. */
module Crm {
  import opened Base
  import opened Database
  import opened Wallet
  import opened Pricing
  import OverlayProducts
  import Adapty
  import AdaptyDelivery
  import CloudPayments
  import CloudPaymentsDelivery

  const DAY: int := 86_400_000_000

  datatype Request = Request(product: string, days: nat, grantId: string)

  datatype CrmError = UnknownProduct | WalletFailed(error: WalletError)

  /** The grant is in the trail. */
  predicate Granted(t: Tables, u: UserId, grantId: string) {
    exists i :: 0 <= i < |t.audit| && GrantAudit(t.audit[i], u, grantId)
  }

  predicate GrantAudit(e: AuditEvent, u: UserId, grantId: string) {
    e.CrmSubscriptionGrant? && e.user == u && e.grantId == grantId
  }

  /** Any product of the catalogue may be granted, archived or not. */
  predicate KnownProduct(cfg: Config, catalog: map<string, OverlayProducts.SourceRow>, product: string) {
    OverlayProducts.Merged(OverlayProducts.SourceOf(cfg, catalog, product), cfg.overlay, product).Some?
  }

  /** The instant an extension starts from. */
  function BaseOf(row: Option<Subscription>, now: Instant): Instant {
    if row.Some? && row.value.status.Active? && row.value.expiresAt.Some? && row.value.expiresAt.value > now
    then row.value.expiresAt.value else now
  }

  function Extended(row: Option<Subscription>, r: Request, now: Instant): Subscription {
    var expires := BaseOf(row, now) + r.days * DAY;
    Subscription(Active, Some(r.product), Some(expires), if row.Some? then row.value.willRenew else None)
  }

  function CreditsFor(cfg: Config, r: Request): int {
    SubscriptionCredits(cfg, Some(r.product), ManualChannel)
  }

  function WithExtension(t: Tables, u: UserId, r: Request, now: Instant): Tables {
    t.(subscriptions := t.subscriptions[u := Extended(t.Row(u), r, now)])
  }

  function GrantAudited(t: Tables, u: UserId, r: Request, expires: Instant): Tables {
    t.(audit := t.audit + [CrmSubscriptionGrant(u, r.grantId, r.days, expires)])
  }

  /** `Ok` carries whether the grant was applied; `Err` rolls the transaction back. */
  function GrantSpec(t: Tables, u: UserId, r: Request, now: Instant, known: bool, cfg: Config)
    : Result<(Tables, bool), CrmError>
  {
    if !known then Err(UnknownProduct)
    else if Granted(t, u, r.grantId) then Ok((t, false))
    else
      var row := Extended(t.Row(u), r, now);
      var extended := WithExtension(t, u, r, now);
      var credits := CreditsFor(cfg, r);
      if credits <= 0 then Ok((GrantAudited(extended, u, r, row.expiresAt.value), true))
      else match GrantResult(extended, u, CrmSubGrant(r.grantId), credits)
        case Err(e) => Err(WalletFailed(e))
        case Ok(_) =>
          Ok((GrantAudited(GrantTables(extended, u, CrmSubGrant(r.grantId), credits), u, r, row.expiresAt.value), true))
  }

  /** What is left after the call and the commit or rollback of its transaction. */
  function After(t: Tables, u: UserId, r: Request, now: Instant, known: bool, cfg: Config): Tables {
    match GrantSpec(t, u, r, now, known, cfg)
    case Ok((t', _)) => t'
    case Err(_) => t
  }

  class CrmService {
    const session: Session
    const wallet: WalletService
    const cfg: Config
    const catalog: map<string, OverlayProducts.SourceRow>

    constructor (session: Session, wallet: WalletService, cfg: Config, catalog: map<string, OverlayProducts.SourceRow>)
      requires wallet.session == session
      ensures this.session == session && this.wallet == wallet && this.cfg == cfg && this.catalog == catalog
    {
      this.session, this.wallet, this.cfg, this.catalog := session, wallet, cfg, catalog;
    }

    method GrantSubscription(u: UserId, r: Request, now: Instant) returns (result: Result<bool, CrmError>)
      requires wallet.session == session
      modifies session
      ensures var spec := GrantSpec(old(session.View()), u, r, now, KnownProduct(cfg, catalog, r.product), cfg);
              && (result.Ok? <==> spec.Ok?)
              && (result.Ok? ==> result.value == spec.value.1)
              && (result.Err? ==> result.error == spec.error)
      ensures session.View() == After(old(session.View()), u, r, now, KnownProduct(cfg, catalog, r.product), cfg)
    {
      var start := session.View();
      if !KnownProduct(cfg, catalog, r.product) {
        return Err(UnknownProduct);
      }
      if exists i :: 0 <= i < |session.audit| && GrantAudit(session.audit[i], u, r.grantId) {
        return Ok(false);
      }
      var row := if u in session.subscriptions then Some(session.subscriptions[u]) else None;
      var from := now;
      if row.Some? && row.value.status.Active? && row.value.expiresAt.Some? {
        var expires := row.value.expiresAt.value;
        if expires > now {
          from := expires;
        }
      }
      var newExpires := from + r.days * DAY;
      var credits := CreditsFor(cfg, r);
      if row.None? {
        session.subscriptions := session.subscriptions[u := Subscription(Active, Some(r.product), Some(newExpires), None)];
      } else {
        session.subscriptions := session.subscriptions[u :=
          row.value.(status := Active, plan := Some(r.product), expiresAt := Some(newExpires))];
      }
      assert session.View() == WithExtension(start, u, r, now);
      if credits > 0 {
        var granted := wallet.Grant(u, CrmSubGrant(r.grantId), credits);
        if granted.Err? {
          session.Rollback(start);
          return Err(WalletFailed(granted.error));
        }
      }
      session.Record(CrmSubscriptionGrant(u, r.grantId, r.days, newExpires));
      return Ok(true);
    }
  }

  // ----- Runs -----

  /** A grant id holds a ledger key only if the trail has the grant. */
  ghost predicate Paired(t: Tables) {
    forall u: UserId, g :: (u, CrmSubGrant(g)) in t.ledger ==> Granted(t, u, g)
  }

  lemma GrantedSnoc(t: Tables, t': Tables, e: AuditEvent, u: UserId, g: string)
    requires t'.audit == t.audit + [e]
    ensures Granted(t', u, g) <==> Granted(t, u, g) || GrantAudit(e, u, g)
  {
    assert t'.audit[|t.audit|] == e;
    if Granted(t, u, g) {
      var i :| 0 <= i < |t.audit| && GrantAudit(t.audit[i], u, g);
      assert t'.audit[i] == t.audit[i];
    }
  }

  /** One call. Under the pairing a known product is never refused; a repeated id changes nothing; a new id
      extends the row once, credits once (if the product credits anything), and touches no other user. */
  lemma OneGrant(t: Tables, u: UserId, r: Request, now: Instant, known: bool, cfg: Config)
    requires Paired(t)
    ensures var t' := After(t, u, r, now, known, cfg);
            var applied := known && !Granted(t, u, r.grantId);
            && Paired(t')
            && (GrantSpec(t, u, r, now, known, cfg).Err? <==> !known)
            && (forall v: UserId, g :: Granted(t', v, g) <==> Granted(t, v, g) || (applied && v == u && g == r.grantId))
            && (!applied ==> t' == t)
            && (applied ==>
                  && t'.Row(u) == Some(Extended(t.Row(u), r, now))
                  && t'.Balance(u) == t.Balance(u) + Max(0, CreditsFor(cfg, r))
                  && t'.ledger == if CreditsFor(cfg, r) > 0
                                  then t.ledger[(u, CrmSubGrant(r.grantId)) := Tx(Credit, CreditsFor(cfg, r))] else t.ledger)
            && forall v: UserId :: v != u ==> t'.Row(v) == t.Row(v) && t'.Balance(v) == t.Balance(v)
  {
    if known && !Granted(t, u, r.grantId) {
      ApplyGrant(t, u, r, now, cfg);
    }
  }

  lemma ApplyGrant(t: Tables, u: UserId, r: Request, now: Instant, cfg: Config)
    requires Paired(t) && !Granted(t, u, r.grantId)
    ensures GrantSpec(t, u, r, now, true, cfg).Ok?
    ensures var t' := After(t, u, r, now, true, cfg);
            && Paired(t')
            && (forall v: UserId, g :: Granted(t', v, g) <==> Granted(t, v, g) || (v == u && g == r.grantId))
            && t'.Row(u) == Some(Extended(t.Row(u), r, now))
            && t'.Balance(u) == t.Balance(u) + Max(0, CreditsFor(cfg, r))
            && t'.ledger == (if CreditsFor(cfg, r) > 0
                             then t.ledger[(u, CrmSubGrant(r.grantId)) := Tx(Credit, CreditsFor(cfg, r))] else t.ledger)
            && forall v: UserId :: v != u ==> t'.Row(v) == t.Row(v) && t'.Balance(v) == t.Balance(v)
  {
    hide CreditsFor;
    assert (u, CrmSubGrant(r.grantId)) !in t.ledger;
    var t' := After(t, u, r, now, true, cfg);
    var entry := CrmSubscriptionGrant(u, r.grantId, r.days, Extended(t.Row(u), r, now).expiresAt.value);
    var extended := WithExtension(t, u, r, now);
    var middle := if CreditsFor(cfg, r) <= 0 then extended
                  else GrantTables(extended, u, CrmSubGrant(r.grantId), CreditsFor(cfg, r));
    assert t' == middle.(audit := middle.audit + [entry]);
    var posted := BillingCredit(u, CreditsFor(cfg, r), t.Balance(u) + CreditsFor(cfg, r));
    assert middle.audit == if CreditsFor(cfg, r) <= 0 then t.audit else t.audit + [posted];
    forall v: UserId, g ensures Granted(t', v, g) <==> Granted(t, v, g) || (v == u && g == r.grantId) {
      GrantedSnoc(middle, t', entry, v, g);
      if CreditsFor(cfg, r) > 0 {
        GrantedSnoc(t, middle, posted, v, g);
      }
    }
  }

  /** Whatever adds to the trail and leaves the grant keys alone keeps the pairing: */
  lemma OthersKeepPaired(t: Tables, t': Tables)
    requires Paired(t) && t.audit <= t'.audit
    requires forall k: LedgerKey :: k.1.CrmSubGrant? ==> (k in t'.ledger <==> k in t.ledger)
    ensures Paired(t')
  {
    forall u: UserId, g | (u, CrmSubGrant(g)) in t'.ledger ensures Granted(t', u, g) {
      assert Granted(t, u, g);
      var i :| 0 <= i < |t.audit| && GrantAudit(t.audit[i], u, g);
      assert t'.audit[i] == t.audit[i];
    }
  }

  /** so do both payment channels. */
  lemma WebhooksKeepPaired(t: Tables, e: Adapty.Event, p: CloudPayments.Payment, u: UserId, now: Instant, cfg: Config)
    requires Paired(t)
    ensures Paired(Adapty.Delivered(t, e, u, cfg))
    ensures CloudPayments.PaymentSpec(t, p, u, now, cfg).Ok? ==> Paired(CloudPayments.PaymentSpec(t, p, u, now, cfg).value.0)
  {
    AdaptyDelivery.DeliveredTouches(t, e, u, cfg);
    AdaptyDelivery.TrailGrows(t, e, u, cfg);
    hide Paired, Adapty.Delivered;
    OthersKeepPaired(t, Adapty.Delivered(t, e, u, cfg));
    hide CloudPayments.PaymentSpec;
    if CloudPayments.PaymentSpec(t, p, u, now, cfg).Ok? {
      CloudPaymentsDelivery.PaymentTouches(t, p, u, now, cfg);
      OthersKeepPaired(t, CloudPayments.PaymentSpec(t, p, u, now, cfg).value.0);
    }
  }

  /** One request as it arrives: the instant, and whether the product is in the catalogue. */
  datatype Arrival = Arrival(request: Request, now: Instant, known: bool)

  function Run(t: Tables, u: UserId, arrivals: seq<Arrival>, cfg: Config): Tables {
    if arrivals == [] then t
    else
      var n := |arrivals| - 1;
      After(Run(t, u, arrivals[..n], cfg), u, arrivals[n].request, arrivals[n].now, arrivals[n].known, cfg)
  }

  predicate Seen(arrivals: seq<Arrival>, grantId: string) {
    exists i :: 0 <= i < |arrivals| && arrivals[i].known && arrivals[i].request.grantId == grantId
  }

  /** The arrivals that count: the first of each grant id not granted before. */
  function FirstOnes(t: Tables, u: UserId, arrivals: seq<Arrival>): seq<Arrival> {
    if arrivals == [] then []
    else
      var n := |arrivals| - 1;
      var a := arrivals[n];
      FirstOnes(t, u, arrivals[..n])
      + if a.known && !Granted(t, u, a.request.grantId) && !Seen(arrivals[..n], a.request.grantId) then [a] else []
  }

  function SumDays(arrivals: seq<Arrival>): nat {
    if arrivals == [] then 0 else SumDays(arrivals[..|arrivals| - 1]) + arrivals[|arrivals| - 1].request.days
  }

  function SumCredits(arrivals: seq<Arrival>, cfg: Config): int {
    if arrivals == [] then 0
    else SumCredits(arrivals[..|arrivals| - 1], cfg) + Max(0, CreditsFor(cfg, arrivals[|arrivals| - 1].request))
  }

  function ActiveUntil(row: Option<Subscription>): Option<Instant> {
    if row.Some? && row.value.status.Active? then row.value.expiresAt else None
  }

  lemma ExtendedUntil(row: Option<Subscription>, r: Request, now: Instant)
    ensures var until := ActiveUntil(Some(Extended(row, r, now)));
            && until.Some? && until.value >= now + r.days * DAY
            && (ActiveUntil(row).Some? ==> until.value >= ActiveUntil(row).value + r.days * DAY)
  {
  }

  lemma SeenSnoc(arrivals: seq<Arrival>, a: Arrival, g: string)
    ensures Seen(arrivals + [a], g) <==> Seen(arrivals, g) || (a.known && a.request.grantId == g)
  {
    assert (arrivals + [a])[|arrivals|] == a;
    if Seen(arrivals, g) {
      var i :| 0 <= i < |arrivals| && arrivals[i].known && arrivals[i].request.grantId == g;
      assert (arrivals + [a])[i] == arrivals[i];
    }
  }

  lemma {:induction false} RunGrants(t: Tables, u: UserId, arrivals: seq<Arrival>, cfg: Config)
    requires Paired(t)
    ensures Paired(Run(t, u, arrivals, cfg))
    ensures forall g :: Granted(Run(t, u, arrivals, cfg), u, g) <==> Granted(t, u, g) || Seen(arrivals, g)
    decreases |arrivals|
  {
    if arrivals != [] {
      var n := |arrivals| - 1;
      var a := arrivals[n];
      RunGrants(t, u, arrivals[..n], cfg);
      OneGrant(Run(t, u, arrivals[..n], cfg), u, a.request, a.now, a.known, cfg);
      assert arrivals == arrivals[..n] + [a];
      hide Paired, Granted, After, Seen;
      forall g ensures Granted(Run(t, u, arrivals, cfg), u, g) <==> Granted(t, u, g) || Seen(arrivals, g) {
        SeenSnoc(arrivals[..n], a, g);
      }
    }
  }

  lemma StepApplies(t: Tables, u: UserId, arrivals: seq<Arrival>, cfg: Config)
    requires Paired(t) && arrivals != []
    ensures var n := |arrivals| - 1; var a := arrivals[n]; var before := Run(t, u, arrivals[..n], cfg);
            var after := Run(t, u, arrivals, cfg);
            if FirstOnes(t, u, arrivals) == FirstOnes(t, u, arrivals[..n]) then after == before
            else && FirstOnes(t, u, arrivals) == FirstOnes(t, u, arrivals[..n]) + [a]
                 && after.Row(u) == Some(Extended(before.Row(u), a.request, a.now))
                 && after.Balance(u) == before.Balance(u) + Max(0, CreditsFor(cfg, a.request))
  {
    var n := |arrivals| - 1;
    var a := arrivals[n];
    RunGrants(t, u, arrivals[..n], cfg);
    OneGrant(Run(t, u, arrivals[..n], cfg), u, a.request, a.now, a.known, cfg);
    hide Paired, Granted, After, Seen, Extended, CreditsFor;
  }

  /** Over any run of grants to a user, with ids repeated in any way: each id extends once and credits once;
      the active expiry never decreases; and it ends no earlier than the first grant's instant plus the days
      of all distinct ids, and no earlier than the expiry it started from plus those days. */
  lemma {:induction false} RunExtends(t: Tables, u: UserId, arrivals: seq<Arrival>, cfg: Config)
    requires Paired(t)
    ensures var first := FirstOnes(t, u, arrivals);
            var after := Run(t, u, arrivals, cfg);
            && after.Balance(u) == t.Balance(u) + SumCredits(first, cfg)
            && (first == [] ==> after.Row(u) == t.Row(u))
            && (first != [] ==>
                  && ActiveUntil(after.Row(u)).Some?
                  && ActiveUntil(after.Row(u)).value >= first[0].now + SumDays(first) * DAY
                  && (ActiveUntil(t.Row(u)).Some? ==>
                        ActiveUntil(after.Row(u)).value >= ActiveUntil(t.Row(u)).value + SumDays(first) * DAY))
    decreases |arrivals|
  {
    hide Paired, After, CreditsFor, Extended, ActiveUntil, Granted, Seen;
    if arrivals != [] {
      var n := |arrivals| - 1;
      var a := arrivals[n];
      RunExtends(t, u, arrivals[..n], cfg);
      StepApplies(t, u, arrivals, cfg);
      var first := FirstOnes(t, u, arrivals[..n]);
      if FirstOnes(t, u, arrivals) != first {
        assert (first + [a])[..|first|] == first;
        ExtendedUntil(Run(t, u, arrivals[..n], cfg).Row(u), a.request, a.now);
      }
    }
  }

  /** The counted arrivals are exactly one per new id. */
  lemma {:induction false} FirstOnesAreDistinct(t: Tables, u: UserId, arrivals: seq<Arrival>)
    ensures var first := FirstOnes(t, u, arrivals);
            && (forall i, j :: 0 <= i < j < |first| ==> first[i].request.grantId != first[j].request.grantId)
            && (forall i :: 0 <= i < |first| ==> first[i].known && !Granted(t, u, first[i].request.grantId))
            && (forall i :: 0 <= i < |first| ==> Seen(arrivals, first[i].request.grantId))
            && (forall g :: Seen(arrivals, g) && !Granted(t, u, g) ==>
                  exists i :: 0 <= i < |first| && first[i].request.grantId == g)
    decreases |arrivals|
  {
    hide Granted;
    if arrivals != [] {
      var n := |arrivals| - 1;
      var a := arrivals[n];
      FirstOnesAreDistinct(t, u, arrivals[..n]);
      assert arrivals == arrivals[..n] + [a];
      forall g ensures Seen(arrivals, g) <==> Seen(arrivals[..n], g) || (a.known && a.request.grantId == g) {
        SeenSnoc(arrivals[..n], a, g);
      }
      hide Seen;
      var before := FirstOnes(t, u, arrivals[..n]);
      var first := FirstOnes(t, u, arrivals);
      forall g | Seen(arrivals, g) && !Granted(t, u, g) ensures exists i :: 0 <= i < |first| && first[i].request.grantId == g {
        if Seen(arrivals[..n], g) {
          var i :| 0 <= i < |before| && before[i].request.grantId == g;
          assert first[i] == before[i];
        } else {
          assert first[|before|] == a;
        }
      }
    }
  }

  // ----- What a grant writes -----

  /** A product may be granted iff the operator's row or one of the instance's four sources has it. */
  lemma GrantableIff(cfg: Config, catalog: map<string, OverlayProducts.SourceRow>, product: string)
    ensures KnownProduct(cfg, catalog, product) <==>
            product in cfg.overlay || product in cfg.tokenProducts || product in cfg.adaptyProducts
            || product in cfg.cloudProducts || product in catalog
  {
  }

  /** A new grant runs from the end of an active row that is still to come, else from now, for exactly the
      days asked for; it sets the plan, keeps the renewal flag, and records the new end in the trail. */
  lemma NewGrantWrites(t: Tables, u: UserId, r: Request, now: Instant, cfg: Config)
    requires Paired(t) && !Granted(t, u, r.grantId)
    ensures var t' := After(t, u, r, now, true, cfg);
            var credits := SubscriptionCredits(cfg, Some(r.product), ManualChannel);
            var from := match t.Row(u)
                        case Some(Subscription(Active, _, Some(end), _)) => if end > now then end else now
                        case _ => now;
            var until := from + r.days * 24 * 60 * 60 * 1_000_000;
            var flag := match t.Row(u) case Some(row) => row.willRenew case None => None;
            && t'.subscriptions == t.subscriptions[u := Subscription(Active, Some(r.product), Some(until), flag)]
            && t'.ledger == (if credits > 0 then t.ledger[(u, CrmSubGrant(r.grantId)) := Tx(Credit, credits)] else t.ledger)
            && t'.audit == t.audit + (if credits > 0 then [BillingCredit(u, credits, t.Balance(u) + credits)] else [])
                           + [CrmSubscriptionGrant(u, r.grantId, r.days, until)]
            && t'.cpEvents == t.cpEvents && t'.adaptyEvents == t.adaptyEvents
  {
    hide SubscriptionCredits, Granted;
    assert (u, CrmSubGrant(r.grantId)) !in t.ledger;
    hide Paired;
  }

  /** Nor does a run extend by more than it should: if every grant came by `latest`, the end lies no later than
      that instant, or the end it started from if that is later, plus the days of all distinct ids. */
  lemma {:induction false} RunExtendsAtMost(t: Tables, u: UserId, arrivals: seq<Arrival>, latest: Instant, cfg: Config)
    requires Paired(t) && forall i :: 0 <= i < |arrivals| ==> arrivals[i].now <= latest
    ensures var first := FirstOnes(t, u, arrivals);
            var bound := if ActiveUntil(t.Row(u)).Some? then Max(latest, ActiveUntil(t.Row(u)).value) else latest;
            ActiveUntil(Run(t, u, arrivals, cfg).Row(u)).Some? ==>
              ActiveUntil(Run(t, u, arrivals, cfg).Row(u)).value <= bound + SumDays(first) * DAY
    decreases |arrivals|
  {
    hide Paired, After, CreditsFor, Extended, ActiveUntil, Granted, Seen;
    if arrivals != [] {
      var n := |arrivals| - 1;
      var a := arrivals[n];
      RunExtendsAtMost(t, u, arrivals[..n], latest, cfg);
      StepApplies(t, u, arrivals, cfg);
      var first := FirstOnes(t, u, arrivals[..n]);
      if FirstOnes(t, u, arrivals) != first {
        assert (first + [a])[..|first|] == first;
        ExtendedAtMost(Run(t, u, arrivals[..n], cfg).Row(u), a.request, a.now);
      }
    }
  }

  lemma ExtendedAtMost(row: Option<Subscription>, r: Request, now: Instant)
    ensures var until := ActiveUntil(Some(Extended(row, r, now)));
            until.Some? && until.value <= (if ActiveUntil(row).Some? then Max(now, ActiveUntil(row).value) else now) + r.days * DAY
  {
  }
}
