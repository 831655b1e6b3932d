/** All channels together: store events, card payments, the operator's grants and spending, in any mixture. */
module MixedRun {
  import opened Base
  import opened Database
  import opened Wallet
  import opened Pricing
  import Adapty
  import AdaptyDelivery
  import CloudPayments
  import CloudPaymentsDelivery
  import CloudPaymentsOutcome
  import Crm

  datatype Action =
    | StoreEvent(event: Adapty.Event, user: UserId)
    | CardPayments(delivery: CloudPaymentsDelivery.Delivery)
    | OperatorGrant(user: UserId, arrival: Crm.Arrival)
    | Ledger(op: WalletOp)

  /** A list comes with one condition per payment, and the wallet's other callers use keys of their own. */
  ghost predicate WellFormed(actions: seq<Action>) {
    forall i :: 0 <= i < |actions| ==> Usual(actions[i])
  }

  predicate Usual(a: Action) {
    && (a.CardPayments? ==> |a.delivery.payments| == |a.delivery.conditions|)
    && (a.Ledger? ==> a.op.key.Unprefixed?)
  }

  function Step(t: Tables, a: Action, cfg: Config): Tables
    requires Usual(a)
  {
    match a
    case StoreEvent(e, u) => Adapty.Delivered(t, e, u, cfg)
    case CardPayments(d) => CloudPayments.BatchSpec(t, d.payments, d.user, d.conditions, cfg).tables
    case OperatorGrant(u, r) => Crm.After(t, u, r.request, r.now, r.known, cfg)
    case Ledger(DoGrant(u, k, amount)) => GrantTables(t, u, k, amount)
    case Ledger(DoConsume(u, k, amount)) => ConsumeTables(t, u, k, amount)
  }

  function Run(t: Tables, actions: seq<Action>, cfg: Config): Tables
    requires WellFormed(actions)
    decreases |actions|
  {
    if actions == [] then t else Step(Run(t, actions[..|actions| - 1], cfg), actions[|actions| - 1], cfg)
  }

  /** Balances are what the ledger says; a card payment is journaled iff it is credited; a granted key has its
      audit row; a store event is journaled iff exactly one audit row names it. */
  ghost predicate Sound(t: Tables) {
    Consistent(t) && CloudPaymentsDelivery.Paired(t) && Crm.Paired(t) && AdaptyDelivery.AuditPaired(t)
  }

  // ----- What a step writes outside the Adapty journal -----

  predicate FromElsewhere(e: AuditEvent) {
    !e.AdaptySubscription? && !e.AdaptyPurchase?
  }

  /** The trail grows by rows of other channels, and the Adapty journal stays. */
  ghost predicate Apart(t: Tables, t': Tables) {
    && t'.adaptyEvents == t.adaptyEvents && t.audit <= t'.audit
    && forall i :: |t.audit| <= i < |t'.audit| ==> FromElsewhere(t'.audit[i])
  }

  lemma {:induction false} CountIgnores(audit: seq<AuditEvent>, more: seq<AuditEvent>, id: string)
    requires forall i :: 0 <= i < |more| ==> FromElsewhere(more[i])
    ensures AdaptyDelivery.AuditCount(audit + more, id) == AdaptyDelivery.AuditCount(audit, id)
    decreases |more|
  {
    if more == [] {
      assert audit + more == audit;
    } else {
      var n := |more| - 1;
      CountIgnores(audit, more[..n], id);
      AdaptyDelivery.AuditCountAppend(audit + more[..n], more[n], id);
      assert audit + more[..n] + [more[n]] == audit + more;
    }
  }

  lemma ApartKeepsAudit(t: Tables, t': Tables)
    requires AdaptyDelivery.AuditPaired(t) && Apart(t, t')
    ensures AdaptyDelivery.AuditPaired(t')
  {
    forall id ensures AdaptyDelivery.AuditCount(t'.audit, id) == if id in t'.adaptyEvents then 1 else 0 {
      var more := t'.audit[|t.audit|..];
      assert t'.audit == t.audit + more;
      CountIgnores(t.audit, more, id);
    }
  }

  lemma ApartTwice(a: Tables, b: Tables, c: Tables)
    requires Apart(a, b) && Apart(b, c)
    ensures Apart(a, c)
  {
  }

  // ----- Each kind of action -----

  lemma StoreEventKeeps(t: Tables, e: Adapty.Event, u: UserId, cfg: Config)
    requires Sound(t)
    ensures Sound(Adapty.Delivered(t, e, u, cfg))
  {
    hide Consistent, CloudPaymentsDelivery.Paired, Crm.Paired, AdaptyDelivery.AuditPaired, Adapty.Delivered;
    AdaptyDelivery.DeliveredConsistent(t, e, u, cfg);
    AdaptyDelivery.DeliveredAuditPaired(t, e, u, cfg);
    CloudPaymentsDelivery.AdaptyKeepsPaired(t, e, u, cfg);
    AdaptyDelivery.DeliveredTouches(t, e, u, cfg);
    AdaptyDelivery.TrailGrows(t, e, u, cfg);
    Crm.OthersKeepPaired(t, Adapty.Delivered(t, e, u, cfg));
  }

  lemma GrantIsApart(t: Tables, u: UserId, key: IdemKey, amount: int)
    ensures Apart(t, GrantTables(t, u, key, amount))
    ensures GrantTables(t, u, key, amount).cpEvents == t.cpEvents
    ensures forall k :: k != (u, key) ==> (k in GrantTables(t, u, key, amount).ledger <==> k in t.ledger)
  {
  }

  lemma RowIsApart(t: Tables, row: AuditEvent)
    requires FromElsewhere(row)
    ensures Apart(t, t.(audit := t.audit + [row]))
  {
  }

  lemma PreparedIsApart(t: Tables, p: CloudPayments.Payment, u: UserId, now: Instant, cfg: Config)
    ensures Apart(t, CloudPayments.Prepared(t, p, u, now, cfg))
  {
    hide CloudPayments.KindOf, CloudPayments.PaidRow;
  }

  lemma ApartSelf(t: Tables)
    ensures Apart(t, t)
  {
  }

  lemma PaymentIsApart(t: Tables, p: CloudPayments.Payment, u: UserId, now: Instant, cfg: Config)
    requires CloudPayments.PaymentSpec(t, p, u, now, cfg).Ok?
    ensures Apart(t, CloudPayments.PaymentSpec(t, p, u, now, cfg).value.0)
  {
    hide CloudPayments.CreditsOf, CloudPayments.KindOf, CloudPayments.PaidRow, GrantTables, Apart;
    var spec := CloudPayments.PaymentSpec(t, p, u, now, cfg).value;
    if spec.1 == CloudPayments.Credited {
      var credits := CloudPayments.CreditsOf(p, cfg).value;
      var prepared := CloudPayments.Prepared(t, p, u, now, cfg);
      var granted := GrantTables(prepared, u, CpTxn(p.paymentId), credits);
      GrantIsApart(prepared, u, CpTxn(p.paymentId), credits);
      var row := CloudPayments.PaymentAudit(p, u, now, cfg, credits);
      assert spec.0 == granted.(audit := granted.audit + [row]);
      PreparedIsApart(t, p, u, now, cfg);
      RowIsApart(granted, row);
      ApartTwice(t, prepared, granted);
      ApartTwice(t, granted, spec.0);
    } else {
      ApartSelf(t);
    }
  }

  lemma PaymentKeeps(t: Tables, p: CloudPayments.Payment, u: UserId, now: Instant, cfg: Config)
    requires Sound(t) && CloudPayments.PaymentSpec(t, p, u, now, cfg).Ok?
    ensures Sound(CloudPayments.PaymentSpec(t, p, u, now, cfg).value.0)
  {
    hide Consistent, CloudPaymentsDelivery.Paired, Crm.Paired, AdaptyDelivery.AuditPaired, CloudPayments.PaymentSpec, Apart;
    var t' := CloudPayments.PaymentSpec(t, p, u, now, cfg).value.0;
    CloudPaymentsOutcome.PaymentConsistent(t, p, u, now, cfg);
    CloudPaymentsDelivery.PaymentKeepsPaired(t, p, u, now, cfg);
    CloudPaymentsDelivery.PaymentTouches(t, p, u, now, cfg);
    Crm.OthersKeepPaired(t, t');
    PaymentIsApart(t, p, u, now, cfg);
    ApartKeepsAudit(t, t');
  }

  lemma {:induction false} PaymentsKeep(t: Tables, payments: seq<CloudPayments.Payment>, u: UserId,
                                        cs: seq<CloudPayments.Condition>, cfg: Config)
    requires Sound(t) && |cs| == |payments|
    ensures Sound(CloudPayments.BatchSpec(t, payments, u, cs, cfg).tables)
    decreases |payments|
  {
    hide Sound, CloudPayments.PaymentSpec;
    if payments != [] {
      var n := |payments| - 1;
      PaymentsKeep(t, payments[..n], u, cs[..n], cfg);
      var before := CloudPayments.BatchSpec(t, payments[..n], u, cs[..n], cfg);
      if before.failure.None? && CloudPayments.PaymentSpec(before.tables, payments[n], u, cs[n].now, cfg).Ok? {
        PaymentKeeps(before.tables, payments[n], u, cs[n].now, cfg);
      }
    }
  }

  lemma OperatorGrantWrites(t: Tables, u: UserId, r: Crm.Arrival, cfg: Config)
    requires Consistent(t)
    ensures var t' := Crm.After(t, u, r.request, r.now, r.known, cfg);
            && Consistent(t') && Apart(t, t') && t'.cpEvents == t.cpEvents
            && forall k: LedgerKey :: k.1.CpTxn? ==> (k in t'.ledger <==> k in t.ledger)
  {
    var req := r.request;
    hide Consistent, Crm.CreditsFor, Crm.Granted, Crm.BaseOf;
    var spec := Crm.GrantSpec(t, u, req, r.now, r.known, cfg);
    if spec.Ok? && spec.value.1 {
      var extended := Crm.WithExtension(t, u, req, r.now);
      var key, amount := CrmSubGrant(req.grantId), Crm.CreditsFor(cfg, req);
      ConsistentFrame(t, extended);
      if amount > 0 {
        CloudPaymentsOutcome.GrantConsistent(extended, u, key, amount);
        GrantIsApart(extended, u, key, amount);
        hide GrantTables;
        ConsistentFrame(GrantTables(extended, u, key, amount), spec.value.0);
      } else {
        ConsistentFrame(extended, spec.value.0);
      }
    }
  }

  lemma OperatorGrantKeeps(t: Tables, u: UserId, r: Crm.Arrival, cfg: Config)
    requires Sound(t)
    ensures Sound(Crm.After(t, u, r.request, r.now, r.known, cfg))
  {
    var t' := Crm.After(t, u, r.request, r.now, r.known, cfg);
    hide Consistent, Crm.Paired, AdaptyDelivery.AuditPaired, Apart, Crm.After;
    OperatorGrantWrites(t, u, r, cfg);
    Crm.OneGrant(t, u, r.request, r.now, r.known, cfg);
    ApartKeepsAudit(t, t');
  }

  lemma PostedWrites(t: Tables, u: UserId, key: IdemKey, tx: Tx)
    requires Consistent(t) && (u, key) !in t.ledger && 0 <= t.Balance(u) + Signed(tx)
    ensures Consistent(Posted(t, u, key, tx)) && Apart(t, Posted(t, u, key, tx))
    ensures Posted(t, u, key, tx).cpEvents == t.cpEvents
    ensures forall k :: k != (u, key) ==> (k in Posted(t, u, key, tx).ledger <==> k in t.ledger)
  {
    PostedKeepsConsistent(t, u, key, tx);
    hide Consistent;
  }

  lemma ProvisionedWrites(t: Tables, u: UserId)
    requires Consistent(t)
    ensures Consistent(Provisioned(t, u)) && Apart(t, Provisioned(t, u))
  {
    assert forall v: UserId :: Provisioned(t, u).Balance(v) == t.Balance(v);
  }

  lemma LedgerOpWrites(t: Tables, op: WalletOp, cfg: Config)
    requires Consistent(t) && op.key.Unprefixed?
    ensures var t' := Step(t, Ledger(op), cfg);
            && Consistent(t') && Apart(t, t') && t'.cpEvents == t.cpEvents
            && forall k: LedgerKey :: !k.1.Unprefixed? ==> (k in t'.ledger <==> k in t.ledger)
  {
    assert 0 <= t.Balance(op.user);
    hide Consistent, Apart, Posted;
    ApartSelf(t);
    ProvisionedWrites(t, op.user);
    if (op.user, op.key) !in t.ledger && op.amount > 0 && (op.DoGrant? || op.amount <= t.Balance(op.user)) {
      PostedWrites(t, op.user, op.key, Tx(if op.DoGrant? then Credit else Debit, op.amount));
    }
  }

  lemma LedgerOpKeeps(t: Tables, op: WalletOp, cfg: Config)
    requires Sound(t) && op.key.Unprefixed?
    ensures Sound(Step(t, Ledger(op), cfg))
  {
    var t' := Step(t, Ledger(op), cfg);
    hide Consistent, Crm.Paired, AdaptyDelivery.AuditPaired, Step;
    LedgerOpWrites(t, op, cfg);
    Crm.OthersKeepPaired(t, t');
    ApartKeepsAudit(t, t');
  }

  /** Over every mixture of channels, orders, failures and repetitions the four agreements hold at once. */
  lemma {:induction false} RunKeepsSound(t: Tables, actions: seq<Action>, cfg: Config)
    requires Sound(t) && WellFormed(actions)
    ensures Sound(Run(t, actions, cfg))
    decreases |actions|
  {
    hide Sound, Adapty.Delivered, CloudPayments.BatchSpec, Crm.After;
    if actions != [] {
      var n := |actions| - 1;
      RunKeepsSound(t, actions[..n], cfg);
      var before := Run(t, actions[..n], cfg);
      match actions[n] {
        case StoreEvent(e, u) => StoreEventKeeps(before, e, u, cfg);
        case CardPayments(d) => PaymentsKeep(before, d.payments, d.user, d.conditions, cfg);
        case OperatorGrant(u, r) => OperatorGrantKeeps(before, u, r, cfg);
        case Ledger(op) => LedgerOpKeeps(before, op, cfg);
      }
    }
  }
}
