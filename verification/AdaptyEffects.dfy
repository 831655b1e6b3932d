/** What each kind of Adapty event does to the tables, one delivery at a time. */
module AdaptyEffects {
  import opened Base
  import opened Database
  import opened Wallet
  import opened SingleGrant
  import opened Pricing
  import opened Adapty

  /** The row, when it may not be rewritten by an event that ends at `incoming`: it is active and ends later. */
  predicate EndsLater(row: Option<Subscription>, incoming: Option<Instant>) {
    match (row, incoming)
    case (Some(Subscription(Active, _, Some(end), _)), Some(other)) => other < end
    case _ => false
  }

  /** Only user `u` and the event's own journal entry are touched, and no balance or key but through a credit. */
  ghost predicate OthersUntouched(t: Tables, t': Tables, u: UserId) {
    && t'.cpEvents == t.cpEvents
    && (forall v: UserId :: v != u ==> t'.Row(v) == t.Row(v) && t'.Balance(v) == t.Balance(v))
  }

  /** The delivery of a new granting event, before its parts are looked at. */
  lemma GrantingParts(t: Tables, e: Event, u: UserId, cfg: Config)
    requires !e.eventType.UnknownType? && Classify(e) == Granting && e.id !in t.adaptyEvents
    ensures var written := WithRow(Journaled(t, e, u), u, NextRow(t.Row(u), e, Granting));
            var r := GrantOnceResult(written, u, PeriodKey(e), CheckKeys(e), PeriodCredits(cfg, e));
            if r.Err? then Delivered(t, e, u, cfg) == t && HandleSpec(t, e, u, cfg).Err?
            else
              && Delivered(t, e, u, cfg)
                 == Audited(GrantOnceTables(written, u, PeriodKey(e), CheckKeys(e), PeriodCredits(cfg, e)), u, e, IsStale(t.Row(u), e.expiresAt))
              && HandleSpec(t, e, u, cfg) == Ok((Delivered(t, e, u, cfg), Applied))
  {
    hide NextRow, PeriodKey, CheckKeys, PeriodCredits, IsStale, Classify;
  }

  /** And of a new event that only touches the row. */
  lemma RowParts(t: Tables, e: Event, u: UserId, cfg: Config)
    requires !e.eventType.UnknownType? && (Classify(e) == Expiring || Classify(e) == Noop) && e.id !in t.adaptyEvents
    ensures Delivered(t, e, u, cfg)
            == Audited(WithRow(Journaled(t, e, u), u, NextRow(t.Row(u), e, Classify(e))), u, e, IsStale(t.Row(u), e.expiresAt))
    ensures HandleSpec(t, e, u, cfg) == Ok((Delivered(t, e, u, cfg), Applied))
  {
    hide NextRow, PeriodKey, CheckKeys, PeriodCredits, IsStale, Classify;
  }

  lemma WrittenIs(t: Tables, e: Event, u: UserId)
    ensures var w := WithRow(Journaled(t, e, u), u, NextRow(t.Row(u), e, Granting));
            && w.ledger == t.ledger && w.balances == t.balances && w.cpEvents == t.cpEvents && w.audit == t.audit
            && w.adaptyEvents == t.adaptyEvents[e.id := u]
            && w.Row(u) == (if EndsLater(t.Row(u), e.expiresAt) then t.Row(u)
                            else Some(Subscription(Active, e.product, e.expiresAt, e.willRenew)))
            && forall v: UserId :: v != u ==> w.Row(v) == t.Row(v)
    ensures IsStale(t.Row(u), e.expiresAt) <==> EndsLater(t.Row(u), e.expiresAt)
  {
  }

  lemma GrantOnceWrites(t: Tables, u: UserId, key: IdemKey, checks: seq<IdemKey>, amount: int)
    ensures var after := GrantOnceTables(t, u, key, checks, amount);
            var free := !AnyTaken(t, u, checks) && (u, key) !in t.ledger;
            && after.subscriptions == t.subscriptions && after.adaptyEvents == t.adaptyEvents && after.cpEvents == t.cpEvents
            && (GrantOnceResult(t, u, key, checks, amount).Err? <==> free && amount <= 0)
            && after.ledger == (if free && amount > 0 then t.ledger[(u, key) := Tx(Credit, amount)] else t.ledger)
            && after.Balance(u) == t.Balance(u) + (if free && amount > 0 then amount else 0)
            && after.audit == t.audit + (if free && amount > 0 then [BillingCredit(u, amount, after.Balance(u))] else [])
            && forall v: UserId :: v != u ==> after.Balance(v) == t.Balance(v)
  {
    hide AnyTaken;
  }

  lemma AuditedIs(t: Tables, u: UserId, e: Event, stale: bool)
    requires t.Row(u).Some?
    ensures var after := Audited(t, u, e, stale);
            && after.(audit := t.audit) == t
            && after.audit == t.audit + [AdaptySubscription(u, e.id, Some(t.Row(u).value.status), t.Row(u).value.plan, stale)]
            && forall v: UserId :: after.Balance(v) == t.Balance(v) && after.Row(v) == t.Row(v)
  {
  }

  lemma SameRows(t: Tables, t': Tables)
    requires t'.subscriptions == t.subscriptions
    ensures forall v: UserId :: t'.Row(v) == t.Row(v)
  {
  }

  /** The delivery of a new granting event, its parts put together. */
  lemma GrantingWrites(t: Tables, e: Event, u: UserId, cfg: Config, key: IdemKey, checks: seq<IdemKey>)
    requires !e.eventType.UnknownType? && Classify(e) == Granting && e.id !in t.adaptyEvents
    requires key == PeriodKey(e) && checks == CheckKeys(e)
    ensures var t' := Delivered(t, e, u, cfg);
            var amount := SubscriptionCredits(cfg, e.product, AdaptyChannel);
            var free := !AnyTaken(t, u, checks) && (u, key) !in t.ledger;
            if free && amount <= 0 then t' == t && HandleSpec(t, e, u, cfg).Err?
            else
              && HandleSpec(t, e, u, cfg) == Ok((t', Applied))
              && t'.adaptyEvents == t.adaptyEvents[e.id := u]
              && t'.ledger == (if free then t.ledger[(u, key) := Tx(Credit, amount)] else t.ledger)
              && t'.Balance(u) == t.Balance(u) + (if free then amount else 0)
              && t'.Row(u) == (if EndsLater(t.Row(u), e.expiresAt) then t.Row(u)
                               else Some(Subscription(Active, e.product, e.expiresAt, e.willRenew)))
              && t'.Row(u).Some?
              && t'.audit == t.audit + (if free then [BillingCredit(u, amount, t'.Balance(u))] else [])
                             + [AdaptySubscription(u, e.id, Some(t'.Row(u).value.status), t'.Row(u).value.plan,
                                                   EndsLater(t.Row(u), e.expiresAt))]
              && OthersUntouched(t, t', u)
  {
    GrantingParts(t, e, u, cfg);
    WrittenIs(t, e, u);
    var written := WithRow(Journaled(t, e, u), u, NextRow(t.Row(u), e, Granting));
    var amount := SubscriptionCredits(cfg, e.product, AdaptyChannel);
    assert PeriodCredits(cfg, e) == amount;
    GrantOnceWrites(written, u, key, checks, amount);
    assert AnyTaken(written, u, checks) <==> AnyTaken(t, u, checks);
    var credited := GrantOnceTables(written, u, key, checks, amount);
    SameRows(written, credited);
    assert written.Row(u).Some?;
    AuditedIs(credited, u, e, IsStale(t.Row(u), e.expiresAt));
    assert forall v: UserId :: written.Balance(v) == t.Balance(v);
    hide SubscriptionCredits, Delivered, HandleSpec, WithRow, Journaled, NextRow, GrantOnceTables, GrantOnceResult, Audited, AnyTaken,
         IsStale, EndsLater, PeriodKey, CheckKeys, PeriodCredits, Classify;
  }

  /** Starting, renewing and premium-activating events, with a transaction id: the period is credited once,
      under `sub-grant:`, unless either of its keys is taken; and the row becomes the event's, unless it is
      active and ends later. With both keys free and no positive amount nothing is left behind. */
  lemma GrantingEffect(t: Tables, e: Event, u: UserId, cfg: Config, txn: string)
    requires e.eventType == TrialStarted || e.eventType == SubscriptionStarted || e.eventType == SubscriptionRenewed
             || (e.eventType == AccessLevelUpdated && e.isActive == Some(true) && e.accessLevel == Some("premium"))
    requires e.id !in t.adaptyEvents && e.txn == Some(txn)
    ensures var t' := Delivered(t, e, u, cfg);
            var amount := SubscriptionCredits(cfg, e.product, AdaptyChannel);
            var free := (u, SubGrant(txn)) !in t.ledger && (u, AdaptyTxn(txn)) !in t.ledger;
            if free && amount <= 0 then t' == t && HandleSpec(t, e, u, cfg).Err?
            else
              && HandleSpec(t, e, u, cfg) == Ok((t', Applied))
              && t'.adaptyEvents == t.adaptyEvents[e.id := u]
              && t'.ledger == (if free then t.ledger[(u, SubGrant(txn)) := Tx(Credit, amount)] else t.ledger)
              && t'.Balance(u) == t.Balance(u) + (if free then amount else 0)
              && t'.Row(u) == (if EndsLater(t.Row(u), e.expiresAt) then t.Row(u)
                               else Some(Subscription(Active, e.product, e.expiresAt, e.willRenew)))
              && t'.audit == t.audit + (if free then [BillingCredit(u, amount, t'.Balance(u))] else [])
                             + [AdaptySubscription(u, e.id, Some(t'.Row(u).value.status), t'.Row(u).value.plan,
                                                   EndsLater(t.Row(u), e.expiresAt))]
              && OthersUntouched(t, t', u)
  {
    GrantingWrites(t, e, u, cfg, SubGrant(txn), [SubGrant(txn), AdaptyTxn(txn)]);
    TwoKeys(t, u, SubGrant(txn), AdaptyTxn(txn));
    hide *;
  }

  lemma TwoKeys(t: Tables, u: UserId, a: IdemKey, b: IdemKey)
    ensures AnyTaken(t, u, [a, b]) <==> (u, a) in t.ledger || (u, b) in t.ledger
  {
    assert [a, b][0] == a && [a, b][1] == b;
  }

  lemma OneKey(t: Tables, u: UserId, a: IdemKey)
    ensures AnyTaken(t, u, [a]) <==> (u, a) in t.ledger
  {
    assert [a][0] == a;
  }

  /** The same without a transaction id: the period is named by the original transaction, or by the event, and
      only its `adapty-txn:` key is looked at and written. */
  lemma GrantingWithoutTxn(t: Tables, e: Event, u: UserId, cfg: Config)
    requires e.eventType == TrialStarted || e.eventType == SubscriptionStarted || e.eventType == SubscriptionRenewed
             || (e.eventType == AccessLevelUpdated && e.isActive == Some(true) && e.accessLevel == Some("premium"))
    requires e.id !in t.adaptyEvents && e.txn == None
    ensures var t' := Delivered(t, e, u, cfg);
            var amount := SubscriptionCredits(cfg, e.product, AdaptyChannel);
            var key := (u, AdaptyTxn(if e.originalTxn.Some? then e.originalTxn.value else e.id));
            if key !in t.ledger && amount <= 0 then t' == t && HandleSpec(t, e, u, cfg).Err?
            else
              && HandleSpec(t, e, u, cfg) == Ok((t', Applied))
              && t'.adaptyEvents == t.adaptyEvents[e.id := u]
              && t'.ledger == (if key in t.ledger then t.ledger else t.ledger[key := Tx(Credit, amount)])
              && t'.Balance(u) == t.Balance(u) + (if key in t.ledger then 0 else amount)
              && t'.Row(u) == (if EndsLater(t.Row(u), e.expiresAt) then t.Row(u)
                               else Some(Subscription(Active, e.product, e.expiresAt, e.willRenew)))
              && OthersUntouched(t, t', u)
  {
    var key := AdaptyTxn(if e.originalTxn.Some? then e.originalTxn.value else e.id);
    GrantingWrites(t, e, u, cfg, key, [key]);
    OneKey(t, u, key);
    hide *;
  }

  /** Expiring and cancelling events, and an access level that is not active: the row keeps its plan and end
      and is expired with the event's renewal flag; a user without a row gets an expired one without plan and
      end. No ledger row and no balance moves. */
  lemma ExpiringEffect(t: Tables, e: Event, u: UserId, cfg: Config)
    requires e.eventType == SubscriptionExpired || e.eventType == SubscriptionCancelled
             || (e.eventType == AccessLevelUpdated && e.isActive == Some(false))
    requires e.id !in t.adaptyEvents
    ensures var t' := Delivered(t, e, u, cfg);
            && HandleSpec(t, e, u, cfg) == Ok((t', Applied))
            && t'.adaptyEvents == t.adaptyEvents[e.id := u] && t'.ledger == t.ledger && t'.balances == t.balances
            && t'.Row(u) == (match t.Row(u)
                             case None => Some(Subscription(Expired, None, None, e.willRenew))
                             case Some(row) => if EndsLater(Some(row), e.expiresAt) then Some(row)
                                               else Some(Subscription(Expired, row.plan, row.expiresAt, e.willRenew)))
            && t'.audit == t.audit + [AdaptySubscription(u, e.id, Some(t'.Row(u).value.status), t'.Row(u).value.plan,
                                                         EndsLater(t.Row(u), e.expiresAt))]
            && OthersUntouched(t, t', u)
  {
    RowParts(t, e, u, cfg);
    hide Delivered, HandleSpec;
  }

  /** Events that cancel the automatic renewal, and any other access level: at most the renewal flag of an
      existing row changes. No ledger row and no balance moves. */
  lemma RenewalFlagEffect(t: Tables, e: Event, u: UserId, cfg: Config)
    requires e.eventType == SubscriptionRenewalCancelled || e.eventType == TrialRenewalCancelled
             || (e.eventType == AccessLevelUpdated && e.isActive != Some(false)
                 && !(e.isActive == Some(true) && e.accessLevel == Some("premium")))
    requires e.id !in t.adaptyEvents
    ensures var t' := Delivered(t, e, u, cfg);
            && HandleSpec(t, e, u, cfg) == Ok((t', Applied))
            && t'.adaptyEvents == t.adaptyEvents[e.id := u] && t'.ledger == t.ledger && t'.balances == t.balances
            && t'.Row(u) == (match t.Row(u)
                             case None => None
                             case Some(row) =>
                               if EndsLater(Some(row), e.expiresAt) || e.willRenew == None then Some(row)
                               else Some(Subscription(row.status, row.plan, row.expiresAt, e.willRenew)))
            && t'.audit == t.audit + [match t'.Row(u)
                                      case None => AdaptySubscription(u, e.id, None, None, false)
                                      case Some(row) => AdaptySubscription(u, e.id, Some(row.status), row.plan,
                                                                           EndsLater(t.Row(u), e.expiresAt))]
            && OthersUntouched(t, t', u)
  {
    RowParts(t, e, u, cfg);
    hide Delivered, HandleSpec;
  }

  /** A token pack of a product with a number, and with a transaction id: that number is credited once under
      `token-purchase:`, and the subscription row stays. */
  lemma PurchaseEffect(t: Tables, e: Event, u: UserId, cfg: Config, txn: string, product: string, amount: int)
    requires e.eventType == NonSubscriptionPurchase && e.txn == Some(txn) && e.product == Some(product) && product != ""
    requires OneTimeCredits(cfg, product) == Some(amount) && e.id !in t.adaptyEvents
    ensures var t' := Delivered(t, e, u, cfg);
            var free := (u, TokenPurchase(txn)) !in t.ledger;
            if free && amount <= 0 then t' == t && HandleSpec(t, e, u, cfg).Err?
            else
              && HandleSpec(t, e, u, cfg) == Ok((t', Applied))
              && t'.adaptyEvents == t.adaptyEvents[e.id := u] && t'.subscriptions == t.subscriptions
              && t'.ledger == (if free then t.ledger[(u, TokenPurchase(txn)) := Tx(Credit, amount)] else t.ledger)
              && t'.Balance(u) == t.Balance(u) + (if free then amount else 0)
              && t'.audit == t.audit + (if free then [BillingCredit(u, amount, t'.Balance(u))] else [])
                             + [AdaptyPurchase(u, e.id, txn)]
              && OthersUntouched(t, t', u)
  {
    PurchaseParts(t, e, u, cfg, txn, amount);
    OneKey(Journaled(t, e, u), u, TokenPurchase(txn));
    GrantOnceWrites(Journaled(t, e, u), u, TokenPurchase(txn), [TokenPurchase(txn)], amount);
    var granted := GrantOnceTables(Journaled(t, e, u), u, TokenPurchase(txn), [TokenPurchase(txn)], amount);
    var t' := Delivered(t, e, u, cfg);
    if t'.subscriptions == t.subscriptions {
      SameRows(t, t');
    }
    assert forall v: UserId :: Journaled(t, e, u).Balance(v) == t.Balance(v);
    assert forall v: UserId :: t'.balances == granted.balances ==> t'.Balance(v) == granted.Balance(v);
    hide Delivered, HandleSpec, GrantOnceTables, GrantOnceResult, AnyTaken, OneTimeCredits;
  }

  lemma PurchaseParts(t: Tables, e: Event, u: UserId, cfg: Config, txn: string, amount: int)
    requires e.eventType == NonSubscriptionPurchase && e.txn == Some(txn) && e.product.Some? && e.product.value != ""
    requires OneTimeCredits(cfg, e.product.value) == Some(amount) && e.id !in t.adaptyEvents
    ensures var key := TokenPurchase(txn);
            var granted := GrantOnceTables(Journaled(t, e, u), u, key, [key], amount);
            if GrantOnceResult(Journaled(t, e, u), u, key, [key], amount).Err?
            then Delivered(t, e, u, cfg) == t && HandleSpec(t, e, u, cfg).Err?
            else && Delivered(t, e, u, cfg) == granted.(audit := granted.audit + [AdaptyPurchase(u, e.id, txn)])
                 && Delivered(t, e, u, cfg).subscriptions == t.subscriptions
                 && HandleSpec(t, e, u, cfg) == Ok((Delivered(t, e, u, cfg), Applied))
  {
    hide OneTimeCredits, AnyTaken, GrantTables, GrantResult;
  }

  /** A known event id, a pack without transaction, product or number, and an unknown event type leave the
      tables as they are. */
  lemma NothingToDo(t: Tables, e: Event, u: UserId, cfg: Config)
    requires || e.id in t.adaptyEvents || e.eventType.UnknownType?
             || (e.eventType == NonSubscriptionPurchase
                 && (e.txn == None || e.product == None || e.product == Some("") || OneTimeCredits(cfg, e.product.value) == None))
    ensures Delivered(t, e, u, cfg) == t && HandleSpec(t, e, u, cfg).Ok?
    ensures HandleSpec(t, e, u, cfg).value.1 == Ignored || HandleSpec(t, e, u, cfg).value.1 == Duplicate
  {
    hide OneTimeCredits;
  }
}
