/** The Adapty webhook: event dedup, subscription upsert, one credit per period, audit. */
module Adapty {
  import opened Base
  import opened Database
  import opened Wallet
  import opened SingleGrant
  import opened Pricing

  datatype EventType =
    | TrialStarted | SubscriptionStarted | SubscriptionRenewed
    | SubscriptionExpired | SubscriptionCancelled
    | SubscriptionRenewalCancelled | TrialRenewalCancelled
    | AccessLevelUpdated
    | NonSubscriptionPurchase
    | UnknownType(text: string)

  datatype Event = Event(
    id: string, eventType: EventType, product: Option<string>, expiresAt: Option<Instant>,
    txn: Option<string>, originalTxn: Option<string>,
    isActive: Option<bool>, accessLevel: Option<string>, willRenew: Option<bool>)

  datatype Semantics = Granting | Expiring | Noop | OneTimePurchase

  function Classify(e: Event): Semantics
    requires !e.eventType.UnknownType?
  {
    match e.eventType
    case NonSubscriptionPurchase => OneTimePurchase
    case TrialStarted => Granting
    case SubscriptionStarted => Granting
    case SubscriptionRenewed => Granting
    case SubscriptionExpired => Expiring
    case SubscriptionCancelled => Expiring
    case SubscriptionRenewalCancelled => Noop
    case TrialRenewalCancelled => Noop
    case AccessLevelUpdated =>
      if e.isActive == Some(true) && e.accessLevel == Some("premium") then Granting
      else if e.isActive == Some(false) then Expiring
      else Noop
  }

  datatype Outcome = Applied | Duplicate | Ignored

  // ----- Specification over tables -----

  /** The row a granting event writes. */
  function GrantedRow(e: Event): Subscription {
    Subscription(Active, e.product, e.expiresAt, e.willRenew)
  }

  /** The row after a subscription event, given the row before it. */
  function NextRow(row: Option<Subscription>, e: Event, sem: Semantics): Option<Subscription> {
    if IsStale(row, e.expiresAt) then row
    else match sem
      case Granting => Some(GrantedRow(e))
      case Expiring =>
        Some(if row.None? then Subscription(Expired, None, None, e.willRenew)
             else row.value.(status := Expired, willRenew := e.willRenew))
      case Noop =>
        if row.Some? && e.willRenew.Some? then Some(row.value.(willRenew := e.willRenew)) else row
      case OneTimePurchase => row
  }

  function WithRow(t: Tables, u: UserId, row: Option<Subscription>): Tables {
    if row.Some? then t.(subscriptions := t.subscriptions[u := row.value]) else t
  }

  /** `transaction_id`, else `original_transaction_id`, else the event id (empty ids never parse). */
  function PeriodId(e: Event): string {
    if e.txn.Some? then e.txn.value else if e.originalTxn.Some? then e.originalTxn.value else e.id
  }

  function PeriodKey(e: Event): IdemKey {
    if e.txn.Some? then SubGrant(e.txn.value) else AdaptyTxn(PeriodId(e))
  }

  function CheckKeys(e: Event): seq<IdemKey> {
    if e.txn.Some? then [SubGrant(e.txn.value), AdaptyTxn(e.txn.value)] else [AdaptyTxn(PeriodId(e))]
  }

  function PeriodCredits(cfg: Config, e: Event): int {
    SubscriptionCredits(cfg, e.product, AdaptyChannel)
  }

  function Journaled(t: Tables, e: Event, u: UserId): Tables {
    t.(adaptyEvents := t.adaptyEvents[e.id := u])
  }

  function Audited(t: Tables, u: UserId, e: Event, stale: bool): Tables {
    var row := t.Row(u);
    t.(audit := t.audit + [AdaptySubscription(u, e.id,
                                              if row.Some? then Some(row.value.status) else None,
                                              if row.Some? then row.value.plan else None, stale)])
  }

  /** One subscription event inside its transaction; `Err` means the transaction is rolled back. */
  function ApplySpec(t: Tables, e: Event, u: UserId, cfg: Config): Result<(Tables, Outcome), WalletError>
    requires !e.eventType.UnknownType? && Classify(e) != OneTimePurchase
  {
    if e.id in t.adaptyEvents then Ok((t, Duplicate))
    else
      var sem := Classify(e);
      var stale := IsStale(t.Row(u), e.expiresAt);
      var written := WithRow(Journaled(t, e, u), u, NextRow(t.Row(u), e, sem));
      if sem == Granting then
        match GrantOnceResult(written, u, PeriodKey(e), CheckKeys(e), PeriodCredits(cfg, e))
        case Err(x) => Err(x)
        case Ok(_) =>
          var credited := GrantOnceTables(written, u, PeriodKey(e), CheckKeys(e), PeriodCredits(cfg, e));
          Ok((Audited(credited, u, e, stale), Applied))
      else Ok((Audited(written, u, e, stale), Applied))
  }

  /** A token pack: refused before any write unless it names a transaction and a known product. */
  function PurchaseSpec(t: Tables, e: Event, u: UserId, cfg: Config): Result<(Tables, Outcome), WalletError> {
    if e.txn.None? || e.product.None? || e.product.value == "" || OneTimeCredits(cfg, e.product.value).None? then Ok((t, Ignored))
    else if e.id in t.adaptyEvents then Ok((t, Duplicate))
    else
      var key := TokenPurchase(e.txn.value);
      var credits := OneTimeCredits(cfg, e.product.value).value;
      var journaled := Journaled(t, e, u);
      match GrantOnceResult(journaled, u, key, [key], credits)
      case Err(x) => Err(x)
      case Ok(_) =>
        var credited := GrantOnceTables(journaled, u, key, [key], credits);
        Ok((credited.(audit := credited.audit + [AdaptyPurchase(u, e.id, e.txn.value)]), Applied))
  }

  function HandleSpec(t: Tables, e: Event, u: UserId, cfg: Config): Result<(Tables, Outcome), WalletError> {
    if e.eventType.UnknownType? then Ok((t, Ignored))
    else if Classify(e) == OneTimePurchase then PurchaseSpec(t, e, u, cfg)
    else ApplySpec(t, e, u, cfg)
  }

  /** The committed state after one delivery. */
  function Delivered(t: Tables, e: Event, u: UserId, cfg: Config): Tables {
    match HandleSpec(t, e, u, cfg)
    case Ok((t', _)) => t'
    case Err(_) => t
  }

  // ----- The service -----

  class AdaptyWebhookService {
    const session: Session
    const wallet: WalletService
    const settings: Config

    constructor (wallet: WalletService, settings: Config)
      ensures this.wallet == wallet && this.session == wallet.session && this.settings == settings
    {
      this.wallet := wallet;
      this.session := wallet.session;
      this.settings := settings;
    }

    /** Stage 4 of the webhook, the user already resolved. A raised error rolls the transaction back. */
    method Handle(e: Event, u: UserId) returns (r: Result<Outcome, WalletError>)
      requires wallet.session == session
      modifies session
      ensures match HandleSpec(old(session.View()), e, u, settings)
              case Ok((t, outcome)) => r == Ok(outcome) && session.View() == t
              case Err(x) => r == Err(x) && session.View() == old(session.View())
    {
      if e.eventType.UnknownType? {
        return Ok(Ignored);
      }
      var start := session.View();
      if Classify(e) == OneTimePurchase {
        r := ApplyPurchase(e, u);
      } else {
        r := Apply(e, u);
      }
      if r.Err? {
        session.Rollback(start);
      }
    }

    method InsertEvent(e: Event, u: UserId) returns (inserted: bool)
      modifies session`adaptyEvents
      ensures inserted <==> e.id !in old(session.adaptyEvents)
      ensures session.adaptyEvents == if inserted then old(session.adaptyEvents)[e.id := u] else old(session.adaptyEvents)
    {
      inserted := e.id !in session.adaptyEvents;
      if inserted {
        session.adaptyEvents := session.adaptyEvents[e.id := u];
      }
    }

    method Apply(e: Event, u: UserId) returns (r: Result<Outcome, WalletError>)
      requires wallet.session == session
      requires !e.eventType.UnknownType? && Classify(e) != OneTimePurchase
      modifies session
      ensures match ApplySpec(old(session.View()), e, u, settings)
              case Ok((t, outcome)) => r == Ok(outcome) && session.View() == t
              case Err(x) => r == Err(x)
    {
      var inserted := InsertEvent(e, u);
      if !inserted {
        return Ok(Duplicate);
      }
      var sem := Classify(e);
      var stale;
      if sem == Noop {
        stale := ReadSubscription(u, e.willRenew, e.expiresAt);
      } else {
        stale := UpsertSubscription(e, sem, u);
      }
      if sem == Granting {
        var granted := GrantOnce(wallet, u, PeriodKey(e), CheckKeys(e), PeriodCredits(settings, e));
        if granted.Err? {
          return Err(granted.error);
        }
      }
      var row := session.View().Row(u);
      session.Record(AdaptySubscription(u, e.id,
                                        if row.Some? then Some(row.value.status) else None,
                                        if row.Some? then row.value.plan else None, stale));
      r := Ok(Applied);
    }

    /** A cancelled auto-renewal only records `will_renew`, and only on a row it is not stale for. */
    method ReadSubscription(u: UserId, willRenew: Option<bool>, expiresAt: Option<Instant>) returns (stale: bool)
      modifies session`subscriptions
      ensures stale == IsStale(old(session.View()).Row(u), expiresAt)
      ensures session.subscriptions ==
              if u in old(session.subscriptions) && !stale && willRenew.Some?
              then old(session.subscriptions)[u := old(session.subscriptions)[u].(willRenew := willRenew)]
              else old(session.subscriptions)
    {
      if u !in session.subscriptions {
        return false;
      }
      var row := session.subscriptions[u];
      stale := IsStale(Some(row), expiresAt);
      if !stale && willRenew.Some? {
        session.subscriptions := session.subscriptions[u := row.(willRenew := willRenew)];
      }
    }

    method UpsertSubscription(e: Event, sem: Semantics, u: UserId) returns (stale: bool)
      requires sem == Granting || sem == Expiring
      modifies session`subscriptions
      ensures stale == IsStale(old(session.View()).Row(u), e.expiresAt)
      ensures session.View() == WithRow(old(session.View()), u, NextRow(old(session.View()).Row(u), e, sem))
    {
      var row := session.View().Row(u);
      stale := IsStale(row, e.expiresAt);
      if stale {
        assert session.subscriptions == session.subscriptions[u := row.value];
        return;
      }
      if sem == Granting {
        session.subscriptions := session.subscriptions[u := Subscription(Active, e.product, e.expiresAt, e.willRenew)];
      } else if row.None? {
        session.subscriptions := session.subscriptions[u := Subscription(Expired, None, None, e.willRenew)];
      } else {
        session.subscriptions := session.subscriptions[u := row.value.(status := Expired, willRenew := e.willRenew)];
      }
    }

    method ApplyPurchase(e: Event, u: UserId) returns (r: Result<Outcome, WalletError>)
      requires wallet.session == session
      modifies session
      ensures match PurchaseSpec(old(session.View()), e, u, settings)
              case Ok((t, outcome)) => r == Ok(outcome) && session.View() == t
              case Err(x) => r == Err(x)
    {
      if e.txn.None? || e.product.None? || e.product.value == "" {
        return Ok(Ignored);
      }
      var credits := OneTimeCredits(settings, e.product.value);
      if credits.None? {
        return Ok(Ignored);
      }
      var inserted := InsertEvent(e, u);
      if !inserted {
        return Ok(Duplicate);
      }
      var key := TokenPurchase(e.txn.value);
      var granted := GrantOnce(wallet, u, key, [key], credits.value);
      if granted.Err? {
        return Err(granted.error);
      }
      session.Record(AdaptyPurchase(u, e.id, e.txn.value));
      r := Ok(Applied);
    }
  }
}
