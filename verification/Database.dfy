/** The rows the payment services share, as one transaction sees them.

    `Tables` is the abstract value; `Session` is the object whose fields the services update in
    place. Columns filled from the clock (`created_at`, `updated_at`) are not modelled. */
module Database {
  import opened Base

  type UserId = nat

  /** Instants are integers (microseconds since the epoch); a naive timestamp counts as UTC. */
  type Instant = int

  /** Idempotency keys. Each channel builds its key as a fixed prefix followed by an external id. */
  datatype IdemKey =
    | SubGrant(txn: string)
    | AdaptyTxn(txn: string)
    | TokenPurchase(txn: string)
    | CpTxn(paymentId: string)
    | CrmSubGrant(grantId: string)
    | Unprefixed(text: string)

  function KeyText(k: IdemKey): string {
    match k
    case SubGrant(t) => "sub-grant:" + t
    case AdaptyTxn(t) => "adapty-txn:" + t
    case TokenPurchase(t) => "token-purchase:" + t
    case CpTxn(p) => "cp-txn:" + p
    case CrmSubGrant(g) => "crm-sub-grant:" + g
    case Unprefixed(t) => t
  }

  /** The channels never share a key text, so a key can be taken as (channel, external id). */
  lemma KeyTextInjective(a: IdemKey, b: IdemKey)
    requires !a.Unprefixed? && !b.Unprefixed?
    requires KeyText(a) == KeyText(b)
    ensures a == b
  {
    var s := KeyText(a);
    assert s[0] == KeyText(b)[0] && s[1] == KeyText(b)[1] && s[2] == KeyText(b)[2];
    match a
    case SubGrant(t) => assert s[10..] == t; assert b.SubGrant? && s[10..] == b.txn;
    case AdaptyTxn(t) => assert s[11..] == t; assert b.AdaptyTxn? && s[11..] == b.txn;
    case TokenPurchase(t) => assert s[15..] == t; assert b.TokenPurchase? && s[15..] == b.txn;
    case CpTxn(p) => assert s[7..] == p; assert b.CpTxn? && s[7..] == b.paymentId;
    case CrmSubGrant(g) => assert s[14..] == g; assert b.CrmSubGrant? && s[14..] == b.grantId;
  }

  const CHANNEL_PREFIXES: set<string> :=
    {"sub-grant:", "adapty-txn:", "token-purchase:", "cp-txn:", "crm-sub-grant:"}

  /** A text that a caller chooses freely is a channel's key text iff it starts with a channel's prefix. */
  lemma UnprefixedCollidesIff(text: string)
    ensures (exists k: IdemKey :: !k.Unprefixed? && KeyText(k) == text) <==>
            exists prefix :: prefix in CHANNEL_PREFIXES && prefix <= text
  {
    if k: IdemKey :| !k.Unprefixed? && KeyText(k) == text {
      var prefix := match k
        case SubGrant(_) => "sub-grant:"
        case AdaptyTxn(_) => "adapty-txn:"
        case TokenPurchase(_) => "token-purchase:"
        case CpTxn(_) => "cp-txn:"
        case CrmSubGrant(_) => "crm-sub-grant:"
        case Unprefixed(_) => "";
      assert prefix in CHANNEL_PREFIXES && prefix <= text;
    }
    if prefix :| prefix in CHANNEL_PREFIXES && prefix <= text {
      var id := text[|prefix|..];
      assert text == prefix + id;
      var k := if prefix == "sub-grant:" then SubGrant(id)
               else if prefix == "adapty-txn:" then AdaptyTxn(id)
               else if prefix == "token-purchase:" then TokenPurchase(id)
               else if prefix == "cp-txn:" then CpTxn(id)
               else CrmSubGrant(id);
      assert !k.Unprefixed? && KeyText(k) == text;
    }
  }

  datatype TxKind = Credit | Debit

  datatype Tx = Tx(kind: TxKind, amount: int)

  /** The unique index (user_id, idempotency_key) makes the ledger a map. */
  type LedgerKey = (UserId, IdemKey)

  type Ledger = map<LedgerKey, Tx>

  datatype Status = Active | Expired

  datatype Subscription = Subscription(
    status: Status, plan: Option<string>, expiresAt: Option<Instant>, willRenew: Option<bool>)

  datatype AuditEvent =
    | BillingCredit(user: UserId, amount: int, newBalance: int)
    | BillingDebit(user: UserId, amount: int, newBalance: int)
    | AdaptySubscription(user: UserId, eventId: string, status: Option<Status>, plan: Option<string>, stale: bool)
    | AdaptyPurchase(user: UserId, eventId: string, txn: string)
    | CloudPayment(user: UserId, paymentId: string, credits: int, paidUntil: Option<Instant>)
    | CrmSubscriptionGrant(user: UserId, grantId: string, days: int, expiresAt: Instant)

  datatype Tables = Tables(
    ledger: Ledger,
    balances: map<UserId, int>,
    adaptyEvents: map<string, UserId>,
    cpEvents: map<string, UserId>,
    subscriptions: map<UserId, Subscription>,
    audit: seq<AuditEvent>)
  {
    /** A missing wallet row reads as balance 0. */
    function Balance(u: UserId): int {
      if u in balances then balances[u] else 0
    }

    function Row(u: UserId): Option<Subscription> {
      if u in subscriptions then Some(subscriptions[u]) else None
    }
  }

  class Session {
    var ledger: Ledger
    var balances: map<UserId, int>
    var adaptyEvents: map<string, UserId>
    var cpEvents: map<string, UserId>
    var subscriptions: map<UserId, Subscription>
    var audit: seq<AuditEvent>

    constructor (t: Tables)
      ensures View() == t
    {
      ledger, balances := t.ledger, t.balances;
      adaptyEvents, cpEvents := t.adaptyEvents, t.cpEvents;
      subscriptions, audit := t.subscriptions, t.audit;
    }

    function View(): Tables
      reads this
    {
      Tables(ledger, balances, adaptyEvents, cpEvents, subscriptions, audit)
    }

    /** ROLLBACK to the state the transaction began in. */
    method Rollback(start: Tables)
      modifies this
      ensures View() == start
    {
      ledger, balances := start.ledger, start.balances;
      adaptyEvents, cpEvents := start.adaptyEvents, start.cpEvents;
      subscriptions, audit := start.subscriptions, start.audit;
    }

    method Record(event: AuditEvent)
      modifies this`audit
      ensures audit == old(audit) + [event]
    {
      audit := audit + [event];
    }
  }
}
