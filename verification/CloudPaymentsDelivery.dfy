/** What the CloudPayments webhook keeps over every run of deliveries, failures and re-deliveries. */
module CloudPaymentsDelivery {
  import opened Base
  import opened Database
  import opened Wallet
  import opened Pricing
  import opened CloudPayments
  import Adapty
  import AdaptyDelivery

  /** One webhook call's list, with the conditions each payment's transaction meets. */
  datatype Delivery = Delivery(user: UserId, payments: seq<Payment>, conditions: seq<Condition>)

  ghost predicate WellFormed(deliveries: seq<Delivery>) {
    forall i :: 0 <= i < |deliveries| ==> |deliveries[i].payments| == |deliveries[i].conditions|
  }

  function Run(t: Tables, deliveries: seq<Delivery>, cfg: Config): Tables
    requires WellFormed(deliveries)
    decreases |deliveries|
  {
    if deliveries == [] then t
    else
      var n := |deliveries| - 1;
      var d := deliveries[n];
      BatchSpec(Run(t, deliveries[..n], cfg), d.payments, d.user, d.conditions, cfg).tables
  }

  // ----- Journal and ledger agree -----

  /** A payment is in the journal for a user iff that user's ledger holds its credit. */
  ghost predicate Paired(t: Tables) {
    && (forall u: UserId, id :: (u, CpTxn(id)) in t.ledger ==> id in t.cpEvents && t.cpEvents[id] == u)
    && (forall id :: id in t.cpEvents ==> (t.cpEvents[id], CpTxn(id)) in t.ledger)
  }

  /** A fresh journal insert never meets a taken ledger key: crediting adds exactly the journal row, the
      ledger row and the balance of that payment. */
  lemma CreditedMeaning(t: Tables, p: Payment, u: UserId, now: Instant, cfg: Config)
    requires Paired(t)
    requires PaymentSpec(t, p, u, now, cfg).Ok? && PaymentSpec(t, p, u, now, cfg).value.1 == Credited
    ensures var t' := PaymentSpec(t, p, u, now, cfg).value.0;
            && p.paymentId !in t.cpEvents && (u, CpTxn(p.paymentId)) !in t.ledger
            && CreditsOf(p, cfg).Some? && CreditsOf(p, cfg).value > 0
            && t'.cpEvents == t.cpEvents[p.paymentId := u]
            && t'.ledger == t.ledger[(u, CpTxn(p.paymentId)) := Tx(Credit, CreditsOf(p, cfg).value)]
            && t'.Balance(u) == t.Balance(u) + CreditsOf(p, cfg).value
            && forall v: UserId :: v != u ==> t'.Balance(v) == t.Balance(v)
  {
    hide CreditsOf, PaidRow, PaymentAudit, KindOf;
  }

  /** A payment writes no other channel's key and never shortens the trail. */
  lemma PaymentTouches(t: Tables, p: Payment, u: UserId, now: Instant, cfg: Config)
    requires PaymentSpec(t, p, u, now, cfg).Ok?
    ensures var t' := PaymentSpec(t, p, u, now, cfg).value.0;
            t.audit <= t'.audit && forall k: LedgerKey :: !k.1.CpTxn? ==> (k in t'.ledger <==> k in t.ledger)
  {
    hide CreditsOf, PaidRow, PaymentAudit, KindOf;
  }

  lemma PaymentKeepsPaired(t: Tables, p: Payment, u: UserId, now: Instant, cfg: Config)
    requires Paired(t) && PaymentSpec(t, p, u, now, cfg).Ok?
    ensures Paired(PaymentSpec(t, p, u, now, cfg).value.0)
  {
    hide PaymentSpec;
    if PaymentSpec(t, p, u, now, cfg).value.1 == Credited {
      CreditedMeaning(t, p, u, now, cfg);
    }
  }

  lemma NextKeepsPaired(before: Batch, p: Payment, u: UserId, c: Condition, cfg: Config)
    requires Paired(before.tables)
    ensures Paired(BatchNext(before, p, u, c, cfg).tables)
  {
    hide PaymentSpec, Paired;
    if before.failure.None? && PaymentSpec(before.tables, p, u, c.now, cfg).Ok? {
      PaymentKeepsPaired(before.tables, p, u, c.now, cfg);
    }
  }

  lemma {:induction false} BatchKeepsPaired(t: Tables, payments: seq<Payment>, u: UserId, cs: seq<Condition>, cfg: Config)
    requires Paired(t) && |cs| == |payments|
    ensures Paired(BatchSpec(t, payments, u, cs, cfg).tables)
    decreases |payments|
  {
    hide Paired, BatchNext;
    if payments != [] {
      var n := |payments| - 1;
      BatchKeepsPaired(t, payments[..n], u, cs[..n], cfg);
      NextKeepsPaired(BatchSpec(t, payments[..n], u, cs[..n], cfg), payments[n], u, cs[n], cfg);
    }
  }

  /** Every reachable state pairs the journal with the ledger, also after failures in mid-list. */
  lemma {:induction false} RunKeepsPaired(t: Tables, deliveries: seq<Delivery>, cfg: Config)
    requires Paired(t) && WellFormed(deliveries)
    ensures Paired(Run(t, deliveries, cfg))
    decreases |deliveries|
  {
    if deliveries != [] {
      var n := |deliveries| - 1;
      RunKeepsPaired(t, deliveries[..n], cfg);
      var d := deliveries[n];
      BatchKeepsPaired(Run(t, deliveries[..n], cfg), d.payments, d.user, d.conditions, cfg);
    }
  }

  /** The other channel does not disturb the pairing: Adapty events never touch these keys. */
  lemma AdaptyKeepsPaired(t: Tables, e: Adapty.Event, u: UserId, cfg: Config)
    requires Paired(t)
    ensures Paired(Adapty.Delivered(t, e, u, cfg))
  {
    hide Adapty.Delivered;
    AdaptyDelivery.DeliveredTouches(t, e, u, cfg);
  }

  // ----- Counting and completeness -----

  lemma PaymentJournal(t: Tables, p: Payment, u: UserId, now: Instant, cfg: Config)
    requires PaymentSpec(t, p, u, now, cfg).Ok?
    ensures var (t', verdict) := PaymentSpec(t, p, u, now, cfg).value;
            if verdict == Credited then p.paymentId !in t.cpEvents && t'.cpEvents == t.cpEvents[p.paymentId := u]
            else t' == t && (verdict == DuplicatePayment ==> p.paymentId in t.cpEvents)
  {
    hide CreditsOf, PaidRow, PaymentAudit, KindOf;
  }

  /** The counters account for the list and for the journal. */
  lemma {:induction false} BatchCounts(t: Tables, payments: seq<Payment>, u: UserId, cs: seq<Condition>, cfg: Config)
    requires |cs| == |payments|
    ensures var batch := BatchSpec(t, payments, u, cs, cfg);
            && |batch.tables.cpEvents| == |t.cpEvents| + batch.credited
            && (batch.failure.None? ==> batch.credited + batch.skipped + batch.duplicates == |payments|)
    decreases |payments|
  {
    hide PaymentSpec;
    if payments != [] {
      var n := |payments| - 1;
      BatchCounts(t, payments[..n], u, cs[..n], cfg);
      var before := BatchSpec(t, payments[..n], u, cs[..n], cfg).tables;
      if PaymentSpec(before, payments[n], u, cs[n].now, cfg).Ok? {
        PaymentJournal(before, payments[n], u, cs[n].now, cfg);
      }
    }
  }

  lemma NextJournals(before: Batch, p: Payment, u: UserId, c: Condition, cfg: Config)
    ensures forall id :: id in before.tables.cpEvents ==> id in BatchNext(before, p, u, c, cfg).tables.cpEvents
    ensures BatchNext(before, p, u, c, cfg).failure.None? && CreditsOf(p, cfg).Some? ==>
              p.paymentId in BatchNext(before, p, u, c, cfg).tables.cpEvents
  {
    hide CreditsOf, KindOf, PaidRow, PaymentAudit;
  }

  /** A call that ends without a failure has journaled every payment of its list that is worth anything,
      so re-delivering until success credits each of them. */
  lemma {:induction false} BatchCompletes(t: Tables, payments: seq<Payment>, u: UserId, cs: seq<Condition>, cfg: Config)
    requires |cs| == |payments|
    ensures var batch := BatchSpec(t, payments, u, cs, cfg);
            && (forall id :: id in t.cpEvents ==> id in batch.tables.cpEvents)
            && (batch.failure.None? ==>
                forall i :: 0 <= i < |payments| && CreditsOf(payments[i], cfg).Some? ==>
                  payments[i].paymentId in batch.tables.cpEvents)
    decreases |payments|
  {
    hide CreditsOf, BatchNext;
    if payments != [] {
      var n := |payments| - 1;
      BatchCompletes(t, payments[..n], u, cs[..n], cfg);
      var before := BatchSpec(t, payments[..n], u, cs[..n], cfg);
      NextJournals(before, payments[n], u, cs[n], cfg);
      assert before.failure.Some? ==> BatchNext(before, payments[n], u, cs[n], cfg).failure.Some? by {
        if before.failure.Some? {
          FailureSticks(before, payments[n], u, cs[n], cfg);
        }
      }
      forall i | 0 <= i < |payments| && CreditsOf(payments[i], cfg).Some? && BatchSpec(t, payments, u, cs, cfg).failure.None?
        ensures payments[i].paymentId in BatchSpec(t, payments, u, cs, cfg).tables.cpEvents
      {
        if i < n {
          assert payments[..n][i] == payments[i];
        }
      }
    }
  }

  lemma FailureSticks(before: Batch, p: Payment, u: UserId, c: Condition, cfg: Config)
    requires before.failure.Some?
    ensures BatchNext(before, p, u, c, cfg) == before
  {
  }

  // ----- Exact failure conditions -----

  /** A payment is refused by the wallet exactly when it is new and its subscription is worth no credits. */
  lemma PaymentRefusedIff(t: Tables, p: Payment, u: UserId, now: Instant, cfg: Config)
    requires Paired(t)
    ensures PaymentSpec(t, p, u, now, cfg).Err? <==>
            && KindOf(p, cfg) == Some(SubscriptionKind)
            && SubscriptionCredits(cfg, Some(p.productCode), CloudPaymentsChannel) <= 0
            && p.paymentId !in t.cpEvents
  {
    hide SubscriptionCredits, OneTimeCredits, KindOf, PaidRow;
  }

  /** The loss the upsert allows: a payment carries no end date of its own and no staleness check, so it moves
      a stored end date back exactly when it is credited as a subscription and that date lies after now plus
      the paid period. */
  lemma PaidExpiryRegressesIff(t: Tables, p: Payment, u: UserId, now: Instant, cfg: Config)
    requires PaymentSpec(t, p, u, now, cfg).Ok? && t.Row(u).Some? && t.Row(u).value.expiresAt.Some?
    ensures var t' := PaymentSpec(t, p, u, now, cfg).value.0;
            var before := t.Row(u).value.expiresAt.value;
            && t'.Row(u).Some? && t'.Row(u).value.expiresAt.Some?
            && (t'.Row(u).value.expiresAt.value < before <==>
                && PaymentSpec(t, p, u, now, cfg).value.1 == Credited && KindOf(p, cfg) == Some(SubscriptionKind)
                && now + PeriodDays(p.productCode) * MICROSECONDS_PER_DAY < before)
  {
    hide CreditsOf, PaymentAudit, KindOf, PeriodDays;
  }

  predicate Worthless(p: Payment, cfg: Config) {
    KindOf(p, cfg) == Some(SubscriptionKind) && SubscriptionCredits(cfg, Some(p.productCode), CloudPaymentsChannel) <= 0
  }

  /** One worthless subscription payment holds up the payments behind it: over any number of
      re-deliveries of the list none of them is ever journaled. */
  lemma {:induction false} WorthlessPaymentBlocksTheRest(
    t: Tables, payments: seq<Payment>, u: UserId, deliveries: seq<Delivery>, at: nat, behind: nat, cfg: Config)
    requires Paired(t) && WellFormed(deliveries) && at < behind < |payments|
    requires Worthless(payments[at], cfg)
    requires payments[at].paymentId !in t.cpEvents && payments[behind].paymentId !in t.cpEvents
    requires forall i :: 0 <= i < at ==>
               payments[i].paymentId != payments[at].paymentId && payments[i].paymentId != payments[behind].paymentId
    requires forall i :: 0 <= i < |deliveries| ==> deliveries[i].payments == payments && deliveries[i].user == u
    ensures payments[at].paymentId !in Run(t, deliveries, cfg).cpEvents
    ensures payments[behind].paymentId !in Run(t, deliveries, cfg).cpEvents
    decreases |deliveries|
  {
    hide KindOf, SubscriptionCredits, BatchSpec;
    if deliveries != [] {
      var n := |deliveries| - 1;
      WorthlessPaymentBlocksTheRest(t, payments, u, deliveries[..n], at, behind, cfg);
      RunKeepsPaired(t, deliveries[..n], cfg);
      assert deliveries[n].payments == payments && deliveries[n].user == u;
      BatchStopsAt(Run(t, deliveries[..n], cfg), payments, u, deliveries[n].conditions, at, behind, cfg);
    }
  }

  lemma BatchStopsAt(t: Tables, payments: seq<Payment>, u: UserId, cs: seq<Condition>, at: nat, behind: nat, cfg: Config)
    requires Paired(t) && at < behind < |payments| == |cs| && Worthless(payments[at], cfg)
    requires payments[at].paymentId !in t.cpEvents && payments[behind].paymentId !in t.cpEvents
    requires forall i :: 0 <= i < at ==>
               payments[i].paymentId != payments[at].paymentId && payments[i].paymentId != payments[behind].paymentId
    ensures var t' := BatchSpec(t, payments, u, cs, cfg).tables;
            payments[at].paymentId !in t'.cpEvents && payments[behind].paymentId !in t'.cpEvents
  {
    var before := BatchSpec(t, payments[..at], u, cs[..at], cfg);
    JournalGainsOnly(t, payments[..at], u, cs[..at], cfg);
    BatchKeepsPaired(t, payments[..at], u, cs[..at], cfg);
    PaymentRefusedIff(before.tables, payments[at], u, cs[at].now, cfg);
    BatchStep(t, payments, at, u, cs, cfg);
    FailureStops(t, payments, at + 1, u, cs, cfg);
  }

  lemma {:induction false} JournalGainsOnly(t: Tables, payments: seq<Payment>, u: UserId, cs: seq<Condition>, cfg: Config)
    requires |cs| == |payments|
    ensures forall id :: id in BatchSpec(t, payments, u, cs, cfg).tables.cpEvents && id !in t.cpEvents ==>
              exists i :: 0 <= i < |payments| && payments[i].paymentId == id
    decreases |payments|
  {
    hide PaymentSpec;
    if payments != [] {
      var n := |payments| - 1;
      JournalGainsOnly(t, payments[..n], u, cs[..n], cfg);
      var before := BatchSpec(t, payments[..n], u, cs[..n], cfg);
      if PaymentSpec(before.tables, payments[n], u, cs[n].now, cfg).Ok? {
        PaymentJournal(before.tables, payments[n], u, cs[n].now, cfg);
      }
      forall id | id in BatchSpec(t, payments, u, cs, cfg).tables.cpEvents && id !in t.cpEvents
        ensures exists i :: 0 <= i < |payments| && payments[i].paymentId == id
      {
        if id in before.tables.cpEvents {
          var i :| 0 <= i < n && payments[..n][i].paymentId == id;
          assert payments[i].paymentId == id;
        } else {
          assert payments[n].paymentId == id;
        }
      }
    }
  }
}
