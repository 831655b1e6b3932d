/** What the Adapty webhook keeps over every delivery order, repetition and rolled-back attempt. */
module AdaptyDelivery {
  import opened Base
  import opened Database
  import opened Wallet
  import opened SingleGrant
  import opened Pricing
  import opened Adapty

  /** One delivery attempt; `commits` is false when the database fails and the transaction rolls back. */
  datatype Attempt = Attempt(event: Event, user: UserId, commits: bool)

  type Delivery = (Event, UserId)

  function Run(t: Tables, attempts: seq<Attempt>, cfg: Config): Tables
    decreases |attempts|
  {
    if attempts == [] then t
    else
      var last := attempts[|attempts| - 1];
      var before := Run(t, attempts[..|attempts| - 1], cfg);
      if last.commits then Delivered(before, last.event, last.user, cfg) else before
  }

  // ----- Delivery confluence -----

  function SubKey(d: Delivery): LedgerKey {
    (d.1, SubGrant(PeriodId(d.0)))
  }

  function HistoricalKey(d: Delivery): LedgerKey {
    (d.1, AdaptyTxn(PeriodId(d.0)))
  }

  predicate GrantingDelivery(d: Delivery, cfg: Config) {
    && !d.0.eventType.UnknownType?
    && Classify(d.0) == Granting
    && d.0.txn.Some? && d.0.expiresAt.Some?
    && PeriodCredits(cfg, d.0) > 0
  }

  /** The events a provider may send: ids name events, a transaction has one amount, and events of one
      user that end at the same instant agree on the row they write. */
  ghost predicate Coherent(sent: set<Delivery>, cfg: Config) {
    && (forall d :: d in sent ==> GrantingDelivery(d, cfg))
    && (forall d, e {:trigger Agree(d, e, cfg)} :: d in sent && e in sent ==> Agree(d, e, cfg))
  }

  predicate Agree(d: Delivery, e: Delivery, cfg: Config) {
    && (d.0.id == e.0.id ==> d == e)
    && (d.1 == e.1 && d.0.txn == e.0.txn ==> PeriodCredits(cfg, d.0) == PeriodCredits(cfg, e.0))
    && (d.1 == e.1 && d.0.expiresAt == e.0.expiresAt ==> GrantedRow(d.0) == GrantedRow(e.0))
  }

  ghost predicate SentFrom(attempts: seq<Attempt>, sent: set<Delivery>) {
    forall i :: 0 <= i < |attempts| ==> (attempts[i].event, attempts[i].user) in sent
  }

  /** The deliveries that committed and were not already journaled at the start. */
  ghost function Landed(t0: Tables, attempts: seq<Attempt>): set<Delivery> {
    set i | 0 <= i < |attempts| && attempts[i].commits && attempts[i].event.id !in t0.adaptyEvents
      :: (attempts[i].event, attempts[i].user)
  }

  ghost predicate JournalIs(t0: Tables, landed: set<Delivery>, t: Tables) {
    && (forall id :: id in t.adaptyEvents ==> id in t0.adaptyEvents || exists d :: d in landed && d.0.id == id)
    && (forall id :: id in t0.adaptyEvents ==> id in t.adaptyEvents && t.adaptyEvents[id] == t0.adaptyEvents[id])
    && (forall d :: d in landed ==> d.0.id in t.adaptyEvents && t.adaptyEvents[d.0.id] == d.1)
  }

  /** Old rows are untouched; a period is credited once, under `sub-grant:`, unless the start state
      already held it under either key; there is no other new row. */
  ghost predicate LedgerIs(t0: Tables, landed: set<Delivery>, t: Tables, cfg: Config) {
    && (forall k :: k in t0.ledger ==> k in t.ledger && t.ledger[k] == t0.ledger[k])
    && (forall d :: d in landed && HistoricalKey(d) !in t0.ledger ==>
          && SubKey(d) in t.ledger
          && (SubKey(d) !in t0.ledger ==> t.ledger[SubKey(d)] == Tx(Credit, PeriodCredits(cfg, d.0))))
    && (forall k :: k in t.ledger && k !in t0.ledger ==>
          exists d :: d in landed && k == SubKey(d) && HistoricalKey(d) !in t0.ledger)
  }

  /** The starting row blocks an event only if it is active, dated and ends later. */
  predicate Blocked(t0: Tables, d: Delivery) {
    IsStale(t0.Row(d.1), d.0.expiresAt)
  }

  predicate NotAfter(d: Delivery, e: Delivery) {
    d.0.expiresAt.Some? && e.0.expiresAt.Some? && d.0.expiresAt.value <= e.0.expiresAt.value
  }

  /** The user's row is the latest-ending landed event's, unless the starting row outlasts them all. */
  ghost predicate RowIs(t0: Tables, landed: set<Delivery>, t: Tables, u: UserId) {
    if forall d :: d in landed && d.1 == u ==> Blocked(t0, d) then t.Row(u) == t0.Row(u)
    else exists d :: LatestFor(t0, landed, u, d) && t.Row(u) == Some(GrantedRow(d.0))
  }

  ghost predicate LatestFor(t0: Tables, landed: set<Delivery>, u: UserId, d: Delivery) {
    d in landed && d.1 == u && !Blocked(t0, d) && forall e :: e in landed && e.1 == u ==> NotAfter(e, d)
  }

  ghost predicate StateIs(t0: Tables, landed: set<Delivery>, t: Tables, cfg: Config) {
    JournalIs(t0, landed, t) && LedgerIs(t0, landed, t, cfg) && RowsAre(t0, landed, t)
  }

  ghost predicate RowsAre(t0: Tables, landed: set<Delivery>, t: Tables) {
    forall u: UserId :: RowIs(t0, landed, t, u)
  }

  lemma GrantingStep(t: Tables, d: Delivery, cfg: Config)
    requires GrantingDelivery(d, cfg) && d.0.id !in t.adaptyEvents
    ensures var t' := Delivered(t, d.0, d.1, cfg);
            var held := SubKey(d) in t.ledger || HistoricalKey(d) in t.ledger;
            && t'.adaptyEvents == t.adaptyEvents[d.0.id := d.1]
            && t'.ledger == (if held then t.ledger else t.ledger[SubKey(d) := Tx(Credit, PeriodCredits(cfg, d.0))])
            && t'.Row(d.1) == (if IsStale(t.Row(d.1), d.0.expiresAt) then t.Row(d.1) else Some(GrantedRow(d.0)))
            && forall u: UserId :: u != d.1 ==> t'.Row(u) == t.Row(u)
  {
    var keys := CheckKeys(d.0);
    assert (d.1, keys[0]) == SubKey(d) && (d.1, keys[1]) == HistoricalKey(d);
    assert AnyTaken(t, d.1, keys) <==> SubKey(d) in t.ledger || HistoricalKey(d) in t.ledger;
  }

  lemma RowStep(t0: Tables, landed: set<Delivery>, t: Tables, d: Delivery, t': Tables, u: UserId, cfg: Config)
    requires forall e :: e in landed ==> GrantingDelivery(e, cfg)
    requires GrantingDelivery(d, cfg) && RowIs(t0, landed, t, u)
    requires u != d.1 ==> t'.Row(u) == t.Row(u)
    requires u == d.1 ==>
               t'.Row(u) == if IsStale(t.Row(u), d.0.expiresAt) then t.Row(u) else Some(GrantedRow(d.0))
    ensures RowIs(t0, landed + {d}, t', u)
  {
    var more := landed + {d};
    if forall e :: e in landed && e.1 == u ==> Blocked(t0, e) {
      if u == d.1 && !Blocked(t0, d) {
        assert LatestFor(t0, more, u, d);
      }
    } else {
      var best :| LatestFor(t0, landed, u, best) && t.Row(u) == Some(GrantedRow(best.0));
      assert best in more;
      if u != d.1 || IsStale(t.Row(u), d.0.expiresAt) {
        assert LatestFor(t0, more, u, best);
      } else {
        assert NotAfter(best, d) && !Blocked(t0, d);
        assert LatestFor(t0, more, u, d);
      }
    }
  }

  lemma RowsStep(t0: Tables, landed: set<Delivery>, t: Tables, d: Delivery, cfg: Config)
    requires forall e :: e in landed ==> GrantingDelivery(e, cfg)
    requires GrantingDelivery(d, cfg) && d.0.id !in t.adaptyEvents && RowsAre(t0, landed, t)
    ensures RowsAre(t0, landed + {d}, Delivered(t, d.0, d.1, cfg))
  {
    GrantingStep(t, d, cfg);
    forall u: UserId ensures RowIs(t0, landed + {d}, Delivered(t, d.0, d.1, cfg), u) {
      assert RowIs(t0, landed, t, u);
      RowStep(t0, landed, t, d, Delivered(t, d.0, d.1, cfg), u, cfg);
    }
  }

  lemma JournalStep(t0: Tables, landed: set<Delivery>, t: Tables, d: Delivery, t': Tables)
    requires JournalIs(t0, landed, t) && d.0.id !in t.adaptyEvents
    requires t'.adaptyEvents == t.adaptyEvents[d.0.id := d.1]
    ensures JournalIs(t0, landed + {d}, t')
  {
    var more := landed + {d};
    assert d in more;
    forall id | id in t'.adaptyEvents && id !in t0.adaptyEvents
      ensures exists e :: e in more && e.0.id == id
    {
      if id != d.0.id {
        var e :| e in landed && e.0.id == id;
        assert e in more;
      }
    }
  }

  lemma LedgerStep(t0: Tables, landed: set<Delivery>, t: Tables, d: Delivery, t': Tables, cfg: Config)
    requires forall e :: e in landed && SubKey(e) == SubKey(d) ==> PeriodCredits(cfg, e.0) == PeriodCredits(cfg, d.0)
    requires LedgerIs(t0, landed, t, cfg)
    requires t'.ledger == if SubKey(d) in t.ledger || HistoricalKey(d) in t.ledger then t.ledger
                          else t.ledger[SubKey(d) := Tx(Credit, PeriodCredits(cfg, d.0))]
    ensures LedgerIs(t0, landed + {d}, t', cfg)
  {
    var more := landed + {d};
    assert HistoricalKey(d) in t.ledger ==> HistoricalKey(d) in t0.ledger;
    if SubKey(d) in t.ledger && SubKey(d) !in t0.ledger {
      var e :| e in landed && SubKey(d) == SubKey(e) && HistoricalKey(e) !in t0.ledger;
    }
    forall k | k in t'.ledger && k !in t0.ledger
      ensures exists e :: e in more && k == SubKey(e) && HistoricalKey(e) !in t0.ledger
    {
      if k in t.ledger {
        var e :| e in landed && k == SubKey(e) && HistoricalKey(e) !in t0.ledger;
        assert e in more;
      } else {
        assert d in more && k == SubKey(d);
      }
    }
  }

  lemma StateStep(t0: Tables, landed: set<Delivery>, t: Tables, d: Delivery, cfg: Config)
    requires Coherent(landed + {d}, cfg)
    requires StateIs(t0, landed, t, cfg) && d.0.id !in t0.adaptyEvents
    ensures StateIs(t0, landed + {d}, Delivered(t, d.0, d.1, cfg), cfg)
  {
    hide LedgerIs, RowIs, RowsAre, Delivered, HandleSpec;
    var more := landed + {d};
    assert d in more && forall e :: e in landed ==> e in more;
    if d.0.id in t.adaptyEvents {
      var e :| e in landed && e.0.id == d.0.id;
      assert Agree(d, e, cfg);
      assert more == landed;
      KnownEventIsDuplicate(t, d, cfg);
    } else {
      var t' := Delivered(t, d.0, d.1, cfg);
      assert GrantingDelivery(d, cfg);
      GrantingStep(t, d, cfg);
      JournalStep(t0, landed, t, d, t');
      forall e | e in landed && SubKey(e) == SubKey(d)
        ensures PeriodCredits(cfg, e.0) == PeriodCredits(cfg, d.0)
      {
        assert GrantingDelivery(e, cfg) && Agree(d, e, cfg);
      }
      LedgerStep(t0, landed, t, d, t', cfg);
      RowsStep(t0, landed, t, d, cfg);
    }
  }

  /** The outcome of any run, stated without the order of its deliveries. */
  lemma {:induction false} RunOutcome(t0: Tables, attempts: seq<Attempt>, sent: set<Delivery>, cfg: Config)
    requires Coherent(sent, cfg) && SentFrom(attempts, sent)
    ensures Landed(t0, attempts) <= sent
    ensures StateIs(t0, Landed(t0, attempts), Run(t0, attempts, cfg), cfg)
    decreases |attempts|
  {
    hide JournalIs, LedgerIs, RowsAre, Delivered;
    if attempts == [] {
      assert Landed(t0, attempts) == {};
      StartState(t0, cfg);
    } else {
      var prefix, last := attempts[..|attempts| - 1], attempts[|attempts| - 1];
      RunOutcome(t0, prefix, sent, cfg);
      LandedStep(t0, attempts);
      var d := (last.event, last.user);
      var landed, before := Landed(t0, prefix), Run(t0, prefix, cfg);
      assert d in sent by { assert attempts[|attempts| - 1] == last; }
      assert landed + {} == landed;
      if last.commits {
        if d.0.id in t0.adaptyEvents {
          assert d.0.id in before.adaptyEvents by { OldEventsStay(t0, landed, before, d.0.id); }
          KnownEventIsDuplicate(before, d, cfg);
        } else {
          assert Coherent(landed + {d}, cfg);
          StateStep(t0, landed, before, d, cfg);
        }
      }
    }
  }

  lemma KnownEventIsDuplicate(t: Tables, d: Delivery, cfg: Config)
    requires d.0.id in t.adaptyEvents && GrantingDelivery(d, cfg)
    ensures Delivered(t, d.0, d.1, cfg) == t
  {
  }

  lemma StartState(t0: Tables, cfg: Config)
    ensures StateIs(t0, {}, t0, cfg)
  {
  }

  lemma OldEventsStay(t0: Tables, landed: set<Delivery>, t: Tables, id: string)
    requires JournalIs(t0, landed, t) && id in t0.adaptyEvents
    ensures id in t.adaptyEvents
  {
  }

  lemma LandedStep(t0: Tables, attempts: seq<Attempt>)
    requires attempts != []
    ensures var last := attempts[|attempts| - 1];
            Landed(t0, attempts) == Landed(t0, attempts[..|attempts| - 1])
              + if last.commits && last.event.id !in t0.adaptyEvents then {(last.event, last.user)} else {}
  {
    var prefix := attempts[..|attempts| - 1];
    assert forall i :: 0 <= i < |prefix| ==> prefix[i] == attempts[i];
    forall d | d in Landed(t0, attempts)
      ensures d in Landed(t0, prefix)
              || (d == (attempts[|prefix|].event, attempts[|prefix|].user)
                  && attempts[|prefix|].commits && attempts[|prefix|].event.id !in t0.adaptyEvents)
    {
      var i :| 0 <= i < |attempts| && attempts[i].commits && attempts[i].event.id !in t0.adaptyEvents
               && d == (attempts[i].event, attempts[i].user);
      if i < |prefix| {
        assert prefix[i] == attempts[i];
      }
    }
  }

  lemma OutcomeIsUnique(t0: Tables, landed: set<Delivery>, a: Tables, b: Tables, cfg: Config)
    requires Coherent(landed, cfg)
    requires StateIs(t0, landed, a, cfg) && StateIs(t0, landed, b, cfg)
    ensures a.adaptyEvents == b.adaptyEvents
    ensures a.ledger == b.ledger
    ensures forall u: UserId :: a.Row(u) == b.Row(u)
  {
    hide Coherent, JournalIs, LedgerIs, RowsAre;
    JournalIsUnique(t0, landed, a, b);
    forall k | k in a.ledger ensures k in b.ledger && a.ledger[k] == b.ledger[k] {
      SameEntry(t0, landed, a, b, k, cfg);
    }
    forall k | k in b.ledger ensures k in a.ledger {
      SameEntry(t0, landed, b, a, k, cfg);
    }
    forall u: UserId ensures a.Row(u) == b.Row(u) {
      SameRow(t0, landed, a, b, u, cfg);
    }
  }

  lemma JournalIsUnique(t0: Tables, landed: set<Delivery>, a: Tables, b: Tables)
    requires JournalIs(t0, landed, a) && JournalIs(t0, landed, b)
    ensures a.adaptyEvents == b.adaptyEvents
  {
    assert a.adaptyEvents.Keys == b.adaptyEvents.Keys;
  }

  lemma SameEntry(t0: Tables, landed: set<Delivery>, a: Tables, b: Tables, k: LedgerKey, cfg: Config)
    requires LedgerIs(t0, landed, a, cfg) && LedgerIs(t0, landed, b, cfg)
    requires k in a.ledger
    ensures k in b.ledger && a.ledger[k] == b.ledger[k]
  {
    if k !in t0.ledger {
      var d :| d in landed && k == SubKey(d) && HistoricalKey(d) !in t0.ledger;
    }
  }

  lemma SameRow(t0: Tables, landed: set<Delivery>, a: Tables, b: Tables, u: UserId, cfg: Config)
    requires Coherent(landed, cfg) && RowsAre(t0, landed, a) && RowsAre(t0, landed, b)
    ensures a.Row(u) == b.Row(u)
  {
    assert RowIs(t0, landed, a, u) && RowIs(t0, landed, b, u);
    if d :| d in landed && d.1 == u && !Blocked(t0, d) {
      var p :| LatestFor(t0, landed, u, p) && a.Row(u) == Some(GrantedRow(p.0));
      var q :| LatestFor(t0, landed, u, q) && b.Row(u) == Some(GrantedRow(q.0));
      assert NotAfter(p, q) && NotAfter(q, p) && Agree(p, q, cfg);
    }
  }

  /** Delivery confluence: two runs over coherent events in which the same deliveries landed, in any
      order and with any repetition and any rolled-back attempts, end with the same journal, the same
      ledger, the same balances and the same subscription rows. */
  lemma Confluence(t0: Tables, first: seq<Attempt>, second: seq<Attempt>, sent: set<Delivery>, cfg: Config)
    requires Coherent(sent, cfg) && SentFrom(first, sent) && SentFrom(second, sent)
    requires Landed(t0, first) == Landed(t0, second)
    requires Consistent(t0)
    ensures var a, b := Run(t0, first, cfg), Run(t0, second, cfg);
            && a.adaptyEvents == b.adaptyEvents
            && a.ledger == b.ledger
            && (forall u: UserId :: a.Balance(u) == b.Balance(u))
            && forall u: UserId :: a.Row(u) == b.Row(u)
  {
    RunOutcome(t0, first, sent, cfg);
    RunOutcome(t0, second, sent, cfg);
    var a, b := Run(t0, first, cfg), Run(t0, second, cfg);
    OutcomeIsUnique(t0, Landed(t0, first), a, b, cfg);
    RunConsistent(t0, first, cfg);
    RunConsistent(t0, second, cfg);
    forall u: UserId ensures a.Balance(u) == b.Balance(u) {
      assert a.Balance(u) == Total(a.ledger, u) && b.Balance(u) == Total(b.ledger, u);
    }
  }

  // ----- Invariants of every event kind -----

  lemma GrantOnceConsistent(t: Tables, u: UserId, key: IdemKey, checks: seq<IdemKey>, amount: int)
    requires Consistent(t)
    ensures Consistent(GrantOnceTables(t, u, key, checks, amount))
  {
    if !AnyTaken(t, u, checks) && amount > 0 {
      if (u, key) !in t.ledger {
        PostedKeepsConsistent(t, u, key, Tx(Credit, amount));
      } else {
        assert forall v: UserId :: Provisioned(t, u).Balance(v) == t.Balance(v);
      }
    }
  }

  lemma DeliveredConsistent(t: Tables, e: Event, u: UserId, cfg: Config)
    requires Consistent(t)
    ensures Consistent(Delivered(t, e, u, cfg))
  {
    hide GrantOnceTables, GrantOnceResult, Consistent, NextRow;
    if HandleSpec(t, e, u, cfg).Ok? && HandleSpec(t, e, u, cfg).value.1 == Applied {
      var journaled, before := Journaled(t, e, u), t;
      if Classify(e) == OneTimePurchase {
        ConsistentFrame(t, journaled);
        var key, credits := TokenPurchase(e.txn.value), OneTimeCredits(cfg, e.product.value).value;
        before := GrantOnceTables(journaled, u, key, [key], credits);
        GrantOnceConsistent(journaled, u, key, [key], credits);
      } else {
        var written := WithRow(journaled, u, NextRow(t.Row(u), e, Classify(e)));
        ConsistentFrame(t, written);
        before := written;
        if Classify(e) == Granting {
          before := GrantOnceTables(written, u, PeriodKey(e), CheckKeys(e), PeriodCredits(cfg, e));
          GrantOnceConsistent(written, u, PeriodKey(e), CheckKeys(e), PeriodCredits(cfg, e));
        }
      }
      ConsistentFrame(before, Delivered(t, e, u, cfg));
    }
  }

  lemma {:induction false} RunConsistent(t0: Tables, attempts: seq<Attempt>, cfg: Config)
    requires Consistent(t0)
    ensures Consistent(Run(t0, attempts, cfg))
    decreases |attempts|
  {
    if attempts != [] {
      var prefix, last := attempts[..|attempts| - 1], attempts[|attempts| - 1];
      RunConsistent(t0, prefix, cfg);
      DeliveredConsistent(Run(t0, prefix, cfg), last.event, last.user, cfg);
    }
  }

  function AuditCount(audit: seq<AuditEvent>, id: string): nat
    decreases |audit|
  {
    if audit == [] then 0
    else
      var last := audit[|audit| - 1];
      AuditCount(audit[..|audit| - 1], id)
      + if (last.AdaptySubscription? || last.AdaptyPurchase?) && last.eventId == id then 1 else 0
  }

  /** The journal and the audit agree: an event was recorded iff exactly one audit row names it. */
  ghost predicate AuditPaired(t: Tables) {
    forall id :: AuditCount(t.audit, id) == if id in t.adaptyEvents then 1 else 0
  }

  lemma AuditCountAppend(audit: seq<AuditEvent>, event: AuditEvent, id: string)
    ensures AuditCount(audit + [event], id) ==
            AuditCount(audit, id) + if (event.AdaptySubscription? || event.AdaptyPurchase?) && event.eventId == id then 1 else 0
  {
    assert (audit + [event])[..|audit|] == audit;
  }

  lemma GrantOnceAudit(t: Tables, u: UserId, key: IdemKey, checks: seq<IdemKey>, amount: int, id: string)
    ensures AuditCount(GrantOnceTables(t, u, key, checks, amount).audit, id) == AuditCount(t.audit, id)
  {
    hide AnyTaken, AuditCount;
    if !AnyTaken(t, u, checks) && amount > 0 && (u, key) !in t.ledger {
      AuditCountAppend(t.audit, BillingCredit(u, amount, t.Balance(u) + amount), id);
    }
  }

  /** What an applied event does to the audit: the credit, if any, then one row naming the event. */
  lemma AppliedAudit(t: Tables, e: Event, u: UserId, cfg: Config, id: string)
    requires HandleSpec(t, e, u, cfg).Ok? && HandleSpec(t, e, u, cfg).value.1 == Applied
    ensures AuditCount(HandleSpec(t, e, u, cfg).value.0.audit, id) == AuditCount(t.audit, id) + if id == e.id then 1 else 0
  {
    hide NextRow, GrantOnceTables, GrantOnceResult, PeriodCredits, OneTimeCredits, CheckKeys, PeriodKey, AuditCount, IsStale;
    var journaled, before := Journaled(t, e, u), t;
    if Classify(e) == OneTimePurchase {
      var key, credits := TokenPurchase(e.txn.value), OneTimeCredits(cfg, e.product.value).value;
      before := GrantOnceTables(journaled, u, key, [key], credits);
      GrantOnceAudit(journaled, u, key, [key], credits, id);
    } else {
      var written := WithRow(journaled, u, NextRow(t.Row(u), e, Classify(e)));
      before := written;
      if Classify(e) == Granting {
        before := GrantOnceTables(written, u, PeriodKey(e), CheckKeys(e), PeriodCredits(cfg, e));
        GrantOnceAudit(written, u, PeriodKey(e), CheckKeys(e), PeriodCredits(cfg, e), id);
      }
    }
    var after := HandleSpec(t, e, u, cfg).value.0.audit;
    var last := after[|after| - 1];
    assert after == before.audit + [last];
    AuditCountAppend(before.audit, last, id);
  }

  /** Every delivery of every kind of event keeps journal and audit paired. */
  lemma DeliveredAuditPaired(t: Tables, e: Event, u: UserId, cfg: Config)
    requires AuditPaired(t)
    ensures AuditPaired(Delivered(t, e, u, cfg))
  {
    var r := HandleSpec(t, e, u, cfg);
    if r.Ok? && r.value.1 == Applied {
      AppliedJournal(t, e, u, cfg);
      var t' := r.value.0;
      forall id ensures AuditCount(t'.audit, id) == if id in t'.adaptyEvents then 1 else 0 {
        AppliedAudit(t, e, u, cfg, id);
        assert AuditCount(t.audit, id) == if id in t.adaptyEvents then 1 else 0;
      }
    }
  }

  lemma AppliedJournal(t: Tables, e: Event, u: UserId, cfg: Config)
    requires HandleSpec(t, e, u, cfg).Ok? && HandleSpec(t, e, u, cfg).value.1 == Applied
    ensures e.id !in t.adaptyEvents
    ensures HandleSpec(t, e, u, cfg).value.0.adaptyEvents == t.adaptyEvents[e.id := u]
  {
    hide GrantOnceTables, GrantOnceResult, NextRow, IsStale;
  }

  // ----- Exact failure conditions -----

  /** A delivery raises (and is retried by the provider forever) exactly when it is new, its credit is
      not positive and nothing was credited under its keys. */
  lemma HandleFailsIff(t: Tables, e: Event, u: UserId, cfg: Config)
    ensures HandleSpec(t, e, u, cfg).Err? <==>
            && !e.eventType.UnknownType? && e.id !in t.adaptyEvents
            && match Classify(e)
               case Granting =>
                 PeriodCredits(cfg, e) <= 0 && !AnyTaken(t, u, CheckKeys(e)) && (u, PeriodKey(e)) !in t.ledger
               case OneTimePurchase =>
                 && e.txn.Some? && e.product.Some? && e.product.value != ""
                 && OneTimeCredits(cfg, e.product.value).Some? && OneTimeCredits(cfg, e.product.value).value <= 0
                 && (u, TokenPurchase(e.txn.value)) !in t.ledger
               case _ => false
  {
    if !e.eventType.UnknownType? && Classify(e) != OneTimePurchase {
      var written := WithRow(Journaled(t, e, u), u, NextRow(t.Row(u), e, Classify(e)));
      assert written.ledger == t.ledger;
      assert AnyTaken(written, u, CheckKeys(e)) == AnyTaken(t, u, CheckKeys(e));
    } else if !e.eventType.UnknownType? && e.txn.Some? {
      var key := TokenPurchase(e.txn.value);
      assert [key][0] == key;
      assert AnyTaken(Journaled(t, e, u), u, [key]) <==> (u, key) in t.ledger;
    }
  }

  /** An access-only subscription (an overlay row with 0 tokens, which the table's CHECK allows) can
      never be activated by the webhook: every attempt leaves the state as it was. */
  lemma {:induction false} ZeroCreditSubscriptionNeverApplies(t: Tables, attempts: seq<Attempt>, e: Event, u: UserId, cfg: Config)
    requires e.eventType == SubscriptionStarted && e.txn.Some?
    requires e.product.Some? && e.product.value != "" && e.product.value in cfg.overlay
    requires cfg.overlay[e.product.value].kind == Some(SubscriptionKind) && cfg.overlay[e.product.value].tokens == Some(0)
    requires e.id !in t.adaptyEvents
    requires (u, SubGrant(e.txn.value)) !in t.ledger && (u, AdaptyTxn(e.txn.value)) !in t.ledger
    requires forall i :: 0 <= i < |attempts| ==> attempts[i].event == e && attempts[i].user == u
    ensures Run(t, attempts, cfg) == t
    decreases |attempts|
  {
    if attempts != [] {
      ZeroCreditSubscriptionNeverApplies(t, attempts[..|attempts| - 1], e, u, cfg);
      HandleFailsIff(t, e, u, cfg);
    }
  }

  /** A period held under both of its keys was credited twice. */
  predicate CreditedTwice(t: Tables, u: UserId, txn: string) {
    (u, SubGrant(txn)) in t.ledger && (u, AdaptyTxn(txn)) in t.ledger
  }

  /** A delivery credits a period for the second time exactly when it carries no transaction id, falls
      back to that period's id, and the period is so far held only under `sub-grant:`. With transaction
      ids on every event no period is ever credited twice. */
  lemma DoubleCreditIff(t: Tables, e: Event, u: UserId, cfg: Config, v: UserId, txn: string)
    requires !CreditedTwice(t, v, txn)
    ensures CreditedTwice(Delivered(t, e, u, cfg), v, txn) <==>
            && !e.eventType.UnknownType? && Classify(e) == Granting
            && e.id !in t.adaptyEvents && u == v
            && e.txn.None? && PeriodId(e) == txn
            && (v, SubGrant(txn)) in t.ledger
            && PeriodCredits(cfg, e) > 0
  {
    if !e.eventType.UnknownType? && e.id !in t.adaptyEvents {
      match Classify(e) {
        case Granting =>
          GrantingLedger(t, e, u, cfg);
          hide Delivered;
        case OneTimePurchase => PurchaseLedger(t, e, u, cfg, v, txn);
        case _ =>
      }
    }
  }

  /** One subscription, two deliveries of 10 credits: the second event names the period only as its
      original transaction. */
  lemma DoubleCreditExample()
    ensures var cfg := Config(map[], map[], map[], 10, 10, 10, map[]);
            var start := Tables(map[], map[], map[], map[], map[], []);
            var started := Event("e1", SubscriptionStarted, Some("pro"), Some(1), Some("T"), Some("T"), None, None, None);
            var updated := Event("e2", AccessLevelUpdated, Some("pro"), Some(1), None, Some("T"), Some(true), Some("premium"), None);
            Delivered(Delivered(start, started, 0, cfg), updated, 0, cfg).ledger
            == map[(0, SubGrant("T")) := Tx(Credit, 10), (0, AdaptyTxn("T")) := Tx(Credit, 10)]
  {
    var cfg := Config(map[], map[], map[], 10, 10, 10, map[]);
    var start := Tables(map[], map[], map[], map[], map[], []);
    var started := Event("e1", SubscriptionStarted, Some("pro"), Some(1), Some("T"), Some("T"), None, None, None);
    var updated := Event("e2", AccessLevelUpdated, Some("pro"), Some(1), None, Some("T"), Some(true), Some("premium"), None);
    hide Delivered, AnyTaken, CheckKeys;
    GrantingLedger(start, started, 0, cfg);
    DeliveredJournal(start, started, 0, cfg);
    GrantingLedger(Delivered(start, started, 0, cfg), updated, 0, cfg);
  }

  lemma DeliveredJournal(t: Tables, e: Event, u: UserId, cfg: Config)
    ensures Delivered(t, e, u, cfg).adaptyEvents.Keys <= t.adaptyEvents.Keys + {e.id}
  {
    if HandleSpec(t, e, u, cfg).Ok? && HandleSpec(t, e, u, cfg).value.1 == Applied {
      AppliedJournal(t, e, u, cfg);
      hide HandleSpec;
    } else {
      hide NextRow, GrantOnceTables, GrantOnceResult, PeriodKey, CheckKeys, PeriodCredits, OneTimeCredits, IsStale;
    }
  }

  /** A new granting event adds its period key, and only when every checked key is free. */
  lemma GrantingLedger(t: Tables, e: Event, u: UserId, cfg: Config)
    requires !e.eventType.UnknownType? && Classify(e) == Granting && e.id !in t.adaptyEvents
    ensures AnyTaken(t, u, CheckKeys(e)) <==>
              (u, PeriodKey(e)) in t.ledger || (e.txn.Some? && (u, AdaptyTxn(e.txn.value)) in t.ledger)
    ensures Delivered(t, e, u, cfg).ledger ==
            if AnyTaken(t, u, CheckKeys(e)) || PeriodCredits(cfg, e) <= 0 then t.ledger
            else t.ledger[(u, PeriodKey(e)) := Tx(Credit, PeriodCredits(cfg, e))]
  {
    var written := WithRow(Journaled(t, e, u), u, NextRow(t.Row(u), e, Granting));
    var keys := CheckKeys(e);
    assert keys[0] == PeriodKey(e) && (e.txn.Some? ==> keys[1] == AdaptyTxn(e.txn.value));
    assert written.ledger == t.ledger && AnyTaken(written, u, keys) == AnyTaken(t, u, keys);
    GrantOnceMeaning(written, u, PeriodKey(e), keys, PeriodCredits(cfg, e));
  }

  lemma PurchaseLedger(t: Tables, e: Event, u: UserId, cfg: Config, v: UserId, txn: string)
    requires !e.eventType.UnknownType? && Classify(e) == OneTimePurchase
    ensures (v, SubGrant(txn)) in Delivered(t, e, u, cfg).ledger <==> (v, SubGrant(txn)) in t.ledger
    ensures (v, AdaptyTxn(txn)) in Delivered(t, e, u, cfg).ledger <==> (v, AdaptyTxn(txn)) in t.ledger
  {
  }

  /** The webhook writes only its own journal and its own keys. */
  lemma DeliveredTouches(t: Tables, e: Event, u: UserId, cfg: Config)
    ensures Delivered(t, e, u, cfg).cpEvents == t.cpEvents
    ensures forall k: LedgerKey :: k.1.CpTxn? || k.1.CrmSubGrant? ==>
              (k in Delivered(t, e, u, cfg).ledger <==> k in t.ledger)
  {
    if !e.eventType.UnknownType? && e.id !in t.adaptyEvents {
      JournalsAlone(t, e, u, cfg);
      if Classify(e) == Granting {
        GrantingLedger(t, e, u, cfg);
        hide Delivered, CheckKeys, AnyTaken, PeriodCredits;
      } else {
        hide NextRow, OneTimeCredits;
      }
    }
  }

  lemma JournalsAlone(t: Tables, e: Event, u: UserId, cfg: Config)
    ensures Delivered(t, e, u, cfg).cpEvents == t.cpEvents
  {
    hide ApplySpec, PurchaseSpec;
    if !e.eventType.UnknownType? {
      if Classify(e) == OneTimePurchase {
        PurchaseAlone(t, e, u, cfg);
      } else {
        ApplyAlone(t, e, u, cfg);
      }
    }
  }

  /** The trail only grows. */
  lemma TrailGrows(t: Tables, e: Event, u: UserId, cfg: Config)
    ensures t.audit <= Delivered(t, e, u, cfg).audit
  {
    hide ApplySpec, PurchaseSpec;
    if !e.eventType.UnknownType? {
      if Classify(e) == OneTimePurchase {
        PurchaseTrail(t, e, u, cfg);
      } else {
        ApplyTrail(t, e, u, cfg);
      }
    }
  }

  lemma PurchaseTrail(t: Tables, e: Event, u: UserId, cfg: Config)
    ensures PurchaseSpec(t, e, u, cfg).Ok? ==> t.audit <= PurchaseSpec(t, e, u, cfg).value.0.audit
  {
    hide GrantOnceResult, OneTimeCredits, AnyTaken;
  }

  lemma ApplyTrail(t: Tables, e: Event, u: UserId, cfg: Config)
    requires !e.eventType.UnknownType? && Classify(e) != OneTimePurchase
    ensures ApplySpec(t, e, u, cfg).Ok? ==> t.audit <= ApplySpec(t, e, u, cfg).value.0.audit
  {
    hide GrantOnceResult, NextRow, CheckKeys, PeriodKey, PeriodCredits, IsStale, AnyTaken;
  }

  lemma PurchaseAlone(t: Tables, e: Event, u: UserId, cfg: Config)
    ensures PurchaseSpec(t, e, u, cfg).Ok? ==> PurchaseSpec(t, e, u, cfg).value.0.cpEvents == t.cpEvents
  {
    hide GrantOnceTables, GrantOnceResult, OneTimeCredits;
  }

  lemma ApplyAlone(t: Tables, e: Event, u: UserId, cfg: Config)
    requires !e.eventType.UnknownType? && Classify(e) != OneTimePurchase
    ensures ApplySpec(t, e, u, cfg).Ok? ==> ApplySpec(t, e, u, cfg).value.0.cpEvents == t.cpEvents
  {
    hide GrantOnceTables, GrantOnceResult, NextRow, CheckKeys, PeriodKey, PeriodCredits, IsStale;
  }

  /** The end date of a dated row moves back (or is dropped) exactly when a new granting event with an
      earlier (or no) date meets a row that is not active, or carries no date at all. The staleness
      rule therefore protects active rows against dated events, and nothing else. */
  lemma ExpiryRegressesIff(t: Tables, e: Event, u: UserId, cfg: Config)
    requires t.Row(u).Some? && t.Row(u).value.expiresAt.Some?
    requires HandleSpec(t, e, u, cfg).Ok?
    ensures var before := t.Row(u).value;
            var after := Delivered(t, e, u, cfg).Row(u);
            && after.Some?
            && ((after.value.expiresAt.None? || after.value.expiresAt.value < before.expiresAt.value) <==>
                && !e.eventType.UnknownType? && Classify(e) == Granting && e.id !in t.adaptyEvents
                && (e.expiresAt.None? || (before.status.Expired? && e.expiresAt.value < before.expiresAt.value)))
  {
    var r := HandleSpec(t, e, u, cfg);
    if r.value.1 == Applied && Classify(e) != OneTimePurchase {
      var next := NextRow(t.Row(u), e, Classify(e));
      var written := WithRow(Journaled(t, e, u), u, next);
      assert written.Row(u) == next;
      assert r.value.0.subscriptions == written.subscriptions;
    }
  }
}
