/** What a run of CloudPayments calls ends in, said from the calls alone: which payments landed. */
module CloudPaymentsOutcome {
  import opened Base
  import opened Database
  import opened Wallet
  import opened Pricing
  import opened CloudPayments
  import opened CloudPaymentsDelivery

  /** A payment credited to a user with an amount. */
  datatype Payout = Payout(id: string, user: UserId, amount: int)

  /** The database fails on a payment that is worth something. */
  predicate Fails(p: Payment, c: Condition, cfg: Config) {
    CreditsOf(p, cfg).Some? && c.databaseFails
  }

  /** The payment at `k` is worth something, and no payment up to it met a failing database. */
  predicate Lands(payments: seq<Payment>, cs: seq<Condition>, k: nat, cfg: Config)
    requires |cs| == |payments|
  {
    k < |payments| && CreditsOf(payments[k], cfg).Some? && forall j :: 0 <= j <= k ==> !Fails(payments[j], cs[j], cfg)
  }

  function PayoutOf(p: Payment, u: UserId, cfg: Config): Payout
    requires CreditsOf(p, cfg).Some?
  {
    Payout(p.paymentId, u, CreditsOf(p, cfg).value)
  }

  /** What one call's list lands. */
  ghost function LandedIn(payments: seq<Payment>, u: UserId, cs: seq<Condition>, cfg: Config): set<Payout>
    requires |cs| == |payments|
  {
    set k | 0 <= k < |payments| && Lands(payments, cs, k, cfg) :: PayoutOf(payments[k], u, cfg)
  }

  /** What a run of calls lands: read off the calls, without running them. */
  ghost function Landed(deliveries: seq<Delivery>, cfg: Config): set<Payout>
    requires WellFormed(deliveries)
  {
    set i, l | 0 <= i < |deliveries|
               && l in LandedIn(deliveries[i].payments, deliveries[i].user, deliveries[i].conditions, cfg) :: l
  }

  /** Everything of a list that is worth something. */
  ghost function Creditable(payments: seq<Payment>, u: UserId, cfg: Config): set<Payout> {
    set k | 0 <= k < |payments| && CreditsOf(payments[k], cfg).Some? :: PayoutOf(payments[k], u, cfg)
  }

  /** One user and one amount for each payment id. */
  ghost predicate Coherent(landed: set<Payout>) {
    forall a, b :: a in landed && b in landed && a.id == b.id ==> a == b
  }

  /** No payment of the list is a subscription worth nothing. */
  ghost predicate Positive(payments: seq<Payment>, cfg: Config) {
    forall k :: 0 <= k < |payments| && CreditsOf(payments[k], cfg).Some? ==> CreditsOf(payments[k], cfg).value > 0
  }

  ghost predicate AllPositive(deliveries: seq<Delivery>, cfg: Config) {
    forall i :: 0 <= i < |deliveries| ==> Positive(deliveries[i].payments, cfg)
  }

  // ----- The outcome -----

  /** The journal is the start journal plus the landed ids, each with its user. */
  ghost predicate JournalIs(t0: Tables, landed: set<Payout>, t: Tables) {
    && (forall id :: id in t0.cpEvents ==> id in t.cpEvents && t.cpEvents[id] == t0.cpEvents[id])
    && (forall l :: l in landed ==> l.id in t.cpEvents && (l.id !in t0.cpEvents ==> t.cpEvents[l.id] == l.user))
    && (forall id :: id in t.cpEvents && id !in t0.cpEvents ==> exists l :: l in landed && l.id == id)
  }

  /** The ledger is the start ledger plus one credit for each landed payment that was not journaled at the start. */
  ghost predicate CreditsAre(t0: Tables, landed: set<Payout>, t: Tables) {
    && (forall k :: k in t0.ledger ==> k in t.ledger && t.ledger[k] == t0.ledger[k])
    && (forall l :: l in landed && l.id !in t0.cpEvents ==> Credits(t, l))
    && (forall k :: k in t.ledger && k !in t0.ledger ==>
          exists l :: l in landed && l.id !in t0.cpEvents && k == (l.user, CpTxn(l.id)))
  }

  predicate Credits(t: Tables, l: Payout) {
    (l.user, CpTxn(l.id)) in t.ledger && t.ledger[(l.user, CpTxn(l.id))] == Tx(Credit, l.amount)
  }

  ghost predicate OutcomeIs(t0: Tables, landed: set<Payout>, t: Tables) {
    JournalIs(t0, landed, t) && CreditsAre(t0, landed, t)
  }

  lemma DuplicateLands(t0: Tables, landed: set<Payout>, t: Tables, l: Payout)
    requires OutcomeIs(t0, landed, t) && Coherent(landed + {l}) && l.id in t.cpEvents
    ensures OutcomeIs(t0, landed + {l}, t)
  {
    if l.id !in t0.cpEvents {
      var other :| other in landed && other.id == l.id;
      assert other in landed + {l} && l in landed + {l};
      assert landed + {l} == landed;
    }
  }

  lemma NewLands(t0: Tables, landed: set<Payout>, t: Tables, t': Tables, l: Payout)
    requires OutcomeIs(t0, landed, t) && l.id !in t.cpEvents && (l.user, CpTxn(l.id)) !in t.ledger
    requires t'.cpEvents == t.cpEvents[l.id := l.user]
    requires t'.ledger == t.ledger[(l.user, CpTxn(l.id)) := Tx(Credit, l.amount)]
    ensures OutcomeIs(t0, landed + {l}, t')
  {
    var all := landed + {l};
    forall id | id in t'.cpEvents && id !in t0.cpEvents ensures exists m :: m in all && m.id == id {
      if id == l.id {
        assert l in all;
      } else {
        var m :| m in landed && m.id == id;
        assert m in all;
      }
    }
    forall k | k in t'.ledger && k !in t0.ledger
      ensures exists m :: m in all && m.id !in t0.cpEvents && k == (m.user, CpTxn(m.id))
    {
      if k == (l.user, CpTxn(l.id)) {
        assert l in all;
      } else {
        var m :| m in landed && m.id !in t0.cpEvents && k == (m.user, CpTxn(m.id));
        assert m in all;
      }
    }
    forall m | m in all && m.id !in t0.cpEvents ensures Credits(t', m) {
      assert m in landed ==> Credits(t, m);
    }
  }

  /** One payment that meets a working database. */
  lemma PaymentLands(t0: Tables, landed: set<Payout>, before: Batch, p: Payment, u: UserId, c: Condition, cfg: Config)
    requires Paired(before.tables) && OutcomeIs(t0, landed, before.tables) && before.failure.None?
    requires CreditsOf(p, cfg).Some? && CreditsOf(p, cfg).value > 0 && !c.databaseFails
    requires Coherent(landed + {PayoutOf(p, u, cfg)})
    ensures BatchNext(before, p, u, c, cfg).failure.None?
    ensures OutcomeIs(t0, landed + {PayoutOf(p, u, cfg)}, BatchNext(before, p, u, c, cfg).tables)
  {
    var t := before.tables;
    PaymentRefusedIff(t, p, u, c.now, cfg);
    PositiveIsNotRefused(p, cfg);
    hide CreditsOf, OutcomeIs, Coherent, Paired;
    PaymentVerdict(t, p, u, c.now, cfg);
    hide PaymentSpec;
    if p.paymentId in t.cpEvents {
      DuplicateLands(t0, landed, t, PayoutOf(p, u, cfg));
    } else {
      CreditedMeaning(t, p, u, c.now, cfg);
      NewLands(t0, landed, t, PaymentSpec(t, p, u, c.now, cfg).value.0, PayoutOf(p, u, cfg));
    }
  }

  lemma PositiveIsNotRefused(p: Payment, cfg: Config)
    requires CreditsOf(p, cfg).Some? && CreditsOf(p, cfg).value > 0
    ensures KindOf(p, cfg) == Some(SubscriptionKind) ==> SubscriptionCredits(cfg, Some(p.productCode), CloudPaymentsChannel) > 0
  {
    hide KindOf, SubscriptionCredits, OneTimeCredits;
  }

  lemma PaymentVerdict(t: Tables, p: Payment, u: UserId, now: Instant, cfg: Config)
    requires CreditsOf(p, cfg).Some? && PaymentSpec(t, p, u, now, cfg).Ok?
    ensures PaymentSpec(t, p, u, now, cfg).value.1 == if p.paymentId in t.cpEvents then DuplicatePayment else Credited
  {
    hide CreditsOf, Prepared, PaymentAudit;
  }

  /** Any other payment: it ends the list, or is skipped. */
  lemma PaymentDoesNotLand(t0: Tables, before: Batch, p: Payment, u: UserId, c: Condition, cfg: Config)
    requires before.failure.Some? || Fails(p, c, cfg) || CreditsOf(p, cfg).None?
    ensures BatchNext(before, p, u, c, cfg).tables == before.tables
    ensures BatchNext(before, p, u, c, cfg).failure.None? <==> before.failure.None? && CreditsOf(p, cfg).None?
  {
    hide CreditsOf, Prepared, PaymentAudit;
  }

  lemma LandedInSnoc(payments: seq<Payment>, u: UserId, cs: seq<Condition>, cfg: Config)
    requires |cs| == |payments| > 0
    ensures var n := |payments| - 1;
            LandedIn(payments, u, cs, cfg) == LandedIn(payments[..n], u, cs[..n], cfg)
                                             + if Lands(payments, cs, n, cfg) then {PayoutOf(payments[n], u, cfg)} else {}
  {
    hide CreditsOf;
    var n := |payments| - 1;
    forall k | 0 <= k < n ensures Lands(payments, cs, k, cfg) <==> Lands(payments[..n], cs[..n], k, cfg) {
      assert forall j :: 0 <= j <= k ==> payments[..n][j] == payments[j] && cs[..n][j] == cs[j];
      assert Lands(payments, cs, k, cfg) ==> forall j :: 0 <= j <= k ==> !Fails(payments[..n][j], cs[..n][j], cfg);
      assert Lands(payments[..n], cs[..n], k, cfg) ==> forall j :: 0 <= j <= k ==> !Fails(payments[..n][j], cs[..n][j], cfg);
    }
    var whole, part := LandedIn(payments, u, cs, cfg), LandedIn(payments[..n], u, cs[..n], cfg);
    forall l | l in whole ensures l in part || (Lands(payments, cs, n, cfg) && l == PayoutOf(payments[n], u, cfg)) {
      var k :| 0 <= k < |payments| && Lands(payments, cs, k, cfg) && l == PayoutOf(payments[k], u, cfg);
      assert k < n ==> payments[..n][k] == payments[k];
    }
    forall l | l in part ensures l in whole {
      var k :| 0 <= k < n && Lands(payments[..n], cs[..n], k, cfg) && l == PayoutOf(payments[..n][k], u, cfg);
      assert Lands(payments, cs, k, cfg) && payments[..n][k] == payments[k];
    }
  }

  /** One call: it fails exactly where the database does, and what it lands is in the tables. */
  lemma {:induction false} BatchOutcome(
    t0: Tables, landed: set<Payout>, t: Tables, payments: seq<Payment>, u: UserId, cs: seq<Condition>, cfg: Config)
    requires |cs| == |payments| && Paired(t) && OutcomeIs(t0, landed, t) && Positive(payments, cfg)
    requires Coherent(landed + LandedIn(payments, u, cs, cfg))
    ensures OutcomeIs(t0, landed + LandedIn(payments, u, cs, cfg), BatchSpec(t, payments, u, cs, cfg).tables)
    ensures BatchSpec(t, payments, u, cs, cfg).failure.None? <==> forall j :: 0 <= j < |payments| ==> !Fails(payments[j], cs[j], cfg)
    decreases |payments|
  {
    hide OutcomeIs, BatchNext, Paired, CreditsOf, LandedIn;
    if payments == [] {
      NothingLands(u, cfg);
      assert landed + {} == landed;
    } else {
      var n := |payments| - 1;
      LandedInSnoc(payments, u, cs, cfg);
      var part := LandedIn(payments[..n], u, cs[..n], cfg);
      Fewer(landed + part, landed + LandedIn(payments, u, cs, cfg));
      BatchOutcome(t0, landed, t, payments[..n], u, cs[..n], cfg);
      BatchKeepsPaired(t, payments[..n], u, cs[..n], cfg);
      var before := BatchSpec(t, payments[..n], u, cs[..n], cfg);
      assert before.failure.None? <==> forall j :: 0 <= j < n ==> !Fails(payments[j], cs[j], cfg) by {
        assert forall j :: 0 <= j < n ==> payments[..n][j] == payments[j] && cs[..n][j] == cs[j];
      }
      hide Coherent, Positive;
      LastPayment(t0, landed, part, before, payments, u, cs, cfg);
    }
  }

  lemma NothingLands(u: UserId, cfg: Config)
    ensures LandedIn([], u, [], cfg) == {}
  {
  }

  lemma Fewer(a: set<Payout>, b: set<Payout>)
    requires Coherent(b) && a <= b
    ensures Coherent(a)
  {
  }

  lemma LastPayment(t0: Tables, landed: set<Payout>, part: set<Payout>, before: Batch, payments: seq<Payment>, u: UserId,
                    cs: seq<Condition>, cfg: Config)
    requires |cs| == |payments| > 0 && Positive(payments, cfg)
    requires var n := |payments| - 1;
             && Paired(before.tables) && OutcomeIs(t0, landed + part, before.tables)
             && (before.failure.None? <==> forall j :: 0 <= j < n ==> !Fails(payments[j], cs[j], cfg))
             && LandedIn(payments, u, cs, cfg) == part + (if Lands(payments, cs, n, cfg) then {PayoutOf(payments[n], u, cfg)} else {})
             && Coherent(landed + LandedIn(payments, u, cs, cfg))
    ensures var n := |payments| - 1; var after := BatchNext(before, payments[n], u, cs[n], cfg);
            && OutcomeIs(t0, landed + LandedIn(payments, u, cs, cfg), after.tables)
            && (after.failure.None? <==> forall j :: 0 <= j < |payments| ==> !Fails(payments[j], cs[j], cfg))
  {
    hide OutcomeIs, BatchNext, Paired, CreditsOf, LandedIn, Coherent;
    var n := |payments| - 1;
    var p := payments[n];
    if Lands(payments, cs, n, cfg) {
      var l := PayoutOf(p, u, cfg);
      assert landed + (part + {l}) == landed + part + {l};
      PaymentLands(t0, landed + part, before, p, u, cs[n], cfg);
    } else {
      assert part + {} == part;
      PaymentDoesNotLand(t0, before, p, u, cs[n], cfg);
    }
  }

  /** The outcome of any run of calls — lists of any length, in any order, repeated, with database failures
      anywhere in them — stated without running it: journal and ledger are those of the start plus what landed. */
  lemma {:induction false} RunOutcome(t0: Tables, deliveries: seq<Delivery>, cfg: Config)
    requires Paired(t0) && WellFormed(deliveries) && AllPositive(deliveries, cfg) && Coherent(Landed(deliveries, cfg))
    ensures OutcomeIs(t0, Landed(deliveries, cfg), Run(t0, deliveries, cfg))
    decreases |deliveries|
  {
    hide Paired, Positive, LandedIn;
    if deliveries == [] {
      assert Landed(deliveries, cfg) == {};
      hide Landed;
    } else {
      var n := |deliveries| - 1;
      var d := deliveries[n];
      LandedSnoc(deliveries, cfg);
      hide Landed, OutcomeIs, BatchSpec;
      Fewer(Landed(deliveries[..n], cfg), Landed(deliveries, cfg));
      RunOutcome(t0, deliveries[..n], cfg);
      RunKeepsPaired(t0, deliveries[..n], cfg);
      BatchOutcome(t0, Landed(deliveries[..n], cfg), Run(t0, deliveries[..n], cfg), d.payments, d.user, d.conditions, cfg);
    }
  }

  lemma LandedSnoc(deliveries: seq<Delivery>, cfg: Config)
    requires WellFormed(deliveries) && deliveries != []
    ensures var n := |deliveries| - 1; var d := deliveries[n];
            Landed(deliveries, cfg) == Landed(deliveries[..n], cfg) + LandedIn(d.payments, d.user, d.conditions, cfg)
  {
    hide LandedIn;
    var n := |deliveries| - 1;
    assert forall i :: 0 <= i < n ==> deliveries[..n][i] == deliveries[i];
  }

  lemma OutcomeIsUnique(t0: Tables, landed: set<Payout>, a: Tables, b: Tables)
    requires OutcomeIs(t0, landed, a) && OutcomeIs(t0, landed, b)
    ensures forall id :: id in a.cpEvents ==> id in b.cpEvents && b.cpEvents[id] == a.cpEvents[id]
    ensures forall k :: k in a.ledger ==> k in b.ledger && b.ledger[k] == a.ledger[k]
  {
    forall id | id in a.cpEvents ensures id in b.cpEvents && b.cpEvents[id] == a.cpEvents[id] {
      if id !in t0.cpEvents {
        var l :| l in landed && l.id == id;
      }
    }
    forall k | k in a.ledger ensures k in b.ledger && b.ledger[k] == a.ledger[k] {
      if k !in t0.ledger {
        var l :| l in landed && l.id !in t0.cpEvents && k == (l.user, CpTxn(l.id));
        assert Credits(a, l) && Credits(b, l);
      }
    }
  }

  // ----- Balances -----

  lemma PaymentConsistent(t: Tables, p: Payment, u: UserId, now: Instant, cfg: Config)
    requires Consistent(t) && PaymentSpec(t, p, u, now, cfg).Ok?
    ensures Consistent(PaymentSpec(t, p, u, now, cfg).value.0)
  {
    hide CreditsOf, KindOf, PaidRow, PaymentAudit, Consistent, GrantTables, GrantResult;
    if PaymentSpec(t, p, u, now, cfg).value.1 == Credited {
      var prepared, key, amount := Prepared(t, p, u, now, cfg), CpTxn(p.paymentId), CreditsOf(p, cfg).value;
      ConsistentFrame(t, prepared);
      hide Prepared;
      GrantConsistent(prepared, u, key, amount);
      ConsistentFrame(GrantTables(prepared, u, key, amount), PaymentSpec(t, p, u, now, cfg).value.0);
    }
  }

  lemma GrantConsistent(t: Tables, u: UserId, key: IdemKey, amount: int)
    requires Consistent(t)
    ensures Consistent(GrantTables(t, u, key, amount))
  {
    if amount > 0 {
      if (u, key) !in t.ledger {
        PostedKeepsConsistent(t, u, key, Tx(Credit, amount));
      } else {
        assert forall v: UserId :: Provisioned(t, u).Balance(v) == t.Balance(v);
      }
    }
  }

  lemma {:induction false} BatchConsistent(t: Tables, payments: seq<Payment>, u: UserId, cs: seq<Condition>, cfg: Config)
    requires Consistent(t) && |cs| == |payments|
    ensures Consistent(BatchSpec(t, payments, u, cs, cfg).tables)
    decreases |payments|
  {
    hide Consistent, PaymentSpec;
    if payments != [] {
      var n := |payments| - 1;
      BatchConsistent(t, payments[..n], u, cs[..n], cfg);
      var before := BatchSpec(t, payments[..n], u, cs[..n], cfg);
      if before.failure.None? && PaymentSpec(before.tables, payments[n], u, cs[n].now, cfg).Ok? {
        PaymentConsistent(before.tables, payments[n], u, cs[n].now, cfg);
      }
    }
  }

  /** Every run of calls keeps every balance equal to its ledger total. */
  lemma {:induction false} RunConsistent(t: Tables, deliveries: seq<Delivery>, cfg: Config)
    requires Consistent(t) && WellFormed(deliveries)
    ensures Consistent(Run(t, deliveries, cfg))
    decreases |deliveries|
  {
    hide Consistent, BatchSpec;
    if deliveries != [] {
      var n := |deliveries| - 1;
      RunConsistent(t, deliveries[..n], cfg);
      var d := deliveries[n];
      BatchConsistent(Run(t, deliveries[..n], cfg), d.payments, d.user, d.conditions, cfg);
    }
  }

  // ----- Confluence -----

  /** The final state depends only on what was delivered: two runs of calls that land the same payments, in
      whatever lists, orders, repetitions and failures, end with the same journal, ledger and balances. */
  lemma Confluence(t0: Tables, first: seq<Delivery>, second: seq<Delivery>, cfg: Config)
    requires Paired(t0) && Consistent(t0) && WellFormed(first) && WellFormed(second)
    requires AllPositive(first, cfg) && AllPositive(second, cfg)
    requires Landed(first, cfg) == Landed(second, cfg) && Coherent(Landed(first, cfg))
    ensures var a, b := Run(t0, first, cfg), Run(t0, second, cfg);
            a.cpEvents == b.cpEvents && a.ledger == b.ledger && forall u: UserId :: a.Balance(u) == b.Balance(u)
  {
    RunOutcome(t0, first, cfg);
    RunOutcome(t0, second, cfg);
    RunConsistent(t0, first, cfg);
    RunConsistent(t0, second, cfg);
    hide Landed, OutcomeIs, Coherent, Run, Paired;
    var landed, a, b := Landed(first, cfg), Run(t0, first, cfg), Run(t0, second, cfg);
    OutcomeIsUnique(t0, landed, a, b);
    OutcomeIsUnique(t0, landed, b, a);
    assert a.cpEvents == b.cpEvents && a.ledger == b.ledger;
    forall u: UserId ensures a.Balance(u) == b.Balance(u) {
      assert a.Balance(u) == Total(a.ledger, u) && b.Balance(u) == Total(b.ledger, u);
    }
  }

  /** A call of the list that meets no failing database lands everything in it, and no call lands more. */
  lemma LandedOfList(payments: seq<Payment>, u: UserId, cs: seq<Condition>, cfg: Config)
    requires |cs| == |payments|
    ensures LandedIn(payments, u, cs, cfg) <= Creditable(payments, u, cfg)
    ensures (forall j :: 0 <= j < |payments| ==> !Fails(payments[j], cs[j], cfg)) ==>
              LandedIn(payments, u, cs, cfg) == Creditable(payments, u, cfg)
  {
    hide CreditsOf;
    if forall j :: 0 <= j < |payments| ==> !Fails(payments[j], cs[j], cfg) {
      forall l | l in Creditable(payments, u, cfg) ensures l in LandedIn(payments, u, cs, cfg) {
        var k :| 0 <= k < |payments| && CreditsOf(payments[k], cfg).Some? && l == PayoutOf(payments[k], u, cfg);
        assert Lands(payments, cs, k, cfg);
      }
    }
  }

  lemma AllOfTheList(deliveries: seq<Delivery>, payments: seq<Payment>, u: UserId, cfg: Config)
    requires WellFormed(deliveries)
    requires forall i :: 0 <= i < |deliveries| ==> deliveries[i].payments == payments && deliveries[i].user == u
    ensures Landed(deliveries, cfg) <= Creditable(payments, u, cfg)
    ensures forall i :: 0 <= i < |deliveries| ==>
              LandedIn(payments, u, deliveries[i].conditions, cfg) <= Landed(deliveries, cfg)
  {
    hide LandedIn, Creditable;
    forall i | 0 <= i < |deliveries| ensures LandedIn(payments, u, deliveries[i].conditions, cfg) <= Creditable(payments, u, cfg) {
      LandedOfList(payments, u, deliveries[i].conditions, cfg);
    }
  }

  /** Re-delivery until one call succeeds: whatever failed before, the state holds the whole list, each
      payment once. */
  lemma RedeliveryCompletes(t0: Tables, deliveries: seq<Delivery>, payments: seq<Payment>, u: UserId, cfg: Config)
    requires Paired(t0) && WellFormed(deliveries) && deliveries != []
    requires Positive(payments, cfg) && Coherent(Creditable(payments, u, cfg))
    requires forall i :: 0 <= i < |deliveries| ==> deliveries[i].payments == payments && deliveries[i].user == u
    requires var n := |deliveries| - 1;
             BatchSpec(Run(t0, deliveries[..n], cfg), payments, u, deliveries[n].conditions, cfg).failure.None?
    ensures Landed(deliveries, cfg) == Creditable(payments, u, cfg)
    ensures OutcomeIs(t0, Creditable(payments, u, cfg), Run(t0, deliveries, cfg))
  {
    hide BatchSpec, Paired, OutcomeIs, Positive, Landed, Creditable, LandedIn;
    var n := |deliveries| - 1;
    AllOfTheList(deliveries, payments, u, cfg);
    AllOfTheList(deliveries[..n], payments, u, cfg);
    Fewer(Landed(deliveries, cfg), Creditable(payments, u, cfg));
    Fewer(Landed(deliveries[..n], cfg), Creditable(payments, u, cfg));
    RunOutcome(t0, deliveries, cfg);
    RunOutcome(t0, deliveries[..n], cfg);
    RunKeepsPaired(t0, deliveries[..n], cfg);
    LandedSnoc(deliveries, cfg);
    BatchOutcome(t0, Landed(deliveries[..n], cfg), Run(t0, deliveries[..n], cfg), payments, u, deliveries[n].conditions, cfg);
    LandedOfList(payments, u, deliveries[n].conditions, cfg);
  }
}
