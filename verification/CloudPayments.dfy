/** The CloudPayments webhook from the provider's verified payment list to the ledger. */
module CloudPayments {
  import opened Base
  import opened Database
  import opened Wallet
  import opened Pricing

  // ----- Product classes -----

  datatype ProductClass = TokensClass | SubscriptionClass | UnknownClass

  const INTERVAL_KEYWORDS: seq<string> := ["week", "month", "year", "day"]

  /** `^\d+_tokens`, case-insensitive. */
  predicate TokensName(p: string) {
    exists n :: 0 < n <= |p| && (forall i :: 0 <= i < n ==> IsDigit(p[i])) && StartsWith(Lower(p[n..]), "_tokens")
  }

  predicate LooksLikeSubscription(p: string) {
    || (exists i :: 0 <= i < |INTERVAL_KEYWORDS| && Contains(Lower(p), INTERVAL_KEYWORDS[i]))
    || EndsWith(Lower(p), "_nottrial") || EndsWith(Lower(p), "_trial")
  }

  /** First match wins; the webhook and the checkout both call it without an interval unit. */
  function ClassifyProduct(p: string, oneTimeIds: set<string>): ProductClass {
    if p in oneTimeIds then TokensClass
    else if TokensName(p) then TokensClass
    else if LooksLikeSubscription(p) then SubscriptionClass
    else UnknownClass
  }

  /** Days bought: the first interval keyword in the code decides, 30 without one. */
  function PeriodDays(code: string): (days: int)
    ensures days > 0
  {
    var s := Lower(code);
    if Contains(s, "week") then 7
    else if Contains(s, "month") then 30
    else if Contains(s, "year") then 365
    else if Contains(s, "day") then 1
    else 30
  }

  const MICROSECONDS_PER_DAY := 86_400_000_000

  // ----- Reconciliation of the provider's list -----

  /** The provider's JSON, with absent or wrongly typed fields as `None`. */
  datatype RawId = MissingId | TextId(text: string) | NumberId(number: int)

  datatype RawProduct = RawProduct(code: Option<string>, paymentType: Option<string>)

  datatype RawPayment = RawPayment(
    status: Option<string>, paidAt: Option<Instant>, paymentId: RawId, product: Option<RawProduct>)

  datatype Payment = Payment(
    paymentId: string, productCode: string, paymentType: string, status: string, paidAt: Instant)

  predicate NonBlank(s: Option<string>) {
    s.Some? && Strip(s.value) != ""
  }

  function NormalizedStatus(item: RawPayment): string {
    if item.status.Some? then Lower(Strip(item.status.value)) else ""
  }

  /** The documented conjunction: paid, fresh, and carrying an id, a code and a type. */
  predicate Creditable(item: RawPayment, paidStatuses: set<string>, cutoff: Instant) {
    && NormalizedStatus(item) in paidStatuses
    && item.paidAt.Some? && cutoff <= item.paidAt.value
    && item.paymentId.TextId? && Strip(item.paymentId.text) != ""
    && item.product.Some? && NonBlank(item.product.value.code) && NonBlank(item.product.value.paymentType)
  }

  function ToPayment(item: RawPayment): Payment
    requires item.paidAt.Some? && item.paymentId.TextId? && item.product.Some?
    requires item.product.value.code.Some? && item.product.value.paymentType.Some?
  {
    Payment(Strip(item.paymentId.text), Strip(item.product.value.code.value),
            Lower(Strip(item.product.value.paymentType.value)), NormalizedStatus(item), item.paidAt.value)
  }

  function Selected(data: seq<RawPayment>, paidStatuses: set<string>, cutoff: Instant): seq<Payment>
    decreases |data|
  {
    if data == [] then []
    else
      var item := data[|data| - 1];
      Selected(data[..|data| - 1], paidStatuses, cutoff)
      + if Creditable(item, paidStatuses, cutoff) then [ToPayment(item)] else []
  }

  /** The item as a payment, field by field: texts stripped, status and type in lower case too. */
  predicate Reports(item: RawPayment, p: Payment) {
    && p.status == Lower(Strip(if item.status.Some? then item.status.value else ""))
    && item.paidAt == Some(p.paidAt)
    && item.paymentId.TextId? && p.paymentId == Strip(item.paymentId.text)
    && item.product.Some? && item.product.value.code.Some? && item.product.value.paymentType.Some?
    && p.productCode == Strip(item.product.value.code.value)
    && p.paymentType == Lower(Strip(item.product.value.paymentType.value))
  }

  /** A payment that may be credited: paid, no earlier than `since`, with an id, a code and a type. */
  predicate PaidSince(p: Payment, paidStatuses: set<string>, since: Instant) {
    p.status in paidStatuses && p.paidAt >= since && p.paymentId != "" && p.productCode != "" && p.paymentType != ""
  }

  /** Kept is exactly what some item of the list reports as paid and fresh enough. */
  lemma {:induction false} KeptIffPaid(data: seq<RawPayment>, paidStatuses: set<string>, since: Instant, p: Payment)
    ensures p in Selected(data, paidStatuses, since) <==>
            PaidSince(p, paidStatuses, since) && exists i :: 0 <= i < |data| && Reports(data[i], p)
    decreases |data|
  {
    if data != [] {
      var n := |data| - 1;
      KeptIffPaid(data[..n], paidStatuses, since, p);
      CreditableIffPaid(data[n], paidStatuses, since, p);
      hide Creditable, ToPayment, Reports, PaidSince;
      assert forall i :: 0 <= i < n ==> data[..n][i] == data[i];
    } else {
      assert Selected(data, paidStatuses, since) == [];
    }
  }

  lemma CreditableIffPaid(item: RawPayment, paidStatuses: set<string>, since: Instant, p: Payment)
    ensures Creditable(item, paidStatuses, since) && ToPayment(item) == p <==>
            Reports(item, p) && PaidSince(p, paidStatuses, since)
  {
    BlankTexts();
    hide Strip, Lower;
  }

  predicate Increasing(ks: seq<nat>, bound: nat) {
    (forall i, j :: 0 <= i < j < |ks| ==> ks[i] < ks[j]) && forall i :: 0 <= i < |ks| ==> ks[i] < bound
  }

  /** The item reports a payment that may be credited. */
  ghost predicate Wanted(item: RawPayment, paidStatuses: set<string>, since: Instant) {
    exists p :: Reports(item, p) && PaidSince(p, paidStatuses, since)
  }

  lemma OneItem(item: RawPayment, paidStatuses: set<string>, since: Instant)
    ensures Creditable(item, paidStatuses, since) <==> Wanted(item, paidStatuses, since)
    ensures Creditable(item, paidStatuses, since) ==> Reports(item, ToPayment(item))
  {
    BlankTexts();
    hide Strip, Lower;
    if Creditable(item, paidStatuses, since) {
      assert Reports(item, ToPayment(item)) && PaidSince(ToPayment(item), paidStatuses, since);
    }
  }

  /** The positions of the `true` entries, in order. */
  ghost function Positions(flags: seq<bool>): (ks: seq<nat>)
    ensures Increasing(ks, |flags|) && forall i :: 0 <= i < |flags| ==> (i in ks <==> flags[i])
    decreases |flags|
  {
    if flags == [] then []
    else
      var n := |flags| - 1;
      Positions(flags[..n]) + if flags[n] then [n] else []
  }

  ghost function WantedFlags(data: seq<RawPayment>, paidStatuses: set<string>, since: Instant): seq<bool> {
    seq(|data|, i requires 0 <= i < |data| => Wanted(data[i], paidStatuses, since))
  }

  /** The selection is the paid, fresh and complete items, once each and in the provider's order. */
  lemma {:induction false} SelectedMeaning(data: seq<RawPayment>, paidStatuses: set<string>, since: Instant)
    ensures var ks := Positions(WantedFlags(data, paidStatuses, since));
            var out := Selected(data, paidStatuses, since);
            |out| == |ks| && forall j :: 0 <= j < |ks| ==> Reports(data[ks[j]], out[j])
    decreases |data|
  {
    if data != [] {
      var n := |data| - 1;
      SelectedMeaning(data[..n], paidStatuses, since);
      OneItem(data[n], paidStatuses, since);
      hide Reports, Wanted, Creditable, ToPayment, Increasing;
      var flags := WantedFlags(data, paidStatuses, since);
      assert flags[..n] == WantedFlags(data[..n], paidStatuses, since);
      assert Positions(flags) == Positions(flags[..n]) + if flags[n] then [n] else [];
    }
  }

  lemma BlankTexts()
    ensures Strip("") == "" && Lower("") == "" && forall s :: Lower(s) == "" <==> s == ""
  {
  }

  /** A longer window never loses a payment. */
  lemma LongerWindowKeeps(data: seq<RawPayment>, paidStatuses: set<string>, since: Instant, earlier: Instant, p: Payment)
    requires earlier <= since && p in Selected(data, paidStatuses, since)
    ensures p in Selected(data, paidStatuses, earlier)
  {
    KeptIffPaid(data, paidStatuses, since, p);
    KeptIffPaid(data, paidStatuses, earlier, p);
    hide Selected, Reports;
  }

  method SelectCreditablePayments(data: seq<RawPayment>, paidStatuses: set<string>, now: Instant, freshnessHours: int)
    returns (creditable: seq<Payment>)
    ensures creditable == Selected(data, paidStatuses, now - freshnessHours * 3_600_000_000)
    ensures forall p :: p in creditable <==>
              && PaidSince(p, paidStatuses, now - freshnessHours * 3_600_000_000)
              && exists i :: 0 <= i < |data| && Reports(data[i], p)
  {
    hide Strip, Lower, Reports, PaidSince;
    var cutoff := now - freshnessHours * 3_600_000_000;
    creditable := [];
    for i := 0 to |data|
      invariant creditable == Selected(data[..i], paidStatuses, cutoff)
    {
      var item := data[i];
      assert data[..i + 1][..i] == data[..i];
      var status := NormalizedStatus(item);
      if status !in paidStatuses { continue; }
      if item.paidAt.None? || item.paidAt.value < cutoff { continue; }
      if !item.paymentId.TextId? || Strip(item.paymentId.text) == "" { continue; }
      if item.product.None? { continue; }
      var code, paymentType := item.product.value.code, item.product.value.paymentType;
      if !NonBlank(code) { continue; }
      if !NonBlank(paymentType) { continue; }
      creditable := creditable + [Payment(Strip(item.paymentId.text), Strip(code.value),
                                          Lower(Strip(paymentType.value)), status, item.paidAt.value)];
    }
    assert data[..|data|] == data;
    forall p ensures p in creditable <==> PaidSince(p, paidStatuses, cutoff) && exists i :: 0 <= i < |data| && Reports(data[i], p) {
      KeptIffPaid(data, paidStatuses, cutoff, p);
    }
  }

  /** The list without the items whose id an earlier item already has. */
  function Unique(items: seq<RawPayment>): seq<RawPayment>
    decreases |items|
  {
    if items == [] then []
    else
      var last, rest := items[|items| - 1], items[..|items| - 1];
      if !last.paymentId.MissingId? && HasId(rest, last.paymentId) then Unique(rest) else Unique(rest) + [last]
  }

  predicate HasId(items: seq<RawPayment>, id: RawId) {
    exists i :: 0 <= i < |items| && items[i].paymentId == id
  }

  /** No id is kept twice, no id is lost, and items without an id all stay. */
  lemma {:induction false} UniqueMeaning(items: seq<RawPayment>)
    ensures forall i, j :: 0 <= i < j < |Unique(items)| && !Unique(items)[i].paymentId.MissingId? ==>
              Unique(items)[i].paymentId != Unique(items)[j].paymentId
    ensures forall id :: HasId(Unique(items), id) <==> HasId(items, id)
    ensures forall x :: x in items && x.paymentId.MissingId? ==> x in Unique(items)
    decreases |items|
  {
    if items != [] {
      var last, rest := items[|items| - 1], items[..|items| - 1];
      UniqueMeaning(rest);
      assert forall i :: 0 <= i < |rest| ==> rest[i] == items[i];
      assert forall x :: x in items <==> x in rest || x == last;
      forall id ensures HasId(Unique(items), id) <==> HasId(items, id) {
        HasIdAppend(rest, last, id);
        HasIdAppend(Unique(rest), last, id);
        assert rest + [last] == items;
      }
      if Unique(items) != Unique(rest) {
        assert !last.paymentId.MissingId? ==> !HasId(Unique(rest), last.paymentId);
      }
    }
  }

  /** No earlier item has the id of item `i`. */
  predicate FirstOfItsId(items: seq<RawPayment>, i: nat)
    requires i < |items|
  {
    items[i].paymentId.MissingId? || !HasId(items[..i], items[i].paymentId)
  }

  lemma FirstInPrefix(items: seq<RawPayment>, n: nat)
    requires n <= |items|
    ensures forall i :: 0 <= i < n ==> items[..n][i] == items[i] && (FirstOfItsId(items[..n], i) <==> FirstOfItsId(items, i))
  {
    hide HasId;
    assert forall i :: 0 <= i < n ==> items[..n][..i] == items[..i];
  }

  /** It keeps the provider's order, and of items with one id the first. */
  lemma {:induction false} UniqueInOrder(items: seq<RawPayment>) returns (ks: seq<nat>)
    ensures Increasing(ks, |items|) && |Unique(items)| == |ks|
    ensures forall j :: 0 <= j < |ks| ==> Unique(items)[j] == items[ks[j]]
    ensures forall i :: 0 <= i < |items| ==> (i in ks <==> FirstOfItsId(items, i))
    decreases |items|
  {
    ks := [];
    assert Increasing(ks, |items|);
    hide Unique, FirstOfItsId, Increasing;
    UniqueStep(items);
    if items != [] {
      var n := |items| - 1;
      ks := UniqueInOrder(items[..n]);
      FirstInPrefix(items, n);
      AppendLast(ks, n);
      if FirstOfItsId(items, n) {
        ks := ks + [n];
      }
    }
  }

  /** The index one past the bound goes behind all the others. */
  lemma AppendLast(ks: seq<nat>, n: nat)
    requires Increasing(ks, n)
    ensures n !in ks && Increasing(ks, n + 1) && Increasing(ks + [n], n + 1)
    ensures forall j :: 0 <= j < |ks| ==> ks[j] < n
    ensures forall i :: i in ks + [n] <==> i in ks || i == n
  {
  }

  lemma UniqueStep(items: seq<RawPayment>)
    ensures var n := |items| - 1;
            Unique(items) == if items == [] then []
                             else if FirstOfItsId(items, n) then Unique(items[..n]) + [items[n]]
                             else Unique(items[..n])
  {
    hide HasId;
  }

  lemma HasIdAppend(items: seq<RawPayment>, last: RawPayment, id: RawId)
    ensures HasId(items + [last], id) <==> HasId(items, id) || last.paymentId == id
  {
    var more := items + [last];
    assert more[|items|] == last && forall i :: 0 <= i < |items| ==> more[i] == items[i];
  }

  method ListPaymentsBoth(first: seq<RawPayment>, second: seq<RawPayment>) returns (unique: seq<RawPayment>)
    ensures unique == Unique(first + second)
  {
    var merged := first + second;
    var seen: set<RawId> := {};
    unique := [];
    for k := 0 to |merged|
      invariant unique == Unique(merged[..k])
      invariant forall x :: x in seen <==> !x.MissingId? && HasId(merged[..k], x)
    {
      var item := merged[k];
      assert merged[..k + 1][..k] == merged[..k] && merged[..k + 1] == merged[..k] + [item];
      forall x ensures HasId(merged[..k + 1], x) <==> HasId(merged[..k], x) || item.paymentId == x {
        HasIdAppend(merged[..k], item, x);
      }
      if !item.paymentId.MissingId? && item.paymentId in seen {
        continue;
      }
      if !item.paymentId.MissingId? {
        seen := seen + {item.paymentId};
      }
      unique := unique + [item];
    }
    assert merged[..|merged|] == merged;
  }

  // ----- Crediting one payment -----

  datatype Verdict = Credited | DuplicatePayment | Skipped

  /** The class money is taken from: the provider's type, unless it calls a subscription product one-time. */
  function KindOf(p: Payment, cfg: Config): Option<PurchaseKind> {
    if p.paymentType == "one_time" then
      if p.productCode !in OneTimeIds(cfg) && ClassifyProduct(p.productCode, OneTimeIds(cfg)) == SubscriptionClass
      then Some(SubscriptionKind) else Some(OneTime)
    else if p.paymentType == "subscription" then Some(SubscriptionKind)
    else None
  }

  function CreditsOf(p: Payment, cfg: Config): Option<int> {
    match KindOf(p, cfg)
    case None => None
    case Some(OneTime) =>
      var c := OneTimeCredits(cfg, p.productCode);
      if c.Some? && c.value > 0 then c else None
    case Some(SubscriptionKind) => Some(SubscriptionCredits(cfg, Some(p.productCode), CloudPaymentsChannel))
  }

  function PaidRow(p: Payment, now: Instant): Subscription {
    Subscription(Active, Some(p.productCode), Some(now + PeriodDays(p.productCode) * MICROSECONDS_PER_DAY), Some(true))
  }

  /** The tables a payment's own transaction reaches before the grant. */
  function Prepared(t: Tables, p: Payment, u: UserId, now: Instant, cfg: Config): Tables {
    var t1 := t.(cpEvents := t.cpEvents[p.paymentId := u]);
    if KindOf(p, cfg) == Some(SubscriptionKind)
    then t1.(subscriptions := t1.subscriptions[u := PaidRow(p, now)]) else t1
  }

  function PaymentAudit(p: Payment, u: UserId, now: Instant, cfg: Config, credits: int): AuditEvent {
    CloudPayment(u, p.paymentId, credits, if KindOf(p, cfg) == Some(SubscriptionKind) then PaidRow(p, now).expiresAt else None)
  }

  function PaymentSpec(t: Tables, p: Payment, u: UserId, now: Instant, cfg: Config)
    : (r: Result<(Tables, Verdict), WalletError>)
    ensures r.Ok? && r.value.1 != Credited ==> r.value.0 == t
  {
    if CreditsOf(p, cfg).None? then Ok((t, Skipped))
    else if p.paymentId in t.cpEvents then Ok((t, DuplicatePayment))
    else
      var credits := CreditsOf(p, cfg).value;
      var prepared := Prepared(t, p, u, now, cfg);
      match GrantResult(prepared, u, CpTxn(p.paymentId), credits)
      case Err(e) => Err(e)
      case Ok(_) =>
        var granted := GrantTables(prepared, u, CpTxn(p.paymentId), credits);
        Ok((granted.(audit := granted.audit + [PaymentAudit(p, u, now, cfg, credits)]), Credited))
  }

  /** The clock read for one payment, and whether the database fails before its commit. */
  datatype Condition = Condition(now: Instant, databaseFails: bool)

  datatype Failure = WalletRefused(error: WalletError) | DatabaseFailed

  datatype Batch = Batch(tables: Tables, credited: nat, skipped: nat, duplicates: nat, failure: Option<Failure>)

  function Counted(before: Batch, after: Tables, verdict: Verdict, databaseFails: bool): Batch {
    if verdict == Skipped then before.(skipped := before.skipped + 1)
    else if databaseFails then before.(failure := Some(DatabaseFailed))
    else if verdict == Credited then before.(tables := after, credited := before.credited + 1)
    else before.(duplicates := before.duplicates + 1)
  }

  /** Crediting a list: each payment commits alone; the first failure stops the list and propagates. */
  function BatchSpec(t: Tables, payments: seq<Payment>, u: UserId, cs: seq<Condition>, cfg: Config): Batch
    requires |cs| == |payments|
    decreases |payments|
  {
    if payments == [] then Batch(t, 0, 0, 0, None)
    else
      var n := |payments| - 1;
      var before := BatchSpec(t, payments[..n], u, cs[..n], cfg);
      BatchNext(before, payments[n], u, cs[n], cfg)
  }

  function BatchNext(before: Batch, p: Payment, u: UserId, c: Condition, cfg: Config): Batch {
    if before.failure.Some? then before
    else
      match PaymentSpec(before.tables, p, u, c.now, cfg)
      case Err(e) => before.(failure := Some(WalletRefused(e)))
      case Ok((after, verdict)) => Counted(before, after, verdict, c.databaseFails)
  }

  lemma BatchStep(t: Tables, payments: seq<Payment>, i: nat, u: UserId, cs: seq<Condition>, cfg: Config)
    requires i < |payments| == |cs|
    ensures BatchSpec(t, payments[..i + 1], u, cs[..i + 1], cfg)
            == BatchNext(BatchSpec(t, payments[..i], u, cs[..i], cfg), payments[i], u, cs[i], cfg)
  {
    assert payments[..i + 1][..i] == payments[..i] && cs[..i + 1][..i] == cs[..i];
  }

  datatype WebhookOutcome = AppliedWebhook | DuplicateWebhook | PaymentSkipped | NoCreditablePayment

  class CloudPaymentsWebhookService {
    const session: Session
    const wallet: WalletService
    const settings: Config

    constructor (wallet: WalletService, settings: Config)
      ensures this.wallet == wallet && this.session == wallet.session && this.settings == settings
    {
      this.wallet := wallet;
      this.session := wallet.session;
      this.settings := settings;
    }

    method ApplyPayment(p: Payment, u: UserId, c: Condition) returns (r: Result<Verdict, Failure>)
      requires wallet.session == session
      modifies session
      ensures match PaymentSpec(old(session.View()), p, u, c.now, settings)
              case Err(e) =>
                && session.View() == old(session.View())
                && r == Err(WalletRefused(e))
              case Ok((t, verdict)) =>
                if verdict != Skipped && c.databaseFails
                then r == Err(DatabaseFailed) && session.View() == old(session.View())
                else r == Ok(verdict) && session.View() == t
    {
      hide ClassifyProduct, OneTimeIds, OneTimeCredits, SubscriptionCredits, PeriodDays, Lower;
      var start := session.View();
      var kind: PurchaseKind;
      if p.paymentType == "one_time" {
        kind := OneTime;
      } else if p.paymentType == "subscription" {
        kind := SubscriptionKind;
      } else {
        return Ok(Skipped);
      }
      var oneTimeIds := OneTimeIds(settings);
      if kind == OneTime && p.productCode !in oneTimeIds && ClassifyProduct(p.productCode, oneTimeIds) == SubscriptionClass {
        kind := SubscriptionKind;
      }
      var credits: int;
      if kind == OneTime {
        var resolved := OneTimeCredits(settings, p.productCode);
        if resolved.None? || resolved.value <= 0 {
          return Ok(Skipped);
        }
        credits := resolved.value;
      } else {
        credits := SubscriptionCredits(settings, Some(p.productCode), CloudPaymentsChannel);
      }
      if p.paymentId in session.cpEvents {
        return if c.databaseFails then Err(DatabaseFailed) else Ok(DuplicatePayment);
      }
      session.cpEvents := session.cpEvents[p.paymentId := u];
      var expiresAt := None;
      if kind == SubscriptionKind {
        var end := c.now + PeriodDays(p.productCode) * MICROSECONDS_PER_DAY;
        expiresAt := Some(end);
        session.subscriptions := session.subscriptions[u := Subscription(Active, Some(p.productCode), Some(end), Some(true))];
      }
      var granted := wallet.Grant(u, CpTxn(p.paymentId), credits);
      if granted.Err? {
        session.Rollback(start);
        return Err(WalletRefused(granted.error));
      }
      session.Record(CloudPayment(u, p.paymentId, credits, expiresAt));
      if c.databaseFails {
        session.Rollback(start);
        return Err(DatabaseFailed);
      }
      r := Ok(Credited);
    }

    /** Stages 5 and 6. `forget` says that the user's reusable checkout links are dropped. */
    method Handle(data: seq<RawPayment>, u: UserId, paidStatuses: set<string>, now: Instant, freshnessHours: int,
                  clock: nat -> Condition)
      returns (r: Result<WebhookOutcome, Failure>, forget: bool)
      requires wallet.session == session
      modifies session
      ensures var payments := Selected(data, paidStatuses, now - freshnessHours * 3_600_000_000);
              var batch := BatchSpec(old(session.View()), payments, u, seq(|payments|, i requires 0 <= i < |payments| => clock(i)), settings);
              && session.View() == batch.tables
              && match batch.failure
                 case Some(f) => r == Err(f) && !forget
                 case None =>
                   && r == Ok(if payments == [] then NoCreditablePayment
                              else if batch.credited >= 1 then AppliedWebhook
                              else if batch.skipped >= 1 then PaymentSkipped else DuplicateWebhook)
                   && (forget <==> batch.credited >= 1)
    {
      hide PaymentSpec, Selected;
      forget := false;
      var creditable := SelectCreditablePayments(data, paidStatuses, now, freshnessHours);
      if creditable == [] {
        return Ok(NoCreditablePayment), false;
      }
      var credited, skipped := 0, 0;
      ghost var cs := seq(|creditable|, i requires 0 <= i < |creditable| => clock(i));
      for i := 0 to |creditable|
        invariant !forget
        invariant var batch := BatchSpec(old(session.View()), creditable[..i], u, cs[..i], settings);
                  && session.View() == batch.tables && batch.failure.None?
                  && credited == batch.credited && skipped == batch.skipped
      {
        BatchStep(old(session.View()), creditable, i, u, cs, settings);
        var condition := clock(i);
        assert cs[i] == condition;
        var applied := ApplyPayment(creditable[i], u, condition);
        if applied.Err? {
          FailureStops(old(session.View()), creditable, i + 1, u, cs, settings);
          return Err(applied.error), false;
        }
        if applied.value == Credited {
          credited := credited + 1;
        } else if applied.value == Skipped {
          skipped := skipped + 1;
        }
      }
      assert creditable[..|creditable|] == creditable && cs[..|creditable|] == cs;
      if credited >= 1 {
        r := Ok(AppliedWebhook);
        forget := true;
      } else if skipped >= 1 {
        r := Ok(PaymentSkipped);
      } else {
        r := Ok(DuplicateWebhook);
      }
    }
  }

  lemma {:induction false} FailureStops(t: Tables, payments: seq<Payment>, i: nat, u: UserId, cs: seq<Condition>, cfg: Config)
    requires i <= |payments| == |cs|
    requires BatchSpec(t, payments[..i], u, cs[..i], cfg).failure.Some?
    ensures BatchSpec(t, payments, u, cs, cfg) == BatchSpec(t, payments[..i], u, cs[..i], cfg)
    decreases |payments|
  {
    if i == |payments| {
      assert payments[..i] == payments && cs[..i] == cs;
    } else {
      var n := |payments| - 1;
      assert payments[..n][..i] == payments[..i] && cs[..n][..i] == cs[..i];
      FailureStops(t, payments[..n], i, u, cs[..n], cfg);
    }
  }
}
