/** What one CloudPayments payment does: which class its product falls into, what it credits, and the rows. */
module PaymentEffects {
  import opened Base
  import opened Database
  import opened Wallet
  import opened Pricing
  import opened CloudPayments

  // ----- Product names -----

  /** `word` stands at position `i` of the code, in any letter case. */
  predicate SpelledAt(code: string, i: nat, word: string) {
    i + |word| <= |code| && forall k :: 0 <= k < |word| ==> LowerChar(code[i + k]) == word[k]
  }

  predicate Names(code: string, word: string) {
    exists i: nat :: i <= |code| && SpelledAt(code, i, word)
  }

  lemma SpelledIsPrefix(code: string, i: nat, word: string)
    requires i <= |code|
    ensures SpelledAt(code, i, word) <==> word <= Lower(code)[i..]
  {
    var s := Lower(code)[i..];
    assert forall k :: 0 <= k < |s| ==> s[k] == LowerChar(code[i + k]);
    if word <= s {
      assert forall k :: 0 <= k < |word| ==> word[k] == s[k];
    }
  }

  lemma NamesIsContains(code: string, word: string)
    ensures Names(code, word) <==> Contains(Lower(code), word)
  {
    hide SpelledAt;
    forall i: nat | i <= |code| ensures SpelledAt(code, i, word) <==> word <= Lower(code)[i..] {
      SpelledIsPrefix(code, i, word);
    }
  }

  /** A subscription lasts as long as the first interval its code names — week, month, year, day — and 30 days
      if it names none. */
  lemma PeriodByName(code: string)
    ensures Names(code, "week") ==> PeriodDays(code) == 7
    ensures !Names(code, "week") && Names(code, "month") ==> PeriodDays(code) == 30
    ensures !Names(code, "week") && !Names(code, "month") && Names(code, "year") ==> PeriodDays(code) == 365
    ensures !Names(code, "week") && !Names(code, "month") && !Names(code, "year") && Names(code, "day") ==> PeriodDays(code) == 1
    ensures !Names(code, "week") && !Names(code, "month") && !Names(code, "year") && !Names(code, "day") ==> PeriodDays(code) == 30
  {
    hide Names, Contains, Lower;
    NamesIsContains(code, "week");
    NamesIsContains(code, "month");
    NamesIsContains(code, "year");
    NamesIsContains(code, "day");
  }

  /** `<digits>_tokens...`, in any letter case. */
  predicate TokenPackName(code: string) {
    exists n: nat :: 0 < n <= |code| && SpelledAt(code, n, "_tokens") && forall i :: 0 <= i < n ==> '0' <= code[i] <= '9'
  }

  lemma TokenPackIs(code: string)
    ensures TokensName(code) <==> TokenPackName(code)
  {
    forall n: nat | n <= |code| ensures SpelledAt(code, n, "_tokens") <==> StartsWith(Lower(code[n..]), "_tokens") {
      SpelledIsPrefix(code, n, "_tokens");
      assert Lower(code[n..]) == Lower(code)[n..];
    }
    hide SpelledAt, StartsWith;
  }

  /** The code ends with the suffix, in any letter case. */
  predicate EndsIn(code: string, suffix: string) {
    |suffix| <= |code| && SpelledAt(code, |code| - |suffix|, suffix)
  }

  lemma EndsInIs(code: string, suffix: string)
    ensures EndsIn(code, suffix) <==> EndsWith(Lower(code), suffix)
  {
    if |suffix| <= |code| {
      SpelledIsPrefix(code, |code| - |suffix|, suffix);
      assert |Lower(code)[|code| - |suffix|..]| == |suffix|;
    }
  }

  /** A product is a token pack if it is sold as one-time or named like one; else a subscription if its name
      carries an interval or a trial suffix; else unknown. */
  lemma ClassByName(code: string, ids: set<string>)
    ensures ClassifyProduct(code, ids) == TokensClass <==> code in ids || TokenPackName(code)
    ensures ClassifyProduct(code, ids) == SubscriptionClass <==>
            && code !in ids && !TokenPackName(code)
            && (|| Names(code, "week") || Names(code, "month") || Names(code, "year") || Names(code, "day")
                || EndsIn(code, "_trial") || EndsIn(code, "_nottrial"))
  {
    TokenPackIs(code);
    EndsInIs(code, "_trial");
    EndsInIs(code, "_nottrial");
    NamesIsContains(code, "week");
    NamesIsContains(code, "month");
    NamesIsContains(code, "year");
    NamesIsContains(code, "day");
    hide Names, Contains, Lower, TokensName, TokenPackName, EndsWith, EndsIn;
    assert INTERVAL_KEYWORDS[0] == "week" && INTERVAL_KEYWORDS[1] == "month" && INTERVAL_KEYWORDS[2] == "year" && INTERVAL_KEYWORDS[3] == "day";
  }

  // ----- The tables -----

  /** A new one-time payment of a product sold as one-time credits the product's number and touches no
      subscription. */
  lemma OneTimeEffect(t: Tables, p: Payment, u: UserId, now: Instant, cfg: Config, n: int)
    requires p.paymentType == "one_time" && p.productCode in OneTimeIds(cfg) && OneTimeCredits(cfg, p.productCode) == Some(n) && n > 0
    requires p.paymentId !in t.cpEvents && (u, CpTxn(p.paymentId)) !in t.ledger
    ensures PaymentSpec(t, p, u, now, cfg).Ok? && PaymentSpec(t, p, u, now, cfg).value.1 == Credited
    ensures var t' := PaymentSpec(t, p, u, now, cfg).value.0;
            && t'.cpEvents == t.cpEvents[p.paymentId := u]
            && t'.ledger == t.ledger[(u, CpTxn(p.paymentId)) := Tx(Credit, n)]
            && t'.balances == t.balances[u := t.Balance(u) + n]
            && t'.subscriptions == t.subscriptions && t'.adaptyEvents == t.adaptyEvents
            && t'.audit == t.audit + [BillingCredit(u, n, t.Balance(u) + n), CloudPayment(u, p.paymentId, n, None)]
  {
    hide OneTimeCredits, OneTimeIds, ClassifyProduct;
  }

  /** A new payment of a subscription — reported as one, or reported as one-time for a product that is named
      like one and not sold as one-time — credits the channel's number and activates the plan from the moment
      of the payment for the days its code names. */
  lemma SubscriptionEffect(t: Tables, p: Payment, u: UserId, now: Instant, cfg: Config)
    requires p.paymentType == "subscription"
             || (p.paymentType == "one_time" && ClassifyProduct(p.productCode, OneTimeIds(cfg)) == SubscriptionClass)
    requires SubscriptionCredits(cfg, Some(p.productCode), CloudPaymentsChannel) > 0
    requires p.paymentId !in t.cpEvents && (u, CpTxn(p.paymentId)) !in t.ledger
    ensures PaymentSpec(t, p, u, now, cfg).Ok? && PaymentSpec(t, p, u, now, cfg).value.1 == Credited
    ensures var t' := PaymentSpec(t, p, u, now, cfg).value.0;
            var n := SubscriptionCredits(cfg, Some(p.productCode), CloudPaymentsChannel);
            var end := now + PeriodDays(p.productCode) * 24 * 60 * 60 * 1_000_000;
            && t'.cpEvents == t.cpEvents[p.paymentId := u]
            && t'.ledger == t.ledger[(u, CpTxn(p.paymentId)) := Tx(Credit, n)]
            && t'.balances == t.balances[u := t.Balance(u) + n]
            && t'.subscriptions == t.subscriptions[u := Subscription(Active, Some(p.productCode), Some(end), Some(true))]
            && t'.adaptyEvents == t.adaptyEvents
            && t'.audit == t.audit + [BillingCredit(u, n, t.Balance(u) + n), CloudPayment(u, p.paymentId, n, Some(end))]
  {
    hide OneTimeCredits, OneTimeIds, SubscriptionCredits, PeriodDays, TokensName, LooksLikeSubscription;
  }

  /** Nothing is written for a type the provider never documented, for a product without a number, and for a
      payment that has been journaled. */
  lemma NoEffect(t: Tables, p: Payment, u: UserId, now: Instant, cfg: Config)
    requires || (p.paymentType != "one_time" && p.paymentType != "subscription")
             || p.paymentId in t.cpEvents
             || (p.paymentType == "one_time" && p.productCode !in cfg.overlay && p.productCode !in cfg.tokenProducts
                 && ClassifyProduct(p.productCode, OneTimeIds(cfg)) != SubscriptionClass)
    ensures PaymentSpec(t, p, u, now, cfg).Ok? && PaymentSpec(t, p, u, now, cfg).value.0 == t
    ensures PaymentSpec(t, p, u, now, cfg).value.1 ==
            if CreditsOf(p, cfg).None? then Skipped else DuplicatePayment
  {
    hide SubscriptionCredits, ClassifyProduct;
  }
}
