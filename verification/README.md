# Verified model of the chat backend's stateful cores

A Dafny model of the parts of this backend whose correctness depends on runs rather than on single
calls: payment crediting through two webhooks and the operator's grants, sign-in and refresh-token
rotation, the sliding-window limiter, the operator's editors for products, provider keys and paired
settings, the rendering of a chat history for a provider, the payment page's text and path rules, the
reuse of checkout links under a timed lock, one paged data migration, and the model catalogue.

Database tables are maps and sequences; a request is one transaction that commits or is rolled back
whole. Code that updates rows, sets, lists or counters step by step is a class or a method with loops,
tied by its postcondition to a function of the old state; the main results are lemmas about those
functions, over every run, delivery order or interleaving. Where a promise of the code's comments turns
out not to hold, the exact condition is a lemma:

- an access-only subscription (0 credits, which the table's CHECK allows) can never be applied by either
  webhook, and in a CloudPayments list it holds up every payment behind it;
- an Adapty event without a transaction id can credit a period twice;
- a credited CloudPayments subscription can move a later end date back: its upsert has no staleness check;
- a one-time payment can be credited for a product the checkout refuses, but no run of the product editor
  under one environment gets there: the token map must gain the id of a subscription the operator created;
- sign-ins can give one user two Apple identities exactly if two of them carry different new subjects and
  either come from two devices of one account without an Apple identity, or from one unregistered device that
  another call registers meanwhile: its row is then read again without being held. On a registered device the
  refresh of `last_seen_at` makes them take turns;
- host replacement leaves a token behind for three kinds of host pairs;
- a blank StoreKit bundle id is refused only if the Production mode comes from the operator's row;
- a checkout link asked for before an invalidation can be handed out after it exactly if a caller was at
  the provider at that moment;
- a tool result stored behind another assistant turn leaves its call unanswered once the user speaks again.

| module | about |
|---|---|
| `Base`, `Text` | shared datatypes, ASCII strings, split and join |
| `Database`, `Wallet`, `SingleGrant`, `Pricing` | tables, ledger, one grant per period, amounts |
| `Adapty`, `AdaptyEffects`, `AdaptyDelivery`, `PeriodRace` | the Adapty webhook, what each event type does, its runs, and channels racing for one period |
| `CloudPayments`, `PaymentEffects`, `CloudPaymentsDelivery`, `CloudPaymentsOutcome` | the CloudPayments webhook, what one payment does, its runs, and what a run ends in |
| `Checkout`, `CheckoutReach` | the checkout gate against the webhook, on any configuration and on those the editor reaches |
| `Crm`, `MixedRun` | the operator's subscription grant; all channels and the wallet in one run |
| `Auth`, `IdentityRace`, `IdentitySolo`, `IdentityOverlap`, `IdentityReach` | whole calls on identities and tokens; the same calls statement by statement; one call's statements alone; which runs, and which sets of calls, share a user |
| `RateLimit` | the sorted-set limiter against the full request history |
| `OverlayProducts`, `ProviderKeys`, `SettingPairs` | the operator's editors |
| `Providers`, `ModelCatalog` | enabled providers, allowlists, routing, public rows |
| `Blocks`, `History`, `SupersededCalls`, `CallPairing` | content blocks, wire messages, closing of superseded calls, end-to-end pairing |
| `HostTokens`, `PayPath`, `LinkCache` | payment-page text, paths and cookies; link reuse |
| `KeysetMigration` | the paged update |

## Model

| member | source | states |
|---|---|---|
| Database.KeyTextInjective | src/app/billing_adapty/service.py:528-568 | the channels' idempotency keys never collide as texts, so a key is a channel and an external id |
| Database.UnprefixedCollidesIff | src/app/admin/service.py:83-99 | a key text that a caller chooses freely is some channel's key text exactly if it starts with a channel's prefix |
| Wallet.WalletService.Grant | src/app/wallet/service.py:194-256 | a positive amount is credited once per (user, key); the same amount replays, another amount or a debit under the key conflicts |
| Wallet.WalletService.Consume | src/app/wallet/service.py:114-192 | a debit is taken once per (user, key) and only from a sufficient balance; a refusal leaves nothing behind |
| Wallet.WalletService.EnsureWallet | src/app/wallet/service.py:53-61 | a missing wallet is created with balance 0, an existing one is left alone |
| Wallet.WalletService.HasIdempotencyKey | src/app/wallet/service.py:103-112 | a key is taken exactly if the user has a ledger row under it |
| Wallet.RunConserves | migrations/versions/20260521_0001_initial_schema.py:100-140 | over every run balances equal credits minus debits and stay non-negative; ledger rows are never changed, and new ones are positive |
| Wallet.ReplayIsFree | src/app/wallet/service.py:215-234 | repeating an accepted grant moves no balance and no ledger row |
| Wallet.GrantMeaning | src/app/wallet/service.py:194-256 | when a grant is refused and why, and what a fresh one adds: its ledger row, its amount to the balance and one record; no other call moves anything |
| Wallet.ConsumeMeaning | src/app/wallet/service.py:114-192 | when a debit is refused and why, and what a fresh one takes; the last credit can be spent, and a refusal leaves nothing |
| Pricing.OneTimeAmount | src/app/instance_config/products.py:211-320 | a token pack is worth the operator's number if the operator made it one, else the token map's |
| Pricing.SubscriptionAmount | src/app/instance_config/products.py:280-327 | the operator's number on every channel, 0 included; else each channel's own map and its own fallback |
| SingleGrant.GrantOnce | src/app/billing_common/single_grant.py:24-58 | the look-ups, the grant and the re-check give the specified result and tables |
| SingleGrant.GrantOnceMeaning | src/app/billing_common/single_grant.py:24-58 | it credits exactly when every key is free and the amount is positive, fails exactly when every key is free and it is not, and otherwise moves nothing |
| Adapty.AdaptyWebhookService.Handle | src/app/billing_adapty/service.py:160-248 | the event type selects purchase or subscription handling, and an error rolls the whole transaction back |
| Adapty.AdaptyWebhookService.Apply | src/app/billing_adapty/service.py:385-449 | journal, staleness, row, credit and audit of one subscription event |
| Adapty.AdaptyWebhookService.InsertEvent | src/app/billing_adapty/service.py:280-301 | an event id is journaled once |
| Adapty.AdaptyWebhookService.UpsertSubscription | src/app/billing_adapty/service.py:474-526 | the row a granting, expiring or neutral event leaves |
| Adapty.AdaptyWebhookService.ApplyPurchase | src/app/billing_adapty/service.py:303-383 | journal, credit and audit of a token pack |
| AdaptyEffects.GrantingEffect | src/app/billing_adapty/service.py:385-568 | starting, renewing and premium-activating events with a transaction: one credit under `sub-grant:` unless a key of the period is taken, the event's row unless an active one ends later, one audit row |
| AdaptyEffects.GrantingWithoutTxn | src/app/billing_adapty/service.py:528-556 | the same events without a transaction: the original transaction or the event names the period, under `adapty-txn:` alone |
| AdaptyEffects.ExpiringEffect | src/app/billing_adapty/service.py:474-526 | expiring and cancelling events set only status and renewal flag, and move no ledger row |
| AdaptyEffects.RenewalFlagEffect | src/app/billing_adapty/service.py:451-472 | events that cancel the renewal change at most the flag of an existing row, and move no ledger row |
| AdaptyEffects.PurchaseEffect | src/app/billing_adapty/service.py:303-383 | a token pack credits its product's number once under `token-purchase:` and leaves the subscription |
| AdaptyEffects.NothingToDo | src/app/billing_adapty/service.py:160-248 | known ids, unknown types and incomplete packs leave the tables as they are |
| AdaptyDelivery.RunOutcome | src/app/billing_adapty/service.py:385-568 | the outcome of any run of coherent granting events, stated without their order: journal, one credit per period, latest expiry per user |
| AdaptyDelivery.Confluence | src/app/billing_adapty/service.py:385-568 | any two runs in which the same deliveries landed, in any order and with repetitions and rolled-back attempts, end in the same journal, ledger, balances and rows |
| AdaptyDelivery.RunConsistent | src/app/billing_adapty/service.py:528-568 | every run of any events keeps every balance equal to its ledger total |
| AdaptyDelivery.DeliveredAuditPaired | src/app/billing_adapty/service.py:385-449 | an event is journaled if and only if exactly one audit row names it |
| AdaptyDelivery.HandleFailsIff | src/app/billing_adapty/service.py:528-568 | a delivery raises exactly when it is new, its keys are free and its amount is not positive |
| AdaptyDelivery.ZeroCreditSubscriptionNeverApplies | src/app/billing_adapty/service.py:528-568 | an overlay subscription of 0 credits is never applied, however often it is delivered |
| AdaptyDelivery.DoubleCreditIff | src/app/billing_adapty/service.py:528-556 | a period is credited a second time exactly when an event without transaction id falls back to its id |
| AdaptyDelivery.DoubleCreditExample | src/app/billing_adapty/service.py:528-556 | two events of one subscription, the second naming the period only as its original transaction, credit it twice |
| AdaptyDelivery.ExpiryRegressesIff | src/app/billing_common/single_grant.py:65-73 | an end date moves back exactly for a new granting event that is undated, or earlier than a row that is not active |
| AdaptyDelivery.DeliveredTouches | src/app/billing_adapty/service.py:280-301 | the webhook writes no other channel's journal or keys |
| PeriodRace.OnePeriodOneCredit | src/app/billing_common/single_grant.py:24-58 | over every interleaving of statements and roll-backs one period is credited at most once, none is lost, and no caller with a positive amount fails, whatever the amounts |
| PeriodRace.LedgerGainsOnlyReportedCredits | src/app/billing_common/single_grant.py:43-58 | every new row belongs to one caller that reported it, with its amount, under the shared key |
| PeriodRace.AloneIsGrantOnce | src/app/billing_common/single_grant.py:24-58 | a caller with nobody beside it credits, has been credited or fails exactly as `grant_once` does, with the same ledger |
| CloudPayments.SelectCreditablePayments | src/app/billing_cloudpayments/verify.py:145-193 | the result holds exactly the payments that items report as paid, no older than the window in hours, and complete |
| CloudPayments.SelectedMeaning | src/app/billing_cloudpayments/verify.py:145-193 | the selection is the items that report a payment which is paid, fresh and complete, once each and in the provider's order |
| CloudPayments.KeptIffPaid | src/app/billing_cloudpayments/verify.py:145-193 | a payment is kept exactly if some item reports it, field by field, as paid, no older than the window, and with an id, a code and a type |
| CloudPayments.LongerWindowKeeps | src/app/billing_cloudpayments/verify.py:163-171 | a longer window never loses a payment |
| CloudPayments.ListPaymentsBoth | src/app/billing_cloudpayments/service.py:256-288 | the merge of both lists is the list without repeated ids |
| CloudPayments.UniqueMeaning | src/app/billing_cloudpayments/service.py:256-288 | no id is kept twice, none is lost, items without an id all stay |
| CloudPayments.UniqueInOrder | src/app/billing_cloudpayments/service.py:256-288 | the provider's order is kept, and of items with one id the first |
| CloudPayments.CloudPaymentsWebhookService.ApplyPayment | src/app/billing_cloudpayments/service.py:330-505 | class, amount, journal, row, credit and audit of one payment, or a full roll-back |
| CloudPayments.CloudPaymentsWebhookService.Handle | src/app/billing_cloudpayments/service.py:205-254 | counters, outcome and link invalidation of one call; a failure ends the list with earlier payments committed |
| CloudPayments.FailureStops | src/app/billing_cloudpayments/service.py:226-233 | payments behind a failure are not touched |
| PaymentEffects.PeriodByName | src/app/billing_cloudpayments/parser.py:254-277 | days bought: the first of week, month, year and day that the code names, in any letter case, else 30 |
| PaymentEffects.ClassByName | src/app/billing_cloudpayments/parser.py:230-251 | token pack, subscription or unknown, by what is sold as one-time and by the product's name |
| PaymentEffects.OneTimeEffect | src/app/billing_cloudpayments/service.py:409-492 | a new one-time payment of a token pack: journal, its number, audit, and no subscription |
| PaymentEffects.SubscriptionEffect | src/app/billing_cloudpayments/service.py:346-492 | a new subscription payment, also one reported as one-time: journal, the channel's number, the plan active for its days from now, audit |
| PaymentEffects.NoEffect | src/app/billing_cloudpayments/service.py:346-440 | undocumented types, products without a number and journaled payments write nothing |
| CloudPaymentsDelivery.CreditedMeaning | src/app/billing_cloudpayments/service.py:409-492 | a fresh journal row never meets a taken ledger key; crediting adds exactly that payment |
| CloudPaymentsDelivery.RunKeepsPaired | src/app/billing_cloudpayments/service.py:409-492 | in every reachable state, also after failures in mid-list, a payment is journaled for a user if and only if that user's ledger holds its credit |
| CloudPaymentsDelivery.AdaptyKeepsPaired | src/app/billing_adapty/service.py:528-568 | Adapty events do not disturb that pairing |
| CloudPaymentsOutcome.RunOutcome | src/app/billing_cloudpayments/service.py:226-254 | the outcome of any run of calls, stated from the calls alone: the journal gains exactly the payments that landed (worth something, before the first database failure of their call), the ledger one credit for each |
| CloudPaymentsOutcome.Confluence | src/app/billing_cloudpayments/service.py:409-492 | two runs in which the same payments landed, whatever the lists, order, repetitions and failures, end with the same journal, ledger and balances |
| CloudPaymentsOutcome.RedeliveryCompletes | src/app/billing_cloudpayments/service.py:226-254 | re-delivering a list until one call meets no failure leaves the whole list credited, once each, whatever failed before |
| CloudPaymentsOutcome.RunConsistent | src/app/billing_cloudpayments/service.py:448-460 | every run of calls keeps every balance equal to its ledger total |
| CloudPaymentsDelivery.BatchCounts | src/app/billing_cloudpayments/service.py:226-233 | the counters account for the journal and, without a failure, for the whole list |
| CloudPaymentsDelivery.BatchCompletes | src/app/billing_cloudpayments/service.py:226-254 | a call without failure has journaled every payment of its list that is worth anything |
| CloudPaymentsDelivery.PaymentRefusedIff | src/app/billing_cloudpayments/service.py:398-470 | a payment is refused by the wallet exactly when it is new and its subscription is worth nothing |
| CloudPaymentsDelivery.PaidExpiryRegressesIff | src/app/billing_cloudpayments/service.py:526-547 | a payment moves a stored end date back exactly when it is credited as a subscription and that date lies after now plus the paid period |
| CloudPaymentsDelivery.WorthlessPaymentBlocksTheRest | src/app/billing_cloudpayments/service.py:226-233 | such a payment keeps those behind it unjournaled over any number of re-deliveries |
| Checkout.AcceptedIsNeverSkipped | src/app/billing_cloudpayments/checkout.py:110-129 | a product accepted at checkout is never skipped by the webhook, whichever known type the provider reports |
| Checkout.OneTimeCreditedIff | src/app/billing_cloudpayments/service.py:346-403 | a one-time payment is credited exactly for accepted products and for the family whose class and amount come from different sources |
| Checkout.RefusedButCredited | src/app/billing_cloudpayments/checkout.py:110-129 | a product of that family, an operator's subscription that the token map prices: refused at checkout, credited by the webhook |
| CheckoutReach.EditorKeepsTokens | src/app/admin/economics_service.py:450-814 | no run of the product editor gives a product of the token map the subscription class |
| CheckoutReach.ReachableOneTimeCreditedIff | src/app/billing_cloudpayments/checkout.py:110-129 | after every run of the editor under one environment a one-time payment is credited exactly if its product is accepted at checkout |
| CheckoutReach.TokenMapGainsOperatorProduct | src/app/admin/economics_service.py:450-535 | the disagreement reached: the operator creates a subscription, and a later environment names its id in the token map |
| CheckoutReach.AcceptedIsCreditedIff | src/app/billing_cloudpayments/service.py:346-470 | a new payment of an accepted product is credited exactly if it is worth something and raises otherwise; only a subscription can be worth nothing |
| Crm.CrmService.GrantSubscription | src/app/admin/crm_service.py:952-1057 | look-up by grant id, extension, credit and audit, or a roll-back |
| Crm.OneGrant | src/app/admin/crm_service.py:970-1044 | a known product is never refused; a repeated id changes nothing; a new one extends once, credits once and touches no other user |
| Crm.GrantableIff | src/app/admin/crm_service.py:962-968 | a product may be granted exactly if the operator's row or one of the four sources has it |
| Crm.NewGrantWrites | src/app/admin/crm_service.py:993-1044 | a new grant runs from the end of an active row still to come, else from now, for exactly its days, and writes plan, credits and trail |
| Crm.RunExtends | src/app/admin/crm_service.py:993-1008 | over any run the balance gains one amount per distinct id, and the expiry ends no earlier than the first grant, or the expiry it started from, plus the days of all distinct ids |
| Crm.RunExtendsAtMost | src/app/admin/crm_service.py:993-1008 | and no later than the last arrival, or the end it started from if later, plus the days of all distinct ids |
| Crm.FirstOnesAreDistinct | src/app/admin/crm_service.py:970-991 | the grants that count are exactly one per id not granted before |
| Crm.RunGrants | src/app/admin/crm_service.py:970-991 | after any run exactly the old and the arrived ids are in the trail, and each ledger key has its audit row |
| Crm.WebhooksKeepPaired | src/app/admin/crm_service.py:970-991 | the payment channels do not disturb the pairing of grant ids and ledger keys |
| MixedRun.RunKeepsSound | src/app/wallet/service.py:194-256 | over every mixture of store events, card payment lists, operator grants and wallet calls, with failures and repetitions: balances equal ledger totals, a card payment is journaled iff credited, a granted key has its audit row, a store event is journaled iff exactly one audit row names it |
| Auth.AuthService.FindOrCreateIdentity | src/app/auth/service.py:68-107 | a known device keeps its user, a new one gets the new user |
| Auth.AuthService.ResolveAppleUser | src/app/auth/service.py:190-252 | linked subject, anonymous user of the device, or a new user, in that order |
| Auth.AuthService.UpsertDevice | src/app/auth/service.py:254-268 | the next look-up of the device finds the signed-in user, and every other device finds whom it found before |
| Auth.AuthService.IssuePair | src/app/auth/service.py:109-137 | the new token is accepted until its expiry and not after, every old token is untouched, and the pair has exactly one more live token, every other pair as many as before |
| Auth.AuthService.RegisterOrToken | src/app/auth/service.py:139-151 | the identity of the device, and a pair for it |
| Auth.AuthService.SignInWithApple | src/app/auth/service.py:153-188 | the user of the subject, its device and a pair |
| Auth.AuthService.RevokeChain | src/app/auth/service.py:315-322 | no token of the pair is live; user, device, used flag and expiry of every token, and every other pair's tokens, are unchanged |
| Auth.AuthService.Refresh | src/app/auth/service.py:270-313 | unknown, reused, revoked, expired or rotated; reuse revokes the chain of the pair |
| Auth.SignInResolves | src/app/auth/service.py:190-252 | a linked subject is its user's; a new one becomes the device's user if no identity points to that user, the spare user if one does, and the new user on a new device; nothing else is added |
| Auth.SignInWrites | src/app/auth/service.py:153-188 | the device is left with that user, and one token of that user and device is added |
| Auth.RegistrationWrites | src/app/auth/service.py:68-151 | a known device keeps its user, a new one gets the new user, and one token is added |
| Auth.RefreshWrites | src/app/auth/service.py:270-322 | which refusal a token meets, and what an exchange and a detected reuse write |
| Auth.RunKeepsOneAppleEach | src/app/auth/service.py:190-252 | with whole calls no user holds two Apple identities and a linked subject keeps its user |
| Auth.LiveTokensAreSignIns | src/app/auth/service.py:109-137 | the unused, unrevoked tokens of a user and device are as many as its sign-ins since its last detected reuse |
| Auth.AtMostOneSuccessor | src/app/auth/service.py:270-313 | a token is rotated at most once in a run |
| Auth.ReuseKillsTheChain | src/app/auth/service.py:315-322 | after a detected reuse no token that then existed for the pair ever succeeds |
| IdentityRace.IdentitiesAreWriteOnce | src/app/auth/service.py:190-252 | over every interleaving of statements the subject-to-user map is write-once |
| IdentityRace.SignInsConverge | src/app/auth/service.py:190-268 | all returned sign-ins of one subject return its one committed user |
| IdentityRace.RunKeepsInv | src/app/auth/service.py:190-268 | at every statement of every interleaving each call's stage agrees with the rows it can see |
| IdentityRace.RegistrationsConverge | src/app/auth/service.py:68-107 | with registrations only, all returned callers of one device return one user |
| IdentitySolo.SignInAlone | src/app/auth/service.py:190-268 | a sign-in whose statements no other call comes between ends as the whole call: same users, devices, identities and result |
| IdentitySolo.RegistrationAlone | src/app/auth/service.py:68-107 | and so does a registration |
| IdentityRace.SharedOnlyByCommit | src/app/auth/service.py:205-252 | in a reachable state the commit of a link to a user another subject already has is the only statement after which a user has two subjects |
| IdentityOverlap.SecondSubjectIff | src/app/auth/service.py:215-252 | over every interleaving: a user has two Apple identities exactly if two sign-ins of different subjects were past the check for that user when the first committed its link, and the second committed its own |
| IdentityOverlap.NoOverlapKeepsOne | src/app/auth/service.py:215-252 | if no two open sign-ins of different subjects are ever past the check for the same user, every user keeps one Apple identity |
| IdentityReach.CanShareIff | src/app/auth/service.py:68-252 | said of the calls and tables before the first statement: some interleaving gives a user two subjects exactly if two sign-ins carry different unlinked subjects and their devices share an account without an Apple identity, or are one unregistered device that another call registers |
| IdentityReach.RegisteredDevicesKeepOne | src/app/auth/service.py:79-84 | sign-ins on registered devices, no two of which share an account without an Apple identity, keep one subject per user over every interleaving and roll-back, whatever registrations run beside them |
| IdentityReach.ConcurrentSignInsShareAUser | src/app/auth/service.py:86-107 | two new subjects and a registration on one unregistered device: some interleaving links both to its user |
| RateLimit.Limiter.Allow | src/app/api_gateway/rate_limit.py:33-44 | the pruned, expiring set decides as the full history does: this attempt and all attempts in the window number at most the limit |
| RateLimit.Limiter.EnforceChatLimits | src/app/api_gateway/rate_limit.py:47-66 | user, device and address buckets in order, ending at the first refusal |
| RateLimit.LiveIsRecent | src/app/api_gateway/rate_limit.py:33-44 | what the stored set holds in the window is the window of the full history |
| RateLimit.EnforcedWithin | src/app/api_gateway/rate_limit.py:47-66 | an admitted call was within the limit of each of its buckets |
| RateLimit.WindowBound | src/app/api_gateway/rate_limit.py:33-66 | any interval of one window holds at most `limit` admitted requests on a key that every request limits to `limit` |
| RateLimit.ChatBound | src/app/api_gateway/rate_limit.py:47-66 | counted by the calls' own fields: any interval of one window holds at most the user's, device's and address's limit of admitted calls of that user, device and address |
| RateLimit.QuietCallIsAdmitted | src/app/api_gateway/rate_limit.py:47-66 | a call within the limits of its user, of its named device and of its named address is admitted; an absent or empty one refuses nothing |
| RateLimit.UserLimitIsExact | src/app/api_gateway/rate_limit.py:33-66 | refused attempts count too: beyond the user's limit a call is refused, and without device and address only then |
| RateLimit.KeysDiffer | src/app/api_gateway/rate_limit.py:52-58 | keys of different users, devices or addresses never coincide, not across the kinds either |
| OverlayProducts.AdminProducts.CreateProduct | src/app/admin/economics_service.py:450-535 | the branches of a creation, its row and its audit |
| OverlayProducts.AdminProducts.PatchProduct | src/app/admin/economics_service.py:592-814 | the branches of an edit in their order, the columns it writes and its audit |
| OverlayProducts.AdminProducts.DeleteProduct | src/app/admin/economics_service.py:537-590 | only the operator's own products are deleted |
| OverlayProducts.RunKeepsInv | migrations/versions/20260908_0033_admin_economics.py:79-96 | every reachable row satisfies the CHECKs, and the audit trail replays to the stored number and flag of every row |
| OverlayProducts.WriteIffAudit | src/app/admin/economics_service.py:685-762 | rows (stamps included) are left as they were exactly when the trail is; the trail is never rewritten and no other row is touched |
| OverlayProducts.PatchAudit | src/app/admin/economics_service.py:676-795 | one event per changed fact, with the value shown before and the value stored, and none otherwise |
| OverlayProducts.ArchivedEditIsFree | src/app/admin/economics_service.py:634-672 | hiding a product is refused only for an unknown product or a stale version, and changes no amount on any channel |
| OverlayProducts.AcceptedNumberIsCredited | src/app/instance_config/products.py:211-320 | an accepted number is the number credited, on the path its class selects and on every channel, and no other product moves |
| OverlayProducts.EditIsVisible | src/app/admin/economics_service.py:617-715 | the next read shows what was accepted and keeps what was not sent |
| OverlayProducts.CreateThenDelete | src/app/admin/economics_service.py:537-590 | deleting a product just created restores the rows |
| OverlayProducts.CreateRefusedIff | src/app/admin/economics_service.py:450-505 | what a creation is refused for, and nothing else |
| OverlayProducts.CreatedNumberIsCredited | src/app/instance_config/products.py:211-320 | a created product is listed as sent, and its number is credited on the path of its class on every channel; no other product moves |
| OverlayProducts.PatchRefusedIff | src/app/admin/economics_service.py:592-672 | what an edit is refused for, and nothing else |
| OverlayProducts.PatchKeepsName | src/app/admin/economics_service.py:685-762 | no edit changes the name, and every edit that writes stamps the row |
| OverlayProducts.FirstSourceWins | src/app/instance_config/products.py:90-140 | token map, Adapty map, CloudPayments map, static catalogue, in that order |
| ProviderKeys.InstanceConfig.PatchSetting | src/app/admin/economics_service.py:1307-1353 | the checks of the provider and StoreKit rows, on the settings the edit would put in force |
| ProviderKeys.InstanceConfig.PatchCredential | src/app/admin/economics_service.py:1410-1473 | the checks of a primary key, set or cleared back to the environment |
| ProviderKeys.RefusedIffUnsafe | src/app/admin/economics_service.py:1307-1353 | from a safe instance an edit is refused for a missing key exactly when its result would be unsafe |
| ProviderKeys.RunKeepsSafe | src/app/admin/economics_service.py:1434-1473 | every run of edits keeps a key at the active provider and, with two providers on, at the second |
| ProviderKeys.SwitchSwaps | src/app/instance_config/effective.py:82-91 | switching provider with two on swaps them and drops neither |
| ProviderKeys.SafeServes | src/app/config.py:1488-1506 | on a safe instance every serving provider has a key, and the second serves exactly when switched on |
| ProviderKeys.RunKeepsBundle | src/app/admin/economics_service.py:1325-1353 | a Production row always comes with a bundle id |
| ProviderKeys.BlankBundleRefusedIff | src/app/admin/economics_service.py:1344-1353 | a blank bundle is refused exactly under a Production row, not under a Production environment |
| ProviderKeys.ProductionWithoutBundle | src/app/instance_config/settings_registry.py:200-222 | an instance in Production by environment that loses its bundle |
| ProviderKeys.RowsInForce | src/app/instance_config/effective.py:63-110 | what each row puts in force, and that the rest stays the server's |
| ProviderKeys.EditWritesOneRow | src/app/admin/economics_service.py:1085-1211 | a written edit sets its own row and no other |
| ProviderKeys.ValueRefusedIff | src/app/instance_config/settings_registry.py:518-543 | which values are refused by themselves |
| ProviderKeys.ModeRefusedIff | src/app/admin/economics_service.py:1325-1353 | Production needs a bundle id and Apple's roots, Sandbox nothing |
| ProviderKeys.MasterKeyNeededIff | src/app/admin/economics_service.py:1475-1498 | a key is stored only under a master key; taking one back needs none |
| SettingPairs.ValidateList | src/app/instance_config/settings_registry.py:518-543 | declared options only, repeats dropped, not empty |
| SettingPairs.ListRefusedIff | src/app/instance_config/settings_registry.py:518-543 | an undeclared option or an empty list is refused, nothing else |
| SettingPairs.DedupInOrder | src/app/instance_config/settings_registry.py:523-543 | dropping repeats keeps first occurrences in their order |
| SettingPairs.PairedSettings.PatchModels | src/app/admin/economics_service.py:991-1029 | the default model and the offered models, edited under their mutual check |
| SettingPairs.RunKeepsModels | src/app/admin/economics_service.py:991-1029 | from any agreeing rows every run of edits keeps the default model among the offered ones |
| SettingPairs.InstanceKeepsModels | src/app/instance_config/models.py:27-43 | on every instance, whatever its allowlists, the pair agrees after every run from the first edit on: the default without a row is in the union |
| SettingPairs.ModelConflictIff | src/app/admin/economics_service.py:991-1029 | an admissible edit is refused exactly when it would break the pair |
| SettingPairs.DefaultAcceptedIff | src/app/admin/economics_service.py:991-1060 | which default model and which default mode are accepted |
| SettingPairs.StaleDefaultIsIgnored | src/app/instance_config/models.py:27-43 | a stored default that is no longer served is not applied |
| SettingPairs.PairedSettings.PatchModes | src/app/admin/economics_service.py:1031-1060 | the default mode and the advertised modes, the list normalised or the mode refused |
| SettingPairs.RunKeepsModes | src/app/instance_config/values.py:87-114 | every run keeps the stored default mode in the stored list, so the read barrier adds nothing |
| SettingPairs.ReadInOrder | src/app/instance_config/values.py:87-114 | modes are read in the order of the declared list |
| SettingPairs.NormalizedMeaning | src/app/admin/economics_service.py:221-247 | normalising adds the default and loses no choice |
| Providers.CreditsProviders | src/app/config.py:1488-1506 | the active provider, then the second one if named and keyed |
| Providers.SwitchNames | src/app/instance_config/effective.py:53-60 | the list the switch writes names exactly the provider it means |
| Providers.NamesAreSpelled | src/app/instance_config/effective.py:50-66 | which texts name a provider, and which lists do |
| ModelCatalog.AllowedModelsFor | src/app/config.py:1597-1647 | default first, then built-in ids, then extra ids, names from the operator's list |
| ModelCatalog.OfferedNames | src/app/config.py:1597-1647 | a model is offered exactly if it is the default, built in or on the operator's list, under the operator's name, else the built-in one, else its id |
| ModelCatalog.LastNameWins | src/app/config.py:1620-1634 | of several names for one id the last one counts |
| ModelCatalog.OfferedOrder | src/app/config.py:1636-1647 | default, then built-in models in their order, then the operator's others in theirs |
| ModelCatalog.AllowedModelsUnion | src/app/config.py:1508-1519 | the nested loops compute the union in provider order |
| ModelCatalog.CreditsProviderForModel | src/app/config.py:1521-1535 | the first enabled provider that knows the model, else the active one |
| ModelCatalog.CatalogModels | src/app/config.py:1537-1558 | the loops compute the public rows |
| ModelCatalog.CatalogIsCoherent | src/app/config.py:1537-1558 | the rows are the union in its order without repeats, the default first and the only default, each row's provider the one its model is routed to |
| ModelCatalog.RoutedIffOffered | src/app/config.py:1521-1535 | a model of the union is routed to a provider that has it, any other to the active provider |
| ModelCatalog.UnionNames | src/app/config.py:1508-1535 | a model of the union carries the name that the provider it is routed to gives it |
| Blocks.ReplayAssistantBlocks | src/app/chat/anthropic_client.py:154-178 | the loop keeps what Anthropic's input schema defines, cut to its wire fields |
| Blocks.ReplayIsStable | src/app/chat/anthropic_client.py:100-178 | replay of any stored form drops no call, and a replayed step is sent unchanged ever after |
| Blocks.OwnFormUnchanged | src/app/chat/anthropic_client.py:173-178 | normalized blocks of our own form replay as stored |
| Blocks.TextIsSent | src/app/chat/anthropic_client.py:82-124 | a text block is sent with exactly its type and words |
| Blocks.ThinkingIsSent | src/app/chat/anthropic_client.py:82-124 | thinking with its text and signature, redacted thinking with its data |
| Blocks.MediaIsSent | src/app/chat/anthropic_client.py:82-124 | images and documents with their source |
| Blocks.CallIsSent | src/app/chat/anthropic_client.py:82-124 | calls with id, name and input |
| Blocks.SearchResultIsSent | src/app/chat/anthropic_client.py:82-124 | hosted search results with their call's id and content |
| Blocks.OthersAreSent | src/app/chat/anthropic_client.py:100-178 | other types of the input schema without nulls and `caller` |
| Blocks.ForeignIsDropped | src/app/chat/anthropic_client.py:127-178 | types outside the schema are not sent |
| Blocks.WordsAreSent | src/app/chats/provider_blocks.py:36-112 | the words of a step in any stored form, chat-completions included, are sent, all of them and in order |
| Blocks.ChatCompletionsAreSent | src/app/chats/provider_blocks.py:72-126 | a chat-completions message is sent as its text and one call block per call, in order, with decoded arguments |
| History.BuildProviderMessages | src/app/chat/anthropic_client.py:350-411 | the loop with its remembered index renders the history |
| History.ResultIsSent | src/app/chat/anthropic_client.py:394-411 | a result names its call and is marked as an error exactly if the tool failed, with its message or a stock text |
| History.NoAdjacentUsers | src/app/chat/anthropic_client.py:365-376 | no two user turns in a row |
| History.BlocksArePreserved | src/app/chat/anthropic_client.py:350-411 | the wire carries the blocks of the steps, each on its side, in order; nothing is lost, repeated or moved across sides |
| History.CallsAreAnswered | src/app/chat/anthropic_client.py:396-411 | results that directly follow a step lead the user turn that directly follows its turn |
| History.ThinkingReplayable | src/app/chat/anthropic_client.py:181-213 | thinking is refused exactly when the assistant turn before the trailing tool results does not start thinking |
| History.ThinkingOnRendered | src/app/chat/anthropic_client.py:181-213 | on a rendered history only the last two turns matter |
| History.Request.InjectAttachmentBlocks | src/app/chat/anthropic_client.py:216-235 | the blocks are appended to the last user turn in place, or form one |
| History.InjectionIsTotal | src/app/chat/anthropic_client.py:216-235 | attachments are never dropped and the turns still alternate |
| SupersededCalls.NeutralHistoryFromSteps | src/app/chat/orchestrator.py:965-1040 | the index passes and the main loop compute the specified history |
| SupersededCalls.NextUsers | src/app/chat/orchestrator.py:985-991 | the backward pass finds the nearest user step at or after each step |
| SupersededCalls.ToolIndices | src/app/chat/orchestrator.py:992-997 | the positions of every id's results |
| SupersededCalls.CloseSuperseded | src/app/chat/orchestrator.py:1002-1023 | open calls without a result before the next user step are closed in order, the others stay open |
| SupersededCalls.ClosedIsAnError | src/app/chat/orchestrator.py:1002-1023 | a closed call is told as an error that says the result never came |
| SupersededCalls.TurnsAreKept | src/app/chat/orchestrator.py:965-1040 | closing only adds and drops results: users and assistants are kept, in order |
| SupersededCalls.NothingSupersededIsKept | src/app/chat/orchestrator.py:965-1040 | without superseded calls the history is the stored steps, unchanged |
| CallPairing.StaysPaired | src/app/chat/orchestrator.py:1000-1040 | up to a user step every earlier turn is answered in full, and the last turn's calls are answered or open |
| CallPairing.EveryCallIsAnswered | src/app/chat/anthropic_client.py:350-411 | end to end: for ordered steps, every assistant turn up to a user step is followed at once by a user turn that starts with one result for each of its calls and for nothing else |
| CallPairing.OrderIsExact | src/app/chat/orchestrator.py:965-1040 | the order that theorem asks for is the only safe one: every turn before every user step is answered at once exactly if each result, once a user has spoken after its call, came with its turn or after that user step |
| CallPairing.MisplacedExample | src/app/chat/orchestrator.py:1000-1040 | a history in which a second assistant turn stands between a call and its result, and the call stays unanswered |
| CallPairing.SupersededExample | src/app/chat/orchestrator.py:968-983 | the smallest superseded call meets the hypotheses of the theorem |
| HostTokens.OnlyTokensChange | src/app/billing_cloudpayments/pay_page.py:147-167 | text and result differ only in whole tokens of the host |
| HostTokens.ReplacementIsComplete | src/app/billing_cloudpayments/pay_page.py:147-167 | outside the colliding pairs no token is left, boundaries and `%2F` included, and a second pass changes nothing |
| HostTokens.CompleteIff | src/app/billing_cloudpayments/pay_page.py:147-167 | the colliding pairs are exactly those for which some text keeps a token |
| HostTokens.OtherHostsStay | src/app/billing_cloudpayments/pay_page.py:147-167 | another host, longer at either end or merely different, is left alone |
| PayPath.PathAllowed | src/app/billing_cloudpayments/pay_page.py:249-265 | the split loop decides the whitelist of the three path classes |
| PayPath.AcceptedIffNormal | src/app/billing_cloudpayments/pay_page.py:249-265 | a pay path is accepted exactly when it lies under the prefix with non-empty components of unreserved characters and is its own result under remove_dot_segments (section 5.2.4 of RFC 3986) |
| PayPath.AcceptedIsFixed | src/app/billing_cloudpayments/pay_page.py:249-265 | and then it is a fixed point of percent-decoding (section 2.1 of RFC 3986) |
| PayPath.CookieLosesDomainOnly | src/app/billing_cloudpayments/pay_page.py:300-306 | parsed again, the filtered cookie has its segments in order less the Domain attributes; filtering again changes nothing |
| Text.JoinSplit | src/app/billing_cloudpayments/pay_page.py:300-306 | joining what was split gives the text back |
| Text.SplitJoin | src/app/billing_cloudpayments/pay_page.py:300-306 | splitting what was joined gives the segments back |
| LinkCache.FieldIsIdentity | src/app/billing_cloudpayments/checkout.py:56-59 | a field names one product and one address digest |
| LinkCache.EntryLapsesFirst | src/app/billing_cloudpayments/checkout.py:349-360 | an entry stored within the margin lapses before the provider's link, and for a capped entry that bound is exact |
| LinkCache.UndatedForTheWindow | src/app/billing_cloudpayments/checkout.py:349-360 | a link without a provider's expiry is reused for the whole window, and none for longer |
| LinkCache.LinkStore.CachedLink | src/app/billing_cloudpayments/checkout.py:301-323 | only a live entry with a link is handed out |
| LinkCache.LinkStore.StoreLink | src/app/billing_cloudpayments/checkout.py:326-346 | the field reads back as this link until its time is up and as none from then on; live fields keep theirs until they lapse or the hash does, lapsed ones stay gone |
| LinkCache.LinkStore.ForgetReusableLinks | src/app/billing_cloudpayments/checkout.py:62-77 | no field has a link afterwards |
| LinkCache.HoldersNeverOverlap | src/app/billing_cloudpayments/checkout.py:241-297 | if every holder finishes within the lock's TTL, no two callers hold the lock of one field at any point of any run |
| LinkCache.LateHolderOverlaps | src/app/billing_cloudpayments/checkout.py:266-270 | once a holder has outstayed the TTL, a second caller can take the lock |
| LinkCache.UnlockedOnlyAfterWait | src/app/billing_cloudpayments/checkout.py:266-274 | a caller that goes on without the lock has waited its whole TTL |
| LinkCache.HitIsSound | src/app/billing_cloudpayments/checkout.py:241-360 | a link handed out was stored for the same product and address after the last invalidation, and lapses before the provider's expiry if stored in time |
| LinkCache.HitIsNewer | src/app/billing_cloudpayments/checkout.py:62-77 | with no caller at the provider at an invalidation, links handed out later were asked for later |
| LinkCache.ForgetLeaksIff | src/app/billing_cloudpayments/checkout.py:241-297 | for every run and every moment of an invalidation: some continuation hands out a link asked for before it exactly if a caller is at the provider, its answer still to come or still to be stored |
| KeysetMigration.ChatSteps.PageEnd | migrations/versions/20260916_0034_chat_steps_usage_json_null.py:71-75 | the last of the `batch` lowest ids above the cursor |
| KeysetMigration.ChatSteps.FixPage | migrations/versions/20260916_0034_chat_steps_usage_json_null.py:77-83 | no id of the window holds a JSON null, and any value that changed was a JSON null of the window and is SQL NULL |
| KeysetMigration.ChatSteps.Upgrade | migrations/versions/20260916_0034_chat_steps_usage_json_null.py:86-94 | the walk ends with the one-shot update of every row above the zero uuid, in one page per `batch` rows |
| KeysetMigration.PagesForIsCeiling | migrations/versions/20260916_0034_chat_steps_usage_json_null.py:86-94 | that number of pages is the row count over the batch size, rounded up |
| KeysetMigration.WholeTableIff | migrations/versions/20260916_0034_chat_steps_usage_json_null.py:65-67 | the walk is the update of the whole table exactly if the zero uuid carries no JSON null |
| KeysetMigration.SecondRunIsFree | migrations/versions/20260916_0034_chat_steps_usage_json_null.py:77-83 | exactly the JSON nulls become SQL NULL, and a second run finds nothing |

## Left out

- Transport and wiring: HTTP, SQL and Redis calls, logging, metrics, authentication headers and OpenAPI text.
- Cryptography and foreign calls: JWT, KMS, Apple key sets, provider SDKs. Token hashes are their own values; a generated id or hash is a parameter that is required to be unused.
- The webhooks' first stages: body parsing, user resolution, secret checks and the unmapped-product signal. The model starts from a parsed event or payment and a resolved user.
- Clock columns (`created_at`, `last_seen_at`, and `updated_at` outside the product editor; the row lock that refreshing `last_seen_at` takes is modelled) and display names of catalogue entries.
- Text beyond ASCII: case folding, whitespace and digits follow ASCII; a host, key or path outside it is not covered.
- Encoding: JSON texts are symbolic (`JDecoded`, `JDumped`), and objects are maps, so key order is not modelled.
- Ready-made wire messages passed through the history renderer, and steps whose content is not a list.
- The lag of a process's configuration snapshot: editors and readers see the committed rows.
- Concurrent edits of two settings rows, concurrent refreshes of one token, and primary-key races in the editors: the code takes no lock there, so these calls are serial here.
- Version checks of the settings editors (they only refuse more), StoreKit's own sync and the tariff editor.
- Statement interleavings assume READ COMMITTED, the database's default; a deadlock or lock timeout is a roll-back.
- Fail-open paths on Redis errors, and the limiter's clocks: requests are handled in timestamp order, members are distinct.
- Adapty events without a transaction id beyond their exact effect; the confluence theorem assumes transaction ids, distinct expiries and one amount per transaction.
- CallPairing.EveryCallIsAnswered: assumes call ids are never reused and the order that CallPairing.OrderIsExact shows to be necessary; a result stored behind another assistant step is replayed where it stands, as the code does.
- CallPairing.OrderIsExact: speaks of the neutral history, not of the wire, where a client's own text could contain a block shaped like a result.
- Database.KeyTextInjective: speaks of the channels' keys only. An administrator's key and a client's request id are free texts and can equal a channel's key text (Database.UnprefixedCollidesIff says which); the ledger is keyed by channel and id, so what such a collision does is not modelled.
- CloudPaymentsOutcome.Confluence: assumes one user and one amount per payment id and no subscription worth nothing; what such a payment does is CloudPaymentsDelivery.WorthlessPaymentBlocksTheRest.
- MixedRun.RunKeepsSound: the wallet's other callers use keys without a channel's prefix.
- HostTokens.ReplacementIsComplete: assumes a host of host characters with alphanumeric ends and no empty label; the replacement need not start alphanumeric.
- LinkCache.HoldersNeverOverlap: the polling delay is not modelled; a caller may retry at any time.
- Cost reports, CRM history queries, BYOK rules, DDL-only migrations, the request-size middleware and the payment page's URL rewriting: short branch logic outside these cores.
