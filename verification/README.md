# Verified model of the Telegram uploader's core

This project models the parts of the multi-tenant uploader in which several
actors change shared rows, and proves what those parts promise. Instants are
whole microseconds, money and counters are unbounded integers (the database
columns are 64-bit or 32-bit; overflow is not reached by the amounts in use).

| files | what they model |
|---|---|
| `Plans.dfy`, `PlanRuns.dfy` | plan ranks, the expiry of a purchase, the effective plan, the worker's expiry sweep; a user's plan over whole runs |
| `MoneyState.dfy`, `MoneyLaws.dfy`, `MoneyRuns.dfy`, `MoneyEffects.dfy` | the money tables of one tenant, every transaction on them, the global invariant, theorems over all runs, and what each transaction comes to, written out |
| `Sessions.dfy` | a database session that works statement by statement: between two statements other sessions commit whatever our row locks let through, and any statement may fail |
| `PaymentServices.dfy`, `RefundService.dfy`, `PlanServices.dfy`, `GrantServices.dfy`, `ReconcileService.dfy` | the services, imperative, in such a session |
| `Renewals.dfy` | what concurrent and repeated renewals of a bot come to |
| `Reactions.dfy` | like, dislike and favorite rows with their counters |
| `Downloads.dfy` | the atomic download claim and the delivery around it |
| `Broadcast.dfy`, `BroadcastService.dfy` | the broadcast ledger and the worker that drains it, with crashes |
| `AlbumBuffer.dfy` | the debounced album buffer |
| `Licensing.dfy` | the activation server, the client, and a network that loses and delays replies |
| `TenantGuard.dfy`, `TenantScope.dfy` | the query rewriting that keeps tenants apart, the insert stamp, and nested scopes |
| `LikeSearch.dfy` | LIKE escaping and paged search |
| `Wrappers.dfy` | options and sums |

## How the money model fits together

`MoneyState.Step` gives the effect of each transaction when it runs alone.
`MoneyLaws` shows that every transaction fits one bookkeeping rule (`Fits`) and
derives the invariant `MoneyInv` from that rule; `MoneyRuns` lifts it to all runs.
A service is a method over a `Session`. At every `await` the session's `Pause`
lets a script of other transactions commit, except those that need a row the
session has locked, and may report that the statement failed. A service collects
its writes in the session and commits them at once; `Session.Commit` demands that
what is written is one `Step`. The contract of a service therefore says exactly
which transactions a call has committed (`Done()` before and after), whatever ran
in between, and since both the service's and the others' commits are in the log,
the theorems over all runs hold of every interleaving of services. A script that
is empty (`turns == []`) is the uninterrupted call, and the contracts then also say
which answer comes back. The lemmas of `MoneyEffects` say of each transaction, in terms of
the tables alone, when it is refused, which balance moves by how much, and which rows
change; amounts, statuses and comparisons are written out there a second time and not
taken from the transactions. The other parts do the same for their own functions
(`QuoteMeans`, `OutcomeMeans`, `IssueMeans`, `AccessMeans`, `SelectMeans` and their like),
so that no contract rests on a name alone. Clocks, provider answers and the answers of Redis locks
(`Acquired`, `Held`, or down, which fails open) are parameters. A locked read is a read
of the committed row, and the unique constraints are checked at the commit.

## Where the code differs from its documentation

- *Refunded is not final* (app/services/payment_service.py:48, app/services/gateway_service.py:70-73).
  A refunded payment can be approved or verified again and is then credited again;
  `RefundedIsNotTerminal` is such a run, `RefundIsFinalIffNeverReopened` the exact
  condition, and `CreditedTwiceIffSettledAfterRefund` says when it is paid twice. What
  the code does keep is `SettlementsMinusRefunds`. A payment made for a plan moves no
  money when it is refunded, so each repetition leaves another deposit
  (`PlanPaymentKeepsItsDeposits`).
- *Like and dislike can coexist.* app/services/reaction_service.py:5-6 calls them mutually
  exclusive. Two toggles at once can set both (`LikeAndDislikeCanCoexist`);
  `CoexistInRunIffSlippedIn` says exactly in which runs they do, and serial toggles
  keep them apart whatever others do (`SerialRunsExclude`).
- *No context, nothing happens* (app/core/tenant_context.py:1-9). `RefusedWithoutContext` lists the
  exceptions. Under a tenant's scope Core statements are not filtered and bulk inserts not
  stamped; the repository uses both, each with a condition or a tenant of its own.
  `ReachesOthersIff` says exactly when a request changes another tenant's rows.
- *A sweep can undo a purchase.* The expiry sweep writes the plan of users it selected
  earlier without looking again; a purchase committed in between is lost
  (`StaleSweepCanUndoAPurchase`, with the exact condition in `StaleSweepHarmlessIff`).
- *An unpaid purchase can be lost.* Without a charge the user's row is not locked; two purchases for
  nothing that read the same plan extend it once (`TwoFreePurchasesExtendOnce`). The
  contract of `PurchasePlan` says exactly when such a purchase extends the plan held.
- *A renewal can be lost.* The new expiry is computed from the tenant row as it was read before
  the charge; two renewals at once can both be charged and extend once
  (`TwoRenewalsExtendOnce`). The contract of `RenewFromWallet` says exactly when the
  row it overwrites is extended, and that it is whenever no other renewal of the bot
  comes between its read and its commit.
- *A renewal can lack a receipt.* app/services/bot_creation_service.py:220-221 takes each new expiry to
  be distinct. Perpetual renewals, and renewals to the same second, share a key, and the
  second is refused (`ReceiptIffNoneOfThisSecond`, `TwoPerpetualRenewalsOneReceipt`).
- *A job without a bot* fails with its pending recipients left in the ledger, and a retry reopens
  it only if some send had failed (`AbortedStaysUnlessSomethingFailed`, `StrandedRecipient`).
- *The grace time starts when the reply arrives*, so a revoked client degrades after the grace
  and the delay of the last reply, not after the grace alone (`LateReplyOutlivesTheGrace`);
  `DegradesByGraceIff` is the exact condition.

## Model

| member | source | states |
|---|---|---|
| `Plans.SweepUnobservable` | app/workers/main.py:304-334 | a sweep put at any point of a history changes neither the effective plan at any later instant nor the expiry quoted to any later purchase |
| `Plans.PurchasesSellDisjointPeriods` | app/services/subscription_service.py:51-65 | repeated purchases of one plan, with sweeps between them, sell disjoint periods of full length, and the user has the plan exactly in their union |
| `Plans.RunContiguous` | app/services/subscription_service.py:112-121 | after every prefix the running period ends where the last sold one does, and no instant before that end is uncovered |
| `Plans.ExpiryClosedForm` | app/services/subscription_service.py:51-65 | the final expiry is the largest of t_i + (k - i) * d over the k purchases |
| `Plans.QuoteMeans` | app/services/subscription_service.py:51-65 | the quote is the one expiry that means: for ever for 0 days; the old end plus the days for a plan not above the running one, with free < plus < max written out; else now plus the days |
| `Plans.PurchaseLastsAsSold` | app/services/subscription_service.py:51-65 | after a purchase the buyer has the plan for exactly the days bought, plus all that was left of a running period of the same or a higher plan, so that no paid instant is lost |
| `Plans.StaleSweepHarmlessIff` | app/workers/main.py:304-334 | a downgrade written after a stale read is invisible at all later instants if and only if the user has no plan by then |
| `Plans.StaleSweepCanUndoAPurchase` | app/workers/main.py:304-334 | a concrete history in which a paid purchase is lost to the sweep |
| `Plans.ExpiredIdsAre` | app/workers/main.py:311-320 | the sweep selects exactly the users with a plan other than free whose expiry is known and strictly past |
| `Plans.PlanTable.ProcessExpirySweep` | app/workers/main.py:304-334 | exactly the users who held a paid plan past its end when the sweep looked are free afterwards, whatever purchases, revocations or sweeps commit between its read and its write, and their subscriptions are inactive, new ones included; everybody else is as their own history left them, and the number of those users is returned |
| `PlanRuns.PlanFollowsHistory` | app/services/subscription_service.py:112-121 | in every run of the money tables a user's plan columns are what the history of their purchases, sweeps and refunds makes of a new user's |
| `PlanRuns.PeriodsAreDisjointInEveryRun` | app/services/subscription_service.py:51-65 | under every interleaving a user who only ever buys one plan, quoted from the plan held, is sold disjoint full periods, and the tables show the plan exactly in their union |
| `PlanRuns.ServiceLogIsQuoted` | app/services/subscription_service.py:97-121 | if every purchase of a log extends the plan held at its commit, as paid ones are promised to, the log is quoted as the run theorem asks |
| `PlanRuns.TwoFreePurchasesExtendOnce` | app/services/subscription_service.py:97-121 | two purchases for nothing that read the plan before either commits are both granted and extend it once |
| `MoneyLaws.StepFits` | app/services/wallet_service.py:27-63 | every transaction adds at most one ledger row, moves exactly its amount in exactly one balance, and changes payments, grants and invoices only together with it |
| `MoneyLaws.StepKeepsInvariant` | app/models/wallet.py:3 | every transaction keeps the global invariant of balances, running balances, payments, grants and invoices |
| `MoneyLaws.RefundFits` | app/services/refund_service.py:53-112 | a refund books the compensating debit of a top-up, or no money for a plan, together with the status |
| `MoneyLaws.VerifyFits` | app/services/gateway_service.py:61-102 | a verification books its credit together with the status, and what it does not settle books nothing |
| `MoneyLaws.MaxNumberIsCount` | app/services/invoice_service.py:43-48 | in the invariant the highest invoice number is the number of invoices |
| `MoneyEffects.VerifyEffect` | app/services/gateway_service.py:61-102 | a verification settles exactly an order of this gateway, neither approved nor rejected, on an ok answer that names exactly its amount and no other user; any other ok answer rejects it and moves nothing; else nothing happens |
| `MoneyEffects.ApproveEffect` | app/services/payment_service.py:39-70 | an approval is refused exactly for an unknown or approved payment, and otherwise books the absolute amount to the payer with the status |
| `MoneyEffects.RefundEffect` | app/services/refund_service.py:53-112 | a refund is refused exactly for a payment that is not approved or a top-up the balance cannot bear; it takes the amount of a top-up back, and takes the plan of a plan payment, with all the subscriptions, exactly if the user still holds it |
| `MoneyEffects.StarsEffect` | app/services/stars_service.py:76-109 | a Stars charge is refused exactly if its charge id is on record, and otherwise adds its approved payment with the deposit of the price |
| `MoneyEffects.BuyPlanEffect` | app/services/subscription_service.py:97-121 | a plan purchase is refused exactly if the balance is below the price; it charges the price, sets the plan and adds the subscription |
| `MoneyEffects.BuyMediaEffect` | app/services/paywall_service.py:118-168 | a file is sold exactly once, for its positive price, to a balance that bears it |
| `MoneyEffects.RenewBotEffect` | app/services/bot_creation_service.py:205-217 | a renewal charges the payer and sets expiry and activity of that tenant only |
| `MoneyEffects.VerifiedSettlementsConfirm` | app/services/gateway_service.py:77-102 | in every interleaving each settlement by a verification answered an order of its own gateway with exactly its amount and no other user |
| `MoneyEffects.InvoicesAreForTheirEvents` | app/services/invoice_service.py:30-66 | in every run an invoice is for the amount of the payment, refund, grant or renewal it names, which is in the tables |
| `MoneyRuns.ReachableInvariant` | app/services/wallet_service.py:27-63 | the invariant holds in every reachable state |
| `MoneyRuns.SettlementsMinusRefunds` | app/services/gateway_service.py:61-102 | in every run settlements minus refunds of a payment is 1 if it is approved and 0 otherwise |
| `MoneyRuns.CreditedTwiceIffSettledAfterRefund` | app/services/payment_service.py:39-70 | a payment is credited more than once in a run exactly when some transaction of the run settles it in a state in which its row is marked as refunded |
| `MoneyRuns.RefundedIffMarked` | app/services/refund_service.py:108-112 | in every run a payment has been refunded exactly if its row has a refund time |
| `MoneyRuns.SettledBeforeIffMarked` | app/services/payment_service.py:39-70 | a settlement is a repeated one iff the row had a refund time before the call |
| `MoneyRuns.RefundedUnlessReopened` | app/services/gateway_service.py:70-73 | in every invariant state exactly an approval or a confirmed verification by its own gateway takes a payment out of refunded |
| `MoneyRuns.RefundIsFinalIffNeverReopened` | app/services/refund_service.py:61-62 | from a refunded payment on, it stays refunded in all states of the run iff the run holds no approval and no confirmed verification of it |
| `MoneyRuns.RefundedCanBeApproved` | app/services/payment_service.py:48 | in every reachable state a refunded payment can be approved and is settled again in full |
| `MoneyRuns.RefundedCanBeVerified` | app/services/gateway_service.py:70-102 | in every reachable state a matching confirmation by its gateway settles a refunded payment again in full |
| `MoneyRuns.RefundedIsNotTerminal` | app/services/payment_service.py:48 | a run in which one top-up is settled twice and refunded once |
| `MoneyRuns.LedgerMatchesReports` | app/services/wallet_service.py:27-63 | the ledger rows of a payment add up to what its services reported |
| `MoneyRuns.TopUpIsWorthItsAmount` | app/services/refund_service.py:53-112 | the signed sum of a top-up's ledger rows is its amount while it is approved and 0 otherwise |
| `MoneyRuns.PlanPaymentKeepsItsDeposits` | app/services/refund_service.py:83-101 | a plan payment, in Stars or otherwise, has left its amount in the wallet once for each settlement, refunds or not |
| `MoneyRuns.Conservation` | app/services/subscription_service.py:97-121 | in every run the sum of all balances is the money settled in, less refunded top-ups, less the prices of all granted plans, files and bots and of the renewals |
| `MoneyRuns.ChargeIffGrant` | app/services/paywall_service.py:118-168 | in every reachable state a file entitlement exists iff there is exactly one debit for it with its price, and likewise each paid tenant and the subscription rows of a user and plan |
| `MoneyRuns.LedgerIsTheBalance` | app/models/wallet.py:3 | in every reachable state a balance is the sum of its ledger rows, never negative, and each balance_after is the prefix sum |
| `MoneyRuns.InvoicesAreNumbered` | app/services/invoice_service.py:30-66 | in every reachable state the invoice numbers are exactly 1..n, sources are distinct, and each invoice is backed by its event |
| `Sessions.InterleavingsObeyTheLaws` | app/services/wallet_service.py:27-87 | for any interleaving of sessions, with failures anywhere: settlements minus refunds is the status, the balances are conserved, charges match grants and invoice numbers are 1..n |
| `Sessions.StepGuarded` | app/services/wallet_service.py:34-40 | a transaction that needs none of our locked rows leaves them as they are |
| `Sessions.StepLater` | app/models/invoice.py:23-26 | what a session has seen committed stays: users, orders, entitlements, tenants, invoices and backed events |
| `Sessions.Session.Pause` | app/services/wallet_service.py:27-63 | between two statements others commit any transactions that do not wait for our locks |
| `Sessions.Session.Commit` | app/services/wallet_service.py:57-63 | a commit is atomic: the whole transaction, or nothing when a unique constraint is violated |
| `WalletService.Apply` | app/services/wallet_service.py:27-63 | under the user's lock the new balance is the committed one plus the amount and never negative, and the ledger row says so |
| `InvoiceService.BySourceFinds` | app/services/invoice_service.py:25-28 | the lookup finds an invoice iff one with the source exists |
| `InvoiceService.StaleMaxAdmissible` | app/services/invoice_service.py:43-48 | a maximum read earlier is never above the present one |
| `InvoiceService.Insert` | app/services/invoice_service.py:30-66 | at most one invoice is inserted, numbered from the maximum read; a clash inserts nothing |
| `InvoiceService.SafeRecord` | app/services/invoice_service.py:87-101 | recording an invoice never undoes the settled event and adds at most this one invoice |
| `PaymentService.Create` | app/services/payment_service.py:23-32 | exactly one new pending payment, under a fresh id |
| `PaymentService.Approve` | app/services/payment_service.py:39-70 | a call that reports an approval committed exactly one settlement of the amount, any other call nothing |
| `PaymentService.Reject` | app/services/payment_service.py:72-85 | exactly the pending payments are rejected |
| `RefundService.RefundNow` | app/services/refund_service.py:53-128 | a call that reports a refund committed exactly one reversal with its status; every refusal committed nothing and names its reason |
| `RefundService.Reverse` | app/services/refund_service.py:75-107 | the reversal under the payment's lock is the refund transaction, and it falls short exactly for lack of balance |
| `SubscriptionService.PurchasePlan` | app/services/subscription_service.py:67-150 | charge, grant and subscription row commit together, exactly once for a call that reports a purchase and never for another, with Redis down or not; a paid purchase lasts as sold on the plan held at that moment, with the order of plans written out, and an unpaid one exactly when the plan it read starts the period at the same instant; an undisturbed call buys exactly if the plan is for sale, no double tap is held back and the balance bears the price |
| `GatewayService.Start` | app/services/gateway_service.py:31-59 | one pending payment for the order, also when the provider then refuses; an intent that starts with "plan:" names its plan, any other is a top-up |
| `GatewayService.Settle` | app/services/gateway_service.py:74-102 | under the lock an answer with exactly the amount and no other user settles once, and any other ok answer rejects without a credit |
| `GatewayService.VerifyAndApply` | app/services/gateway_service.py:61-127 | a call that reports a credit heard exactly the amount and no other user, and committed exactly one settlement followed at most by its purchase or receipt; one that reports a mismatch heard something else and rejected; every other report leaves no trace; an undisturbed credit ends with the receipt, or with the purchase unless the plan is not for sale or costs too much |
| `StarsService.Record` | app/services/stars_service.py:76-109 | a charge id is recorded at most once, with its deposit |
| `StarsService.ApplySuccessfulPayment` | app/services/stars_service.py:60-124 | a charge of exactly the Stars price of an active plan settles at most once however often it is reported, and then at most one purchase follows; undisturbed it follows unless a double tap is held back |
| `PaywallService.EntitlementOpensExactlyThePrice` | app/services/paywall_service.py:65-100 | an entitlement opens exactly the payment gate and nothing else |
| `PaywallService.AccessMeans` | app/services/paywall_service.py:65-100 | a visitor is stopped exactly for a running plan below the required one, with free < plus < max written out, else for a price neither paid nor their own file, else for a used-up free quota; admins pass |
| `PaywallService.StrangersMean` | app/services/paywall_service.py:65-78 | an unknown visitor gets exactly the files without a price and without a required plan |
| `PaywallService.BuyFile` | app/services/paywall_service.py:118-178 | debit and entitlement commit together or not at all, once for each user and file whatever Redis says; an undisturbed call buys exactly what has a price, is not owned yet and can be paid |
| `BotCreationService.CreateFromWallet` | app/services/bot_creation_service.py:82-181 | charge and tenant row commit together, and the unique bot id lets one of several calls through and charges only it; the rental ends the plan's days from now |
| `BotCreationService.RenewFromWallet` | app/services/bot_creation_service.py:183-238 | charge and new expiry commit together; the new expiry adds the plan's days to the end of a running rental, or to now, as the call read the row, and extends the committed row it overwrites exactly when both start the renewal at the same instant; both rows have the same expiry when the log holds no renewal of the bot between the read and the commit |
| `BotCreationService.ExpiryStays` | app/services/bot_creation_service.py:210-213 | over any stretch of a log without a renewal of the bot its expiry stays |
| `BotCreationService.StampMeans` | app/services/bot_creation_service.py:226 | the receipt key of a renewal holds the whole second of its expiry, and 0 for a perpetual one |
| `Renewals.TwoRenewalsExtendOnce` | app/services/bot_creation_service.py:191-213 | two renewals that read the tenant row before either commits are both charged and extend once |
| `Renewals.ReceiptIffNoneOfThisSecond` | app/services/bot_creation_service.py:219-232 | in a consistent state a renewal's receipt is recorded iff no renewal of the bot with an expiry in the same second has one, and then under the next number |
| `Renewals.TwoPerpetualRenewalsOneReceipt` | app/services/bot_creation_service.py:219-232 | from every reachable state two paid perpetual renewals are both charged and leave one receipt, the second being refused |
| `Renewals.ARenewalWithoutReceipt` | app/services/bot_creation_service.py:219-232 | a run from the empty tables in which this happens |
| `ReconcileService.ExpireStale` | app/services/reconcile_service.py:73-84 | a stale row is expired only if it is still pending under the lock; undisturbed, exactly then |
| `ReconcileService.ReconcileOne` | app/services/reconcile_service.py:62-87 | each row adds one to the counter that names what was committed for it: its settlement with the follow-up, its rejection, its expiry past 24 hours, or nothing; undisturbed, a row is settled, rejected, expired or left exactly by the gateway's answer and its age |
| `ReconcileService.ReconcilePending` | app/services/reconcile_service.py:41-87 | the batch is the oldest 200 pending gateway payments; settled, mismatch and expired are the numbers of its rows with a settlement, a rejection and an expiry in the own log, and all counts add up to the batch; only rows known to be over 24 hours old are expired, even by a pass that breaks off, and after a whole pass none of them is pending; an undisturbed pass leaves younger unconfirmed rows, and all other payments, as they were |
| `ReconcileService.BatchIsOldest` | app/services/reconcile_service.py:44-54 | the batch holds pending gateway payments only, in id order, and leaves one out only behind 200 older ones |
| `ReconcileService.CountsOneMore` | app/services/reconcile_service.py:57-87 | each count stays the number of rows with that fate, and no row has two |
| `ReconcileService.PassShrinks` | app/services/reconcile_service.py:41-87 | a pass over stale rows without arrivals takes away a whole batch |
| `ReconcileService.PassesDrain` | app/services/reconcile_service.py:41-87 | ceil(n / 200) passes leave none of n stale rows pending |
| `Reactions.CommitKeepsSound` | app/services/reaction_service.py:43-60 | every committed toggle keeps the counters equal to the rows, and its guarded decrement is never suppressed |
| `Reactions.CountersCountRows` | app/services/reaction_service.py:62-95 | over every run each counter is the number of its rows |
| `Reactions.CoexistIffOppositeSlippedIn` | app/services/reaction_service.py:78-95 | a commit makes like and dislike coexist exactly when it sets one whose opposite was committed after its DELETE found none |
| `Reactions.CoexistInRunIffSlippedIn` | app/services/reaction_service.py:62-95 | over every run like and dislike coexist at some time exactly when some toggle of the run slipped in like this |
| `Reactions.SerialRunsExclude` | app/services/reaction_service.py:62-95 | while the toggles of one user on one media are serial, like and dislike never coexist in any state of any run, whatever all others toggle |
| `Reactions.SerialExclusive` | app/services/reaction_service.py:62-95 | serial toggles keep like and dislike apart and flip their row |
| `Reactions.TwiceRestores` | app/services/reaction_service.py:62-95 | two toggles in a row restore the whole state, counters included, iff the first cleared no opposite |
| `Reactions.TwiceRestoresAmongOthers` | app/services/reaction_service.py:62-95 | two serial toggles with any toggles of others between restore the kind always, and all the user's rows iff the first cleared no opposite |
| `Reactions.LikeAndDislikeCanCoexist` | app/services/reaction_service.py:78-95 | two concurrent first toggles after which both rows stand |
| `Reactions.ReactionService.Pause` | app/services/reaction_service.py:43-60 | others commit toggles but cannot remove a row we deleted nor commit on a media row we hold |
| `Reactions.ReactionService.FinishUnset` | app/services/reaction_service.py:43-60 | the delete and its decrement commit together, or nothing when the row is gone |
| `Reactions.ReactionService.FinishSet` | app/services/reaction_service.py:83-95 | the insert and its increment commit together, or nothing when a duplicate won |
| `Reactions.ReactionService.Toggle` | app/services/reaction_service.py:62-95 | a toggle commits at most one act, even on stale reads, and reports what is then committed; while others toggle anything but this user's reactions to this media it commits the serial act, flips its row and keeps like and dislike apart |
| `Downloads.SlotsAccountedFor` | app/services/media_service.py:136-172 | over every run the counter is finished plus lost plus running deliveries and never exceeds the limit |
| `Downloads.ReleaseAlwaysDecrements` | app/services/media_service.py:166-172 | the guard of the release never suppresses it |
| `Downloads.NeverOversoldNorUndersold` | app/services/media_service.py:150-155 | never more deliveries than the limit, and without crashes a live file refuses only once the limit was delivered |
| `Downloads.GatesInOrder` | app/bot/delivery.py:97-208 | which answer an undisturbed delivery gets, condition by condition: the block, the status of the file, the channels, the password, the paywall, and then the sends |
| `Downloads.SentInOrder` | app/bot/delivery.py:160-180 | the ids of the sent messages stand in file order, one for each send that went through |
| `Downloads.MediaService.CheckStatus` | app/services/media_service.py:115-131 | OK iff a claim would get a slot; unapproved is told as unknown; the limit is reported only when finished, running and crashed deliveries hold all its slots |
| `Downloads.MediaService.TryClaimDownload` | app/services/media_service.py:136-164 | a slot is taken exactly when the row still allows it at the update; an unknown code takes none |
| `Downloads.MediaService.ReleaseDownload` | app/services/media_service.py:166-172 | exactly one slot is given back |
| `Downloads.MediaService.TryGates` | app/bot/delivery.py:97-148 | no gate takes a slot, and the first closed one answers |
| `Downloads.MediaService.SendFiles` | app/bot/delivery.py:160-186 | the slot is kept with the ids of the sent files in order, given back when nothing was sent, and lost only in a crash, which may come at any send or before the release |
| `Downloads.MediaService.DeliverByCode` | app/bot/delivery.py:85-208 | a delivery claims only behind all gates; every outcome but a delivery has no net effect on the counter unless it crashed; undisturbed, the first closed gate answers |
| `Broadcast.OldestIsClaimed` | app/services/broadcast.py:157-189 | the job picked across all tenants is the one claimed in its tenant's scope |
| `Broadcast.PendingIs` | app/services/broadcast.py:192-204 | the pending list holds exactly the pending rows of the job, each once, oldest first |
| `Broadcast.AttemptedIs` | app/workers/main.py:112-133 | every row of a page gets its own answer and no other row changes |
| `Broadcast.OutcomeMeans` | app/workers/main.py:148-171 | a row is sent exactly if its message was accepted, at once or at the one try after a back-off; blocked exactly if forbidden; and failed otherwise |
| `Broadcast.AttemptedMeans` | app/workers/main.py:112-133 | after a page each of its rows is sent exactly if its own message was delivered, and none is pending |
| `Broadcast.BlockedByIs` | app/workers/main.py:123-128 | exactly the users who forbid the bot to write are blocked |
| `Broadcast.CountIs` | app/services/broadcast.py:207-223 | a count of the ledger is the number of rows of the job with that status |
| `Broadcast.AttemptedCounts` | app/workers/main.py:112-133 | a page of n takes exactly n rows off pending, keeps every snapshot's size and all other jobs' counts |
| `Broadcast.PassEffect` | app/workers/main.py:67-135 | a pass takes min(p, 100) rows off pending, or finalizes a drained job |
| `Broadcast.DrainsInExactlyCeilPlusOne` | app/workers/main.py:67-135 | the oldest job with p pending rows is unfinished after ceil(p/100) passes and finished after one more, with nothing pending, counts that are those of the ledger and add up to the snapshot, and the status they call for |
| `Broadcast.DedupedOnce` | app/services/broadcast.py:128-134 | each named user with a reachable chat is asked exactly once, at the first such chat |
| `Broadcast.SnapshotSound` | app/services/broadcast.py:45-103 | a new snapshot keeps the ledger sound |
| `BroadcastService.RetrySound` | app/services/broadcast.py:238-255 | a retry keeps the ledger sound and sent rows sent |
| `BroadcastService.RequeuedCounts` | app/services/broadcast.py:238-255 | a retry moves exactly the failed rows of the job to pending |
| `BroadcastService.AbortedStaysUnlessSomethingFailed` | app/services/broadcast.py:238-255 | a failed job is not picked up again, and a retry reopens it iff some send had failed |
| `BroadcastService.StrandedRecipient` | app/workers/main.py:93-97 | a ledger with a failed job whose only recipient stays pending through every pass and retry |
| `BroadcastService.AudienceDistinct` | app/services/broadcast.py:27-33 | the audience is exactly the unblocked users of the filter, each once |
| `BroadcastService.AudienceIs` | app/services/broadcast.py:27-33 | who is asked: nobody blocked; for "free" those with no plan or free, for "premium" those with plus or max |
| `BroadcastService.Store.CreateJob` | app/services/broadcast.py:45-103 | the chunked inserts snapshot exactly the audience in order, with its size as total |
| `BroadcastService.Store.CreateJobForUsers` | app/services/broadcast.py:106-151 | the chunked inserts snapshot exactly the deduplicated pairs |
| `BroadcastService.Store.NextJobTenant` | app/services/broadcast.py:157-169 | none iff no job of any tenant is unfinished; otherwise the tenant of an unfinished job with no older unfinished one |
| `BroadcastService.Store.ClaimNextJob` | app/services/broadcast.py:172-189 | the oldest unfinished job of the tenant, now running |
| `BroadcastService.Store.RefreshJobCounts` | app/services/broadcast.py:207-223 | the counts are those of the ledger |
| `BroadcastService.Store.FinalizeJob` | app/services/broadcast.py:226-235 | done iff something was sent or nobody was asked, and the counts add up to the snapshot |
| `BroadcastService.Store.RetryFailed` | app/services/broadcast.py:238-255 | exactly the failed rows of the job are pending again and the job is queued, if there are any, and their number is returned |
| `BroadcastService.Store.SendOne` | app/workers/main.py:148-171 | the messenger's acceptance, at once or after the one back-off, is the only delivery and the only way to be sent; forbidden means blocked; everything else failed |
| `BroadcastService.Store.AttemptOne` | app/workers/main.py:113-132 | a delivery is counted when the messenger accepts, whatever is then committed, so messages received are one if the row is sent plus the crashes that lost its update; a crash before the commit changes nothing, one after it comes too late to |
| `BroadcastService.Store.DrainPage` | app/workers/main.py:112-134 | a crash leaves a prefix of the page done and at most one message lost track of; otherwise the page is done |
| `BroadcastService.Store.ProcessOnce` | app/workers/main.py:67-135 | wherever it crashes, around the claim, the sends or the final status, sent rows stay sent, at most one message is lost track of, and the ledger is as before, as after, or claimed with a prefix of the page done; uninterrupted it is exactly the pass over the oldest job, or fails it for want of a bot |
| `AlbumBuffer.KeysNeverMerge` | app/services/album_buffer.py:31-33 | two albums share a key only if tenant, chat and group agree |
| `AlbumBuffer.OneBurstOneGroup` | app/services/album_buffer.py:35-90 | spaced groups whose parts came closer than the debounce are one group |
| `AlbumBuffer.AlbumComesOutOnce` | app/services/album_buffer.py:35-90 | an album whose parts came closer together than the debounce comes out as one group with all parts in order, no earlier than the debounce after the last |
| `AlbumBuffer.AlbumBuffer.Add` | app/services/album_buffer.py:35-61 | the part is appended and the due time put off; every part is in the buffer or in one emitted group |
| `AlbumBuffer.AlbumBuffer.Claim` | app/services/album_buffer.py:71-89 | the whole group and its last metadata come out, and nothing else changes |
| `AlbumBuffer.AlbumBuffer.RangeByScore` | app/services/album_buffer.py:69 | exactly the due keys, each once, earliest first |
| `AlbumBuffer.AlbumBuffer.PopDue` | app/services/album_buffer.py:63-90 | exactly the due groups come out, each whole and once, in due order |
| `Licensing.RetryUsesOneSeat` | activation_server/store.py:173-198 | a repeated activation takes no second seat and succeeds while the license is active |
| `Licensing.IssueMeans` | activation_server/store.py:89-107 | an issued key is usable for exactly the days given, for ever without or with 0 days, with at least one seat; other keys and all installs stay |
| `Licensing.ActivationMeans` | activation_server/store.py:173-198 | an activation is granted exactly if the key is usable and the client has a seat or finds one free; then it has one, and nothing else changes; every answer tells end and seats |
| `Licensing.CheckMeans` | activation_server/store.py:200-217 | a check confirms exactly the seats of usable keys |
| `Licensing.EnabledBeforeTheEnd` | activation_server/store.py:93-95 | in every run a key last issued for some days enables no client past their end, neither on an ok reply given since nor at all if it was new |
| `Licensing.RevokedAtMeans` | activation_server/store.py:109-116 | the recorded instants of revocation are those of the revoked keys, each when it turned revoked for good |
| `Licensing.ActivatedSeats` | activation_server/store.py:173-198 | an activation adds at most its own seat and only within the license's count |
| `Licensing.RunSound` | app/services/license_service.py:138-199 | over every run with lost, late and reordered replies, an enabled row goes back to an ok answer, seats stay within the issued maximum, and no ok answer follows a revocation |
| `Licensing.EnabledMeansRecentlyOk` | app/services/license_service.py:79-92 | a client is enabled only if the server answered it ok no earlier than grace plus delay before, with a license that has not expired |
| `Licensing.RevokedClientsDegrade` | activation_server/store.py:109-116 | past grace plus delay after a revocation without a new issue no client of the key is enabled |
| `Licensing.DegradesByGraceIff` | app/services/license_service.py:79-92 | a client of a revoked key is degraded at all instants past revocation plus grace iff it is not active, its last ok reply came by the revocation, or its license ends by then |
| `Licensing.PromptRepliesDegradeByGrace` | app/services/license_service.py:79-92 | with replies that arrive at once, every client of a revoked key is degraded past revocation plus grace |
| `Licensing.LateReplyOutlivesTheGrace` | app/services/license_service.py:138-146 | a run in which a delayed reply keeps a client enabled past revocation plus grace |
| `Licensing.MaxSeatsIsLargestIssued` | activation_server/store.py:89-107 | the recorded maximum is the largest seat count any issue of the key has set |
| `Licensing.HoldersWithinSeats` | activation_server/store.py:193-198 | the enabled clients of a key never exceed the largest seat count issued for it |
| `Licensing.SeatIsUsable` | activation_server/store.py:173-198 | a free seat of an active key enables its client exactly until the grace or the license ends |
| `Licensing.ExactlyTheSeatsAreUsable` | activation_server/store.py:193-198 | of distinct clients that activate in turn exactly as many are let in as there are free seats |
| `Licensing.ActivationStore.IssueKey` | activation_server/store.py:89-107 | after the call the key is active at an instant exactly if it lies before now plus the days, or no days or 0 were given; it has at least one seat, and other keys and all installs are unchanged |
| `Licensing.ActivationStore.RevokeKey` | activation_server/store.py:109-116 | a known key is revoked at all instants and nothing else changes; an unknown one is reported |
| `Licensing.ActivationStore.Activate` | activation_server/store.py:173-198 | the answer and tables of the activation transition that the run theorems are about: ok exactly for a usable key with a seat taken or free, and then the seat is taken |
| `Licensing.ActivationStore.Check` | activation_server/store.py:200-217 | the answer of the check transition that the run theorems are about: ok exactly for a taken seat of a usable key |
| `Licensing.LicenseService.ApplyServerState` | app/services/license_service.py:138-146 | from then on the client is enabled exactly until the grace or the license ends, provided the server said active |
| `Licensing.LicenseService.Handle` | app/services/license_service.py:156-173 | an ok answer stores its status, end and instant; a rejection stores its status, disables the client and keeps the last ok instant; silence changes only the check time; and each is reported as such |
| `Licensing.LicenseService.Activate` | app/services/license_service.py:148-173 | the stripped key and this machine's fingerprint are stored before the server is asked; the answer is applied and reported as ok, rejected or offline |
| `Licensing.LicenseService.Check` | app/services/license_service.py:175-199 | the row's key and fingerprint, or else the configured key and this machine's, are checked, and the answer is applied and reported; without a key nothing is asked |
| `TenantGuard.GuardedFrom` | app/db/tenant_scope.py:31-53 | a guarded FROM clause with joins and outer joins gives the tuples of the tenant's projection |
| `TenantGuard.GuardedCond` | app/db/tenant_scope.py:31-53 | a guarded condition, sub-queries included, says on the shared database what it says on the projection |
| `TenantGuard.GuardedSelect` | app/db/tenant_scope.py:31-53 | the guarded SELECT on the shared database is the plain SELECT on the tenant's projection |
| `TenantGuard.SelectMeans` | app/db/tenant_scope.py:31-53 | the queries of the model are SELECTs: exactly the tuples of one stored row for each table that the ON conditions relate, with holes exactly where an outer join finds none, and that meet the WHERE clause |
| `TenantGuard.ExistsMeans` | app/db/tenant_scope.py:31-53 | a sub-query holds exactly if a tuple answers it |
| `TenantScope.StatementIsolated` | app/db/tenant_scope.py:31-63 | each ORM select, update, delete or insert, and each bulk insert that names the tenant itself, answers and acts as if the tenant were alone, and leaves all others' rows unchanged |
| `TenantScope.UpdateMeans` | app/db/tenant_scope.py:31-63 | an update sets exactly the rows hit, in their places, and counts them |
| `TenantScope.DeleteMeans` | app/db/tenant_scope.py:31-63 | a delete removes exactly the rows hit, and counts them |
| `TenantScope.InsertMeans` | app/db/tenant_scope.py:57-63 | an insert appends the row with the tenant it names or else the stamp, and is refused exactly for a scoped row with neither |
| `TenantScope.HooksMean` | app/db/tenant_scope.py:31-63 | which requests the hooks refuse, which they rewrite, which pass as they are, and which new rows they stamp |
| `TenantScope.OwnRowsOnlyIsolated` | app/services/refund_service.py:99-106 | a Core update or delete, which is not filtered, is isolated all the same when its own condition picks rows of the tenant only |
| `TenantScope.OrmReachesOthersIffGivesAway` | app/db/tenant_scope.py:45-63 | an ORM statement changes the others' rows iff it names another tenant and has a row to give it |
| `TenantScope.UnfilteredReachesOthersIff` | app/db/tenant_scope.py:34-41 | a statement that is not filtered changes the others' rows iff by itself it changes, deletes or hands over a row |
| `TenantScope.ReachesOthersIff` | app/db/tenant_scope.py:31-63 | the exact condition for every request under a tenant's scope: ORM, lazy load, bypass or Core |
| `TenantScope.CoreUpdateReachesOthers` | app/services/refund_service.py:99-106 | a Core update without a condition on the tenant reaches another tenant's row, and the same update through the ORM does not |
| `TenantScope.RefusedWithoutContext` | app/core/tenant_context.py:43-48 | without a context a request is refused and changes nothing, except exactly lazy loads, the bypass, rows of global tables and new rows that name their tenant |
| `TenantScope.ProgramIsolated` | app/db/tenant_scope.py:31-63 | a program of such requests that chooses each from the earlier answers cannot tell the shared database from its own, and leaves the others unchanged |
| `TenantScope.OthersCannotTouch` | app/db/tenant_scope.py:31-63 | whatever such requests other tenants' code makes under its own scopes, a tenant's rows stay as they are |
| `TenantScope.Session.ApplyTenantFilter` | app/db/tenant_scope.py:31-53 | the hook raises or rewrites exactly as the theorems assume |
| `TenantScope.Session.StampTenant` | app/db/tenant_scope.py:57-63 | the stamp raises iff a scoped row lacks a tenant the context cannot supply, and then stamps nothing; otherwise it fills in exactly the missing ones |
| `TenantScope.Session.Run` | app/core/tenant_context.py:63-79 | nested scopes run each request under its innermost scope and restore the context, raised or not |
| `LikeSearch.ReplacesEscapeEach` | app/services/media_service.py:424-426 | the three ordered replaces are the one-pass escape |
| `LikeSearch.AnyStringMatches` | app/services/media_service.py:440-447 | the wildcard matches exactly some suffix of the text |
| `LikeSearch.EscapedTokens` | app/services/media_service.py:424-426 | an escaped term is always a valid pattern of its literal characters |
| `LikeSearch.SearchIsSubstring` | app/services/media_service.py:438-447 | the search pattern matches a text iff it contains the term literally, for all terms and texts |
| `LikeSearch.NewestIsWanted` | app/services/media_service.py:438-466 | the selected rows are exactly those that contain the term |
| `LikeSearch.NewestFirst` | app/services/media_service.py:459-466 | the hits come newest first: before a hit stand exactly the hits stored after it |
| `LikeSearch.PageMeans` | app/services/media_service.py:428-473 | a page holds the hits from the offset on in their order, as many as asked for but at least 1 and at most 50, with the number of all hits; a blank query finds nothing |
| `LikeSearch.StripIs` | app/services/media_service.py:444 | what is stripped is space, and what is left neither starts nor ends with it |
| `LikeSearch.PagesAreHits` | app/services/media_service.py:428-473 | consecutive pages are consecutive stretches of the hits |
| `LikeSearch.SearchFindsExactlyTheWanted` | app/services/media_service.py:428-473 | turning the pages shows every wanted row exactly as often as it is stored and no other, and the count is theirs |

## Left out

- The bot's handlers, keyboards and texts, the panel and API routes, templates and middlewares: plumbing.
- The provider adapters: a verification answers anything, and the link of a started order is an arbitrary yes or no.
- Panel edits of balances, plans, download limits and counters, and deletions of users, media and tenants: they lie outside the invariants.
- Columns that nothing here depends on: admin ids, reasons, captions, most timestamps, the ledger's free-text metadata.
- The identity map, lazy refreshes and isolation levels of the database: locked reads are fresh, commits atomic.
- An early return of a service releases its row locks at once, earlier than its transaction ends in the program, which only lets the others do more.
- Redis beyond the three answers of a lock; the expiry of album buffers after 300 seconds; the daily quota's counter.
- MoneyRuns.Conservation: renewals are counted by their reports, because the tables keep no renewal rows.
- MoneyRuns.InvoicesAreNumbered: a racer that loses may record no invoice, so at most one invoice per event is promised.
- Plans.SweepUnobservable: the sweep is one step; a sweep that writes after a stale read is treated by StaleSweepHarmlessIff and ProcessExpirySweep.
- PlanRuns.PeriodsAreDisjointInEveryRun: it speaks of purchases quoted from the plan held at the commit, which fails of unpaid ones (TwoFreePurchasesExtendOnce), and of sweeps without a stale read, which StaleSweepHarmlessIff treats.
- PaywallService.BuyFile: insufficient balance and a failed statement give one reply.
- Downloads.MediaService.DeliverByCode: ads, captions, logging, quota counting and automatic deletion around the sends are not modelled; an error in one of them is a crash.
- Broadcast.DrainsInExactlyCeilPlusOne: retries happen between passes, not inside one, and there is one worker.
- BroadcastService.Store.SendOne: a send counts as received when the messenger says so; a message whose confirmation was lost is not counted.
- BroadcastService.Store.CreateJob: the rows of the audience query are a parameter with distinct user ids.
- AlbumBuffer.AlbumBuffer.RangeByScore: keys due at the same instant come in any order.
- AlbumBuffer.AlbumBuffer.Claim: the Redis commands of one call are one step.
- AlbumBuffer.AlbumComesOutOnce: it assumes that the clocks never went back between calls, which the buffer itself cannot check.
- Licensing.RevokedClientsDegrade: server and clients share one clock, and a reply is delivered within a fixed delay or never.
- Licensing.LicenseService.Activate: the mirror file and the development bypass are left out; a client keeps its fingerprint over a run.
- Licensing.ActivationStore.Activate: one call is one step; races inside it on the server are left out.
- TenantGuard.GuardedSelect: grouping, ordering, limits and projections of columns are functions of the tuples and left out.
- TenantScope.ProgramIsolated: lazy loads, the bypass and Core updates are excluded (ReachesOthersIff treats them one by one), and identifiers are given by the statement and not by a shared sequence; writes of already loaded objects at a flush go by primary key past the hooks and are not modelled.
- TenantScope.Session.StampTenant: the objects of a flush come in a fixed order.
- LikeSearch.SearchIsSubstring: case folding is a parameter applied to single characters.
- Folder trees, advertisements, comments, reports, backups, statistics, command and text caches: they would only add easy members.
