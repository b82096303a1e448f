# Marketplace verification

This project models the money-handling core of a marketplace API and proves what it keeps: escrow, refunds, payouts,
the order life cycle, webhook processing, and the small state machines around them (refresh tokens, message limits,
coupons, stock). `dafny verify dfyconfig.toml` checks all of it.

## How it is built

The escrow engine is in four layers.

* `Ledger`, `Attribution`, `Orders`, `Settlement` and `Market` say what each service call does to the database, as
  functions from value to value. `Market.Step` lists the calls with what they are told from outside (clock, stock,
  provider), and `Market.Run` is any finite list of them.
* `Services` is the form the program has: a class whose methods read and write its tables in place, with the loops of
  the queries. Each method is proved to do what the function of the first layer does, reply included, and keeps the
  invariant `Valid`; `Serve` shows that serving calls is a run, so the theorems about runs are about this class.
* `Deeds` and `Tables` say the same once more from the outside: tables, read before a call, of what it does to orders,
  ledger, events, users and payouts, in terms of rows and fields and not of the functions of the first layer.
  `DeedsProofs` and `Tables` prove that every call does exactly that; `Charges` and `Consequences` draw on it.
* `OrderInvariant`, `OrderPostings`, `Evolution` and `MarketInvariant` prove what every call keeps; `Theorems`,
  `LifeCycle`, `Balances`, `ReleaseConditions`, `DisputeGuard` and `Resolution` draw the conclusions over all runs, and
  `Sale` and `SplitSale` follow one sale from checkout to release.

`ConcurrentRelease` splits a release into read, cash-out and commit and lets any number of calls interleave;
`ReleaseInFlight` says what else can come in between. The other modules stand alone: `CanonicalJson`,
`CanonicalJsonText`, `CanonicalJsonProofs` and `WebhookIdentity` (the printer that identifies a webhook payload),
`Sessions`, `SessionRuns` and `Authentication`, `RateLimiter`, `Inventory` and `Coupons`; `WalletSummary` shows what the
ledger adds up to on the screens.

## What the proofs show about the code

* Held money can go below zero, but only in a refunded order: a full refund takes out the latest payment's whole amount
  without looking at what is held. `FullRefundOverdrawsIff` gives the exact condition and
  `RefundOfUnpaidOrderOverdraws` a run in which it happens.
* The reversal of a partner commission never fires: refunds reverse it only before a release, and it is earned only at
  a release. A chargeback after the release leaves it with the partner (`CommissionOnce`).
* A chargeback can be asked for any number of times, and each time takes the amount from the seller again; a refund out
  of escrow happens once (`RefundAgain`).
* The commission is bounded by the attributed fee; the fee actually taken can be lower after partial refunds
  (`CommissionCoveredIff`, and `UncoveredCommission` for a case).
* A webhook job that fails can still leave the payment confirmed: stock is reserved after the transaction has committed
  (`FailedJobChangesIff`, `FailedJobCommitsPayment`, `FailedJobWitness`). Such an order can then only be refunded
  (`StuckWithoutStock`).
* Concurrent releases record at most one release and ask the provider for one and the same transfer. But when its answer
  is lost and no other call gets past its cash-out, the seller has been paid while the money is still held and
  refundable (`PaidIsRecordedIff`, `LostAnswerPaysUnrecorded`).
* The commit phase of a release trusts what was read before the cash-out. A refund that lands in between leaves the
  escrow short (`CommitClosesEscrowIff`, `RefundInFlightOverdraws`), a full refund does not stop the release
  (`RefundedIsReleasedIffReadBefore`), and neither does a dispute (`CommitReleasesDisputedIff`, `DisputeInFlight`).
* `resolveDispute` commits each of its transactions separately; a later failure does not undo an earlier one. The
  invariants hold in between all the same.
* The fee rate of a listing is only checked to be an integer. The seller's share is max(price - base fee, 0) for all of
  them, and price - base fee exactly when the base fee is within the price.
* The administration is shown only the fees that sellers paid; the platform's own payouts are limited by the fees of
  all users, so it can send more than it is shown once somebody else has paid a fee (`AdminShowsTheFees`).
* Buyer and seller may be the same user; `OrderBookIdentity` says what changes then.
* The fixed window of the message limiter lets through at most 2 * max - 1 messages in any window-long interval, one
  fewer than two full windows, and that many can get through.
* A logout with a token already replaced leaves the live token unrevoked; the revoked session is what keeps it from
  being used (`LogoutEnds`).
* Of the two ways to block a user, the security desk's leaves sessions and tokens alone (`BlocksDiffer`).
* A refresh that read the account before the second factor was enabled still extends the session
  (`LateRefreshIgnoresMfa`).
* The unconditional increment for a coupon with limit 0 is never reached (`LimitHolds`).
* The dates of a coupon cannot be cleared: setting one to null leaves it (`Coupons.NewDate`).
* Lowering a coupon's limit does not bind the checkouts under way (`StaleReadingOvershootsIff`, `LoweredLimitIsPassed`).
* Two overlapping adds of one stock code can both write it; there is no unique constraint
  (`OverlappingAddsIff`, `OverlappingAddsClash`).

## Assumptions

* Each transaction is atomic, and outside `ConcurrentRelease`, `ReleaseInFlight`, `SessionRuns` and `Coupons` so is each
  service call.
* The ledger has one currency, BRL, except in `WalletSummary`. Amounts are integer cents without a 32-bit limit;
  `Math.round(x / 10000)` is the floor of (x + 5000) / 10000.
* New ids are fresh, and ids of rows that are never deleted may be their position: a txid is an order and the position
  of the payment among the order's payments. An order has one item, as checkout creates it.
* Clocks, stock, the Pix provider's answers and password checks are inputs of the calls.
* A finite JSON number is represented by its printed text; distinct finite numbers print differently, and -0 prints as 0.
* Every refresh token belongs to a session, as every place that creates one sees to.

## Model

| member | source | states |
|---|---|---|
| Theorems.OrderBookIdentity | apps/api/src/modules/settlement/settlement.service.ts:260-341 | In every reachable state the seller's signed rows of an order equal what was ever confirmed less fees and payouts, plus the buyer's own rows when buyer and seller are one |
| Theorems.HeldNeverNegative | apps/api/src/modules/settlement/settlement.service.ts:182-202 | The held balance of a seller order is never negative unless the order is refunded |
| Theorems.EscrowCloses | apps/api/src/modules/settlement/settlement.service.ts:247-286 | From the release on, over any further run, the held balance is 0, there is one release, and every later row of the order is a chargeback row |
| Theorems.FullRefundOverdrawsIff | apps/api/src/modules/settlement/settlement.service.ts:417-560 | A full refund takes held money below zero exactly when less is held than the latest payment's amount |
| Theorems.RefundOfUnpaidOrderOverdraws | apps/api/src/modules/settlement/settlement.service.ts:417-560 | A reachable state in which that happens: the provider has reported the payment, and the order is refunded before the job that confirms it |
| Theorems.CouponsNeverCostTheSeller | apps/api/src/modules/orders/orders.service.ts:128-155 | From checkout through any run: with one confirmed payment and no partial refund a released order nets the seller max(price - undiscounted fee, 0), whatever coupon or partner was used, and a Pix payout is all of it or nothing |
| Theorems.ReleaseConserves | apps/api/src/modules/settlement/settlement.service.ts:195-226 | Partial refunds, fee and seller's net use up exactly what was paid, and so does the payout when one was made |
| Theorems.CreditedAtMostOnce | apps/api/src/modules/webhooks/webhooks.processor.ts:50-229 | Over any run, held credits and top-up credits of a payment together number 1 if it was ever confirmed and 0 if not |
| Theorems.FailedJobChangesIff | apps/api/src/modules/webhooks/webhooks.processor.ts:50-285 | A failing webhook job changes the database exactly when it first commits the payment of an automatic order that is out of stock; then the event is done with, the payment confirmed and held, and the order in delivery |
| Theorems.FailedJobCommitsPayment | apps/api/src/modules/webhooks/webhooks.processor.ts:50-285 | What such a job leaves: the event done with, the payment confirmed, its held credit booked, the order in delivery, and nothing else changed |
| Theorems.FailedJobWitness | apps/api/src/modules/webhooks/webhooks.processor.ts:231-260 | A reachable state in which a job fails this way |
| LifeCycle.StuckWithoutStock | apps/api/src/modules/orders/orders.service.ts:667-690 | An automatic order in delivery stays so over any run until it is refunded: it can be neither delivered nor cancelled nor disputed |
| Theorems.WebhookIdempotent | apps/api/src/modules/webhooks/webhooks.processor.ts:59-61 | A job run again after success changes nothing and succeeds |
| Theorems.NoUnauthorisedOverdraft | apps/api/src/modules/wallet/wallet.service.ts:153-202 | A user's spendable balance is at least minus the manual chargebacks and negative adjustments booked to the user, in every reachable state |
| Theorems.PlatformSendsOnlyFees | apps/api/src/modules/wallet/wallet.service.ts:652-675 | Sent platform payouts never exceed the fees booked |
| Theorems.RefundedIsNeverReleased | apps/api/src/modules/settlement/settlement.service.ts:150-180 | Over any run of whole calls an order refunded out of escrow stays refunded and unreleased |
| Theorems.LogIsFaithful | apps/api/src/modules/orders/orders.service.ts:1088-1149 | The log of a seller order begins with its creation, replays to the current status, and only grows |
| Theorems.LifeCycleIsBounded | apps/api/src/modules/orders/orders.service.ts:402-411 | PAID is never seen between calls, and the log of a seller order holds at most 8 changes of status |
| Theorems.StatusChangesBounded | apps/api/src/modules/orders/orders.service.ts:805-829 | Over any run every change of status uses up some of a measure that starts at 8 or less |
| Theorems.CommissionOnce | apps/api/src/modules/settlement/settlement.service.ts:304-325 | An order earns its partner at most one commission, only after release, never negative and within the attributed fee; the sum is 0 or the attributed commission, because the reversals never fire |
| Theorems.CommissionCoveredIff | apps/api/src/modules/settlement/settlement.service.ts:224-226 | The commission is within the fee actually taken exactly when it is within the money released |
| SplitSale.UncoveredCommission | apps/api/src/modules/settlement/settlement.service.ts:304-325 | A reachable state in which it is not: a fee of 10 cents and a commission of 500 |
| SplitSale.DisputedSaleSplits | apps/api/src/modules/disputes/disputes.service.ts:140-214 | From any reachable state, a sale disputed on delivery and split releases what the buyer does not get back and earns the whole attributed commission |
| LifeCycle.ReachableMovesAreLegal | apps/api/src/modules/orders/orders.service.ts:393-545 | No call changes any order but its own, and its own order's status only as one table allows: which call, by whom, from where to where |
| LifeCycle.UserCallSucceedsIff | apps/api/src/modules/orders/orders.service.ts:393-545 | Cancelling, marking delivered, confirming receipt and opening a dispute succeed exactly when that table allows the move, make it, and otherwise change nothing |
| DisputeGuard.OpenDisputeBlocksRelease | apps/api/src/modules/settlement/settlement.service.ts:153-163 | While a dispute is open, no whole call but its own resolution releases the order; what a release already under way can do is stated by ReleaseInFlight.CommitReleasesDisputedIff |
| DisputeGuard.OpenDisputeHolds | apps/api/src/modules/disputes/disputes.service.ts:68-214 | Over any run of whole calls that does not resolve it, an open dispute stays open and the order as unreleased as it was |
| Resolution.ResolutionIsFinal | apps/api/src/modules/disputes/disputes.service.ts:295-328 | A successful resolution has refunded or released the order and closes the dispute with its outcome; over any run the outcome stays and no second resolution is admitted |
| ReleaseConditions.ReleasesIff | apps/api/src/modules/settlement/settlement.service.ts:136-258 | A release succeeds and closes the escrow exactly when the order is completed and undisputed, something is held, nothing released, and the cash-out admitted: split mode, or a seller with key and without block and a provider that pays what there is to pay; otherwise it changes nothing |
| MarketInvariant.NextKeeps | apps/api/src/modules/settlement/settlement.service.ts:129-950 | Every service call, successful or not, keeps the invariant of all orders, the balances and the history of every order |
| MarketInvariant.ReleaseIsAffordable | apps/api/src/modules/settlement/settlement.service.ts:260-341 | Fee and payout rows of a release never take more than the release gives |
| OrderPostings.PlanIsSound | apps/api/src/modules/settlement/settlement.service.ts:136-211 | The read phase of a release plans to move exactly the order's positive held balance, to its seller |
| OrderPostings.ReleaseKeeps | apps/api/src/modules/settlement/settlement.service.ts:247-356 | The rows and the log row of a release keep everything known of an order: row shapes, sums, payments, log |
| OrderPostings.WebhookKeeps | apps/api/src/modules/webhooks/webhooks.processor.ts:88-229 | A confirmation, its credit and its log rows keep everything known of an order |
| OrderPostings.WalletKeeps | apps/api/src/modules/wallet/wallet.service.ts:168-228 | So does a payment with wallet balance |
| OrderPostings.FullRefundKeeps | apps/api/src/modules/settlement/settlement.service.ts:488-590 | So does a full refund |
| OrderPostings.ChargebackKeeps | apps/api/src/modules/settlement/settlement.service.ts:857-905 | So does a manual chargeback |
| OrderPostings.PartialKeeps | apps/api/src/modules/settlement/settlement.service.ts:691-764 | So does a partial refund |
| Orders.ReplayChains | apps/api/src/modules/orders/orders.service.ts:1088-1111 | In a log that replays, each status row starts from where the one before it ended |
| Orders.ReplayLast | apps/api/src/modules/orders/orders.service.ts:1134-1149 | and the last status row gives the status |
| Sale.SaleGoesThrough | apps/api/src/modules/webhooks/webhooks.processor.ts:50-229 | From any reachable state, a checkout above price zero for a seller who can be paid goes through charge, webhook, delivery, receipt and release: one confirmed payment, nothing left held, and the payout is all but the fee |
| Sale.Releases | apps/api/src/modules/settlement/settlement.service.ts:129-406 | A completed, undisputed order with its held credit is released in one call |
| Balances.BalancesMoveByTheTable | apps/api/src/modules/settlement/settlement.service.ts:129-950 | Every call moves every user's spendable balance by exactly what one table says: who gains or pays how much for a top-up, a wallet payment, a release, a refund, a chargeback, a payout or an adjustment, and 0 for everyone else |
| Balances.PayAndRefundCostsTheFee | apps/api/src/modules/settlement/settlement.service.ts:417-560 | Paying from the wallet and being refunded in full costs the buyer the refund fee, min(amount, 30) below 2500 cents and else nothing, and nobody else anything |
| Balances.ReleaseMovesBalance | apps/api/src/modules/settlement/settlement.service.ts:217-341 | A release leaves the seller's share in the balance, or nothing when it is paid out at once |
| DeedsProofs.CallsDoTheirDeeds | apps/api/src/modules/settlement/settlement.service.ts:129-950 | The master table: read before the call, it says which deeds a call does to which order; after any call every order is the old one with these deeds done (status, payments, log, dispute, commission), and the ledger has grown by exactly their rows |
| Tables.OtherTablesFollow | apps/api/src/modules/wallet/wallet.service.ts:370-465 | The same for all other tables: webhook events, users with their payout blocks, payout rows with scope, amount and outcome, partners and settings |
| Tables.OnlyTheseCreate | apps/api/src/modules/orders/orders.service.ts:76-203 | Orders are added by checkouts and top-ups alone, the one named, and never lost |
| Tables.CreatedByTerms | apps/api/src/modules/orders/orders.service.ts:76-203 | When a checkout is accepted, and its whole order: total, discount, fee and commission by arithmetic on price, rates and coupon alone |
| Tables.ToppedUpByTerms | apps/api/src/modules/wallet/wallet.service.ts:92-117 | A top-up order stays, without a charge, when the provider declines; otherwise it has the one pending charge |
| Consequences.RepliesByTheTable | apps/api/src/modules/settlement/settlement.service.ts:129-950 | Every call succeeds exactly when a table of conditions, read before it, says so |
| Consequences.FeesAndPayoutsByTheTable | apps/api/src/modules/wallet/wallet.service.ts:413-437 | What each call adds to the fees and to the payouts: a user payout adds its cents to the payouts and 100 to the fees if instant, a release its fee and what is paid out, nothing else anything |
| Consequences.FeesStayAvailable | apps/api/src/modules/settlement/settlement.service.ts:260-285 | Over any run every fee in the ledger is available |
| Consequences.RefundBlocksTheSeller | apps/api/src/modules/settlement/settlement.service.ts:847-855 | Refunding a released order blocks its seller and nobody else; a refund out of escrow changes no user |
| Consequences.BlockLasts | apps/api/src/modules/settlement/settlement.service.ts:847-855 | The block lasts over any run in which the user is not edited by an administrator |
| Consequences.BlockedIsNotPaid | apps/api/src/modules/wallet/wallet.service.ts:612-627 | While it lasts the user's payouts are refused and no order of theirs is released for cash-out |
| Consequences.RefundAgain | apps/api/src/modules/settlement/settlement.service.ts:417-618 | Asked for again, a refund out of escrow changes nothing, while a chargeback takes the same amount from the seller once more |
| Charges.WalletPaymentEndsCharges | apps/api/src/modules/wallet/wallet.service.ts:168-190 | After a wallet payment no charge of the order is pending; the earlier payments keep amount and confirmation, those not pending are unchanged, and the wallet's confirmed payment is added |
| Charges.OneChargeAtATime | apps/api/src/modules/payments/payments.service.ts:45-91 | In every reachable state an order has at most one pending charge, and none in delivery, delivered, completed or disputed |
| ConcurrentRelease.ConcurrentReleasesAreSafe | apps/api/src/modules/settlement/settlement.service.ts:136-258 | For any interleaving of reads, cash-outs and commits, with answers lost and the status changing meanwhile: at most one release is recorded, all requests are equal, and a deduplicating provider pays at least what is recorded; the two are equal once the release is there, and when all calls have ended without a lost answer |
| ConcurrentRelease.PaidIsRecordedIff | apps/api/src/modules/settlement/settlement.service.ts:228-258 | When all calls have ended, recorded and paid amounts agree exactly when some call got past its cash-out or no answer was lost |
| ReleaseInFlight.LostAnswerPaysUnrecorded | apps/api/src/modules/payments/payments.service.ts:111-129 | A single call whose answer is lost pays the seller, records nothing, and leaves the money held and refundable |
| ReleaseInFlight.CommitReleasesDisputedIff | apps/api/src/modules/settlement/settlement.service.ts:247-258 | In a run disputed but not released, the commit of a call releases exactly when the call got past its cash-out with a plan read before the dispute was opened, or was told to ignore disputes |
| ReleaseInFlight.DisputeInFlight | apps/api/src/modules/settlement/settlement.service.ts:247-258 | It happens: a dispute opened between read and commit ends open with the order released |
| ReleaseInFlight.RefundedIsReleasedIffReadBefore | apps/api/src/modules/settlement/settlement.service.ts:247-258 | Around a full refund, a release that read before it releases the refunded order and overdraws the escrow; one that reads after it is refused |
| ConcurrentRelease.PaidOnce | apps/api/src/modules/payments/payments.service.ts:111-129 | A provider that answers a repeated key with the first transfer pays once, however many equal requests it gets |
| ConcurrentRelease.CommitClosesEscrowIff | apps/api/src/modules/settlement/settlement.service.ts:247-286 | The commit phase brings the held balance to 0 exactly when that balance is still the one that was read |
| ConcurrentRelease.RefundInFlightOverdraws | apps/api/src/modules/settlement/settlement.service.ts:620-718 | A partial refund landing between read and commit leaves the escrow short by its amount |
| Attribution.CouponNeverCostsSeller | apps/api/src/modules/orders/order-attribution.helpers.ts:25-36 | The seller's share of a full release is max(price - undiscounted fee, 0), for every discount and any fee rate |
| Attribution.SellerShareIgnoresCoupon | apps/api/src/modules/orders/order-attribution.helpers.ts:25-36 | Checkouts that differ only in coupon and partner pay the seller the same |
| Attribution.SellerGetsPriceLessFeeIff | apps/api/src/modules/orders/order-attribution.helpers.ts:25-36 | The share is price less base fee exactly when the base fee is within the price |
| Attribution.DiscountComesOutOfTheFee | apps/api/src/modules/orders/order-attribution.helpers.ts:28-36 | What the buyer saves is what the platform gives up, for every fee between 0 and the price |
| Attribution.TotalsByArithmetic | apps/api/src/modules/orders/order-attribution.helpers.ts:25-36 | Fee, discount, total and commission by inequalities on the terms: the discount is the cents, else the nearest whole number of cents to the percentage of the price, and at most the fee |
| Attribution.CommissionWithinFee | apps/api/src/modules/orders/order-attribution.helpers.ts:32-35 | The commission is never negative and never above the final fee |
| Attribution.ReleaseSpendsHeld | apps/api/src/modules/settlement/settlement.service.ts:221-226 | Fee and seller's share use up the held balance exactly |
| Services.Marketplace.CreateHeldEntry | apps/api/src/modules/settlement/settlement.service.ts:92-127 | Appends one held credit unless the payment has one |
| Services.Marketplace.FindRelease | apps/api/src/modules/settlement/settlement.service.ts:170-180 | Finds out whether the order has an available credit of its payment |
| Services.Marketplace.HeldBalance | apps/api/src/modules/settlement/settlement.service.ts:182-202 | Sums the signed held rows of the order and finds the first credit among them |
| Services.Marketplace.PlanRelease | apps/api/src/modules/settlement/settlement.service.ts:136-211 | The read phase of a release, with every refusal |
| Services.Marketplace.BookRelease | apps/api/src/modules/settlement/settlement.service.ts:247-356 | The rows, commission and log row of the commit phase, or nothing if a release is there |
| Services.Marketplace.EarnPartnerCommission | apps/api/src/modules/settlement/settlement.service.ts:304-325 | Appends the commission once, for an active partner |
| Services.Marketplace.ReversePartnerCommission | apps/api/src/modules/settlement/settlement.service.ts:562-589 | Appends the reversal once, after an earned commission |
| Services.Marketplace.ReleaseOrder | apps/api/src/modules/settlement/settlement.service.ts:129-406 | The whole call moves the database as the value-level release does, and the reply agrees |
| Services.Marketplace.RefundOrder | apps/api/src/modules/settlement/settlement.service.ts:417-618 | The same for a full refund, including the chargeback branch and the provider refund |
| Services.Marketplace.RefundOrderPartial | apps/api/src/modules/settlement/settlement.service.ts:620-804 | The same for a partial refund |
| Services.Marketplace.HandleChargebackManual | apps/api/src/modules/settlement/settlement.service.ts:806-950 | Rows, status, log and payout block of a manual chargeback |
| Services.Marketplace.CreateOrder | apps/api/src/modules/orders/orders.service.ts:76-203 | Refuses an unpublished listing and missing stock; otherwise writes an order with its attribution and its two first log rows |
| Services.Marketplace.CancelOrder | apps/api/src/modules/orders/orders.service.ts:393-423 | Only the buyer, only while unpaid |
| Services.Marketplace.ConfirmReceipt | apps/api/src/modules/orders/orders.service.ts:425-461 | Only the buyer, only when delivered |
| Services.Marketplace.OpenDispute | apps/api/src/modules/orders/orders.service.ts:463-545 | Only the buyer, only when delivered or completed, once |
| Services.Marketplace.AddDeliveryEvidence | apps/api/src/modules/orders/orders.service.ts:600-665 | Only a note in the log, for manual orders in delivery |
| Services.Marketplace.MarkOrderDelivered | apps/api/src/modules/orders/orders.service.ts:667-775 | By the seller or an administrator, for manual orders in delivery |
| Services.Marketplace.ApplyPaymentConfirmation | apps/api/src/modules/orders/orders.service.ts:785-843 | Two logged changes of status, or none if already confirmed, or a refusal |
| Services.Marketplace.HandlePaymentSideEffects | apps/api/src/modules/orders/orders.service.ts:845-900 | Reserves stock, then delivers an automatic order |
| Services.Marketplace.HandleOrderExpiration | apps/api/src/modules/orders/orders.service.ts:902-939 | Cancels an unpaid order past its expiry |
| Services.Marketplace.HandleAutoComplete | apps/api/src/modules/orders/orders.service.ts:941-978 | Completes a delivered order without dispute |
| Services.Marketplace.HandleProcess | apps/api/src/modules/webhooks/webhooks.processor.ts:40-285 | A webhook job: duplicate, ignored, refused, or confirmed and credited |
| Services.Marketplace.ConfirmPaymentOf | apps/api/src/modules/webhooks/webhooks.processor.ts:79-229 | The transaction of a job, with held entry or top-up credit |
| Services.Marketplace.RegisterWebhook | apps/api/src/modules/webhooks/webhooks.service.ts:39-68 | One event row per event key |
| Services.Marketplace.CreatePixCharge | apps/api/src/modules/payments/payments.service.ts:45-109 | Reuses the pending charge of a payable order or adds one |
| Services.Marketplace.CreateTopupPix | apps/api/src/modules/wallet/wallet.service.ts:92-117 | A top-up order with its charge |
| Services.Marketplace.AvailableBalance | apps/api/src/modules/wallet/wallet.service.ts:153-166 | Sums the user's signed available rows |
| Services.Marketplace.PayOrderWithBalance | apps/api/src/modules/wallet/wallet.service.ts:119-268 | Expires pending charges, debits the buyer and holds the money, if the balance suffices |
| Services.Marketplace.CreateUserPayout | apps/api/src/modules/wallet/wallet.service.ts:370-465 | Refuses blocked or young accounts and missing balance; otherwise sends and debits amount and fee |
| Services.Marketplace.CreatePlatformPayout | apps/api/src/modules/wallet/wallet.service.ts:652-723 | Sends at most fees less what was sent |
| Services.Marketplace.AdjustBalance | apps/api/src/modules/security/security.service.ts:87-108 | One available row of the given sign |
| Services.Marketplace.ResolveDispute | apps/api/src/modules/disputes/disputes.service.ts:68-214 | Refund, release or split, each transaction committing by itself |
| Services.Marketplace.Serve | apps/api/src/modules/settlement/settlement.service.ts:129-950 | Serving calls one after the other, in place, is a run of the value model; so every theorem about runs holds of the object, whose invariant every method keeps |
| Services.Marketplace.Call | apps/api/src/modules/orders/orders.service.ts:76-978 | Any one call does to the tables what its step does to the value, reply included |
| CanonicalJsonProofs.CanonicalTextIffSameMeaning | apps/api/src/modules/webhooks/webhooks.service.ts:154-173 | Two payloads have one canonical text exactly when they are equal up to key order at every depth |
| CanonicalJsonProofs.SameTextSameMeaning | apps/api/src/modules/webhooks/webhooks.service.ts:159-173 | The printer is injective and prefix-safe: a value and the text after it are both determined |
| CanonicalJsonProofs.EscapeUnique | apps/api/src/modules/webhooks/webhooks.service.ts:164-171 | A quoted string and the text after it are determined, whatever the string holds |
| CanonicalJsonProofs.SameMeaningSameText | apps/api/src/modules/webhooks/webhooks.service.ts:169-172 | Payloads that mean the same print the same |
| CanonicalJsonProofs.KeyOrderIsIrrelevant | apps/api/src/modules/webhooks/webhooks.service.ts:170-172 | Listing the same fields in another order changes nothing |
| CanonicalJsonProofs.SortSorts | apps/api/src/modules/webhooks/webhooks.service.ts:170 | Sorting keys orders them and keeps each as often as it was |
| CanonicalJsonText.CanonicalTextIsJson | apps/api/src/modules/webhooks/webhooks.service.ts:159-173 | The text is JSON for the payload by the grammar of RFC 8259: items in their order, fields in the order of their names, every string readable |
| CanonicalJsonText.DecodeEscape | apps/api/src/modules/webhooks/webhooks.service.ts:164-171 | Reading an escaped string by the escapes of RFC 8259 gives the string back, lone surrogates included |
| CanonicalJsonText.PlainUnescaped | apps/api/src/modules/webhooks/webhooks.service.ts:164-171 | Characters that need no escape stand for themselves |
| CanonicalJsonText.BeforeByCodeUnits | apps/api/src/modules/webhooks/webhooks.service.ts:170 | The sort order compares names by code units, a prefix before what it begins |
| WebhookIdentity.SameEventIff | apps/api/src/modules/webhooks/webhooks.service.ts:27-38 | Payloads without numbers out of range are filed under one key exactly when they mean the same |
| WebhookIdentity.TxidByPlace | apps/api/src/modules/webhooks/webhooks.service.ts:124-141 | A text at txid is the txid, failing that one at pix[0].txid, failing that one at cob.txid, and nothing else |
| WebhookIdentity.IdByPlace | apps/api/src/modules/webhooks/webhooks.service.ts:118-122 | The id is the first of id, eventId, webhookId and endToEndId that is there and not null, if it is a text |
| WebhookIdentity.AcceptedIff | apps/api/src/modules/webhooks/webhooks.service.ts:27-38 | An object is accepted exactly when that txid or that id is a non-empty text, and which of them becomes the base id |
| WebhookIdentity.PixNoticeAccepted | apps/api/src/modules/webhooks/webhooks.service.ts:124-141 | The provider's usual notice, a pix array whose first item has a txid, is accepted under that txid |
| WebhookIdentity.OutOfRangeId | apps/api/src/modules/webhooks/webhooks.service.ts:118-122 | With such a number in the place of an id, equal texts can get different base ids |
| Authentication.AuthService.Issue | apps/api/src/modules/auth/auth.service.ts:413-445 | A session and its first token with the same expiry |
| Authentication.AuthService.Refresh | apps/api/src/modules/auth/auth.service.ts:93-142 | Every refusal; and an uninterrupted refresh that is admitted succeeds |
| Authentication.AuthService.RotateRefreshToken | apps/api/src/modules/auth/auth.service.ts:447-490 | Revokes the token if it still can, adds its successor, and moves the expiry of a live session |
| Authentication.AuthService.LogoutToken | apps/api/src/modules/auth/auth.service.ts:153-177 | Revokes the token given and its session |
| Authentication.AuthService.RevokeOne | apps/api/src/modules/auth/auth.service.ts:324-352 | Revokes a session and its tokens, for its owner or an administrator |
| Authentication.AuthService.LogoutAllSessions | apps/api/src/modules/auth/auth.service.ts:354-384 | Revokes a user's sessions and tokens, except those of the session in use |
| SessionRuns.RevokesByTheTable | apps/api/src/modules/auth/auth.service.ts:153-384 | Every call other than login and refresh revokes exactly the sessions and tokens that two tables name, changes no expiry, and edits at most the one account |
| SessionRuns.LiveTokenRefreshes | apps/api/src/modules/auth/auth.service.ts:93-142 | A token is admitted exactly while it, its session and its account are in order; then its successor and the session end together, after a full term or at the earlier end that the second factor sets |
| SessionRuns.ExpiredNeverRefreshes | apps/api/src/modules/auth/auth.service.ts:101-119 | A token past its expiry is never admitted after any run |
| SessionRuns.LoginTerm | apps/api/src/modules/auth/auth.service.ts:509-517 | A login lasts a full term, or 21 days if that is shorter and the account has a second factor |
| SessionRuns.ResetAcceptedIff | apps/api/src/modules/auth/auth.service.ts:179-241 | A reset token is accepted, after any run, exactly within the hour and if no reset used it within the hour before |
| Authentication.AuthService.ResetWithToken | apps/api/src/modules/auth/auth.service.ts:214-260 | Uses the reset token and revokes everything of its user |
| Authentication.AuthService.ReplacePassword | apps/api/src/modules/auth/auth.service.ts:262-295 | Revokes everything of the user when the old password is right |
| SessionRuns.RotationIsAChain | apps/api/src/modules/auth/auth.service.ts:460-487 | Under any interleaving: one successor per token, one live token per session, and tokens of a session in one chain |
| SessionRuns.RevokedNeverRefreshes | apps/api/src/modules/auth/auth.service.ts:106-119 | Over any run a token revoked, or of a revoked session, is never admitted; an earlier admission fails at its transaction |
| SessionRuns.DeadStaysDead | apps/api/src/modules/auth/auth.service.ts:338-349 | A session revoked with its tokens gets no token ever after, whatever was under way |
| SessionRuns.RevocationKills | apps/api/src/modules/auth/auth.service.ts:233-257 | Revoking, resetting, changing the password, blocking and logging out everywhere leave the sessions concerned in that state |
| SessionRuns.BlocksDiffer | apps/api/src/modules/security/security.service.ts:127-139 | A block by the security desk refuses refreshes only while it lasts; a block in the user administration ends the tokens for good |
| SessionRuns.LogoutEnds | apps/api/src/modules/auth/auth.service.ts:162-174 | After a logout at most one more token appears in the session, and no token of it is ever admitted |
| SessionRuns.ResetWorksOnce | apps/api/src/modules/auth/auth.service.ts:227-241 | A reset token is accepted once over any run |
| SessionRuns.MfaSessionEnds | apps/api/src/modules/auth/auth.service.ts:509-517 | However often refreshed, a session of an account with a second factor and all its tokens expire within 21 days of login |
| SessionRuns.MfaFreezesSession | apps/api/src/modules/auth/auth.service.ts:125-134 | Enabling the second factor stops the expiry from growing, unless a refresh has read the account before |
| SessionRuns.LateRefreshIgnoresMfa | apps/api/src/modules/auth/auth.service.ts:452-456 | That one refresh still gets a full term |
| SessionRuns.PlainSessionGoesOn | apps/api/src/modules/auth/auth.service.ts:452-486 | Without a second factor each refresh starts a full term again |
| RateLimiter.Limiter.Check | apps/api/src/modules/chat/chat.rate-limiter.ts:22-51 | A rejected call changes nothing; an accepted one only the entry of its key |
| RateLimiter.SlidingWindowBound | apps/api/src/modules/chat/chat.rate-limiter.ts:22-51 | Over any run with a running clock, any half-open interval of one window holds at most 2 * max - 1 accepted calls of a key |
| RateLimiter.BoundIsReached | apps/api/src/modules/support-chat/support-chat.rate-limiter.ts:22-51 | The bound is the best one |
| RateLimiter.ChatsReachTheBound | apps/api/src/modules/support-chat/support-chat.rate-limiter.ts:17-19 | Under both chats' limits: 59 and 39 messages in one minute |
| RateLimiter.SpacedInsideWindow | apps/api/src/modules/chat/chat.rate-limiter.ts:29-35 | Accepted calls in one window are at least the minimum interval apart |
| RateLimiter.FullWindowRetry | apps/api/src/modules/chat/chat.rate-limiter.ts:37-43 | The wait given for a full window is exact |
| RateLimiter.HastyRetry | apps/api/src/modules/chat/chat.rate-limiter.ts:29-35 | Before the wait given for haste is over, a call is accepted exactly when the window has ended |
| Inventory.InventoryService.AddInventoryItems | apps/api/src/modules/listings/inventory.service.ts:20-49 | Adds one available unit per new code and reports created and skipped |
| Inventory.InventoryService.RemoveInventoryItem | apps/api/src/modules/listings/inventory.service.ts:56-69 | Disables the unit |
| Inventory.InventoryService.UpdateInventoryItem | apps/api/src/modules/listings/inventory.service.ts:89-136 | Changes code and status; an available unit gives up its order item |
| Inventory.EditsTakeEffect | apps/api/src/modules/listings/inventory.service.ts:56-136 | When an update and a removal go through, and what they do to the one unit they touch |
| Inventory.Trimmed | apps/api/src/modules/listings/inventory.service.ts:220-222 | Trimming takes white space off both ends, all of it, and nothing else |
| Inventory.InventoryService.ReserveInventoryItem | apps/api/src/modules/listings/inventory.service.ts:138-194 | The unit already held, or any free one, or the refusal |
| Inventory.Normalized | apps/api/src/modules/listings/inventory.service.ts:220-222 | The normalised codes are distinct and are just the trimmed codes that are not empty |
| Inventory.AddKeeps | apps/api/src/modules/listings/inventory.service.ts:20-49 | An add keeps the invariants, accounts for every code, and leaves every code in stock |
| Inventory.CreateManyKeepsDistinctIff | apps/api/src/modules/listings/inventory.service.ts:28-47 | Writing planned codes keeps them distinct exactly when none of them has appeared by then |
| Inventory.OverlappingAddsIff | apps/api/src/modules/listings/inventory.service.ts:28-47 | Two adds that both look before either writes keep codes distinct exactly when neither has anything to write |
| Inventory.OverlappingAddsClash | apps/api/src/modules/listings/inventory.service.ts:28-47 | On an empty stock they write one code twice, though each alone is fine |
| Inventory.RunKeeps | apps/api/src/modules/listings/inventory.service.ts:20-194 | Over any run codes of a listing differ, available units are unheld, no item holds two units, and a held unit stays until it is made available |
| Inventory.ReservationSticks | apps/api/src/modules/listings/inventory.service.ts:157-165 | Reserving again, however much later, returns the same unit and changes nothing |
| Inventory.OutOfStockIff | apps/api/src/modules/listings/inventory.service.ts:167-180 | Exactly when a reservation fails for want of stock |
| Coupons.CouponsService.CreateCoupon | apps/api/src/modules/coupons/coupons.service.ts:36-63 | Exactly one discount, an active partner, no uses |
| Coupons.UpdateChangesWhatIsNamed | apps/api/src/modules/coupons/coupons.service.ts:73-118 | An update touches one coupon, leaves what it does not name and the count, can be repeated, and naming one kind of discount takes the other away |
| Coupons.AdministrationAcceptsIff | apps/api/src/modules/coupons/coupons.service.ts:36-118 | When a creation and an update are accepted; a deletion is the update that switches the coupon off |
| Coupons.PartnersStand | apps/api/src/modules/coupons/coupons.service.ts:36-118 | Over any run a coupon's partner is a known one, and an active one as long as no partner is switched off |
| Coupons.DeletedCouponIsRefused | apps/api/src/modules/coupons/coupons.service.ts:179-191 | After a deletion, over any run that does not switch the coupon on again, no checkout is admitted with it; only those that read it before may still use it |
| Coupons.ValidCouponIff | apps/api/src/modules/coupons/coupons.service.ts:120-149 | The check admits a coupon that is on offer exactly when a checkout right away could use it, except that it refuses limit 0 |
| Coupons.CheckedCouponCanBeUsed | apps/api/src/modules/coupons/coupons.service.ts:120-170 | An order placed right after the check goes through, adds one use and stays within the limit |
| Coupons.CouponsService.ConsumeCouponUsage | apps/api/src/modules/coupons/coupons.service.ts:151-170 | The increment, conditional on the limit that was read |
| Coupons.CouponsService.UseCoupon | apps/api/src/modules/orders/orders.service.ts:111-155 | The use and the attribution of the order come together or not at all, so the count stays the number of orders |
| Coupons.UsesAreOrders | apps/api/src/modules/orders/orders.service.ts:111-155 | Over every run a coupon's count is the number of orders attributed to it |
| Coupons.LimitHolds | apps/api/src/modules/coupons/coupons.service.ts:120-170 | With a limit left alone, checkouts that read the coupon first never take it over |
| Coupons.StaleReadingOvershootsIff | apps/api/src/modules/coupons/coupons.service.ts:155-169 | A checkout passes a changed limit exactly when the coupon is used up and the limit it read is absent, zero or higher |
| Coupons.LoweredLimitIsPassed | apps/api/src/modules/coupons/coupons.service.ts:155-169 | A reachable state with more uses than the limit: it was lowered while a checkout was under way |
| Coupons.ExactlyTheRestSucceed | apps/api/src/modules/coupons/coupons.service.ts:163-169 | Of checkouts that all read before any used it, exactly as many succeed as uses were left |
| WalletSummary.BuildWalletSummary | apps/api/src/modules/wallet/wallet.utils.ts:20-42 | The loop gives the summary of its rows |
| WalletSummary.ReduceBalance | apps/api/src/modules/wallet/wallet.service.ts:163-166 | The reduce gives the signed total of its rows |
| WalletSummary.GetAdminSummary | apps/api/src/modules/wallet/wallet.service.ts:318-368 | One pass gives the signed sums by state, and the fees left after platform payouts, never below 0 |
| WalletSummary.SummaryIsBalance | apps/api/src/modules/wallet/wallet.utils.ts:20-42 | In whatever order the grouped rows come, the summary is the signed fold of the entries in the first row's currency |
| WalletSummary.RowOrderMattersIff | apps/api/src/modules/wallet/wallet.utils.ts:21 | Two orders of the rows agree exactly when they begin with the same currency, so always in a ledger of one currency |
| WalletSummary.PaymentSeesTheSummary | apps/api/src/modules/wallet/wallet.service.ts:153-166 | A wallet payment sees the available balance that the summary shows |
| WalletSummary.SummaryIsFold | apps/api/src/modules/wallet/wallet.service.ts:82-90 | A user's summary is the direct fold of the user's ledger rows, and shows the spendable balance of the marketplace model |
| WalletSummary.AdminSeesTheSellers | apps/api/src/modules/wallet/wallet.service.ts:325-363 | The totals of the administration's single pass are the sellers' own summaries added up, in whatever order each seller's grouped rows come |
| WalletSummary.AdminShowsTheFees | apps/api/src/modules/wallet/wallet.service.ts:318-368 | What the administration is shown as fees can always be sent to the platform; it is all that can be sent exactly when sellers alone have paid fees or nothing is left |

## Left out

- Orders for the verification fee, with payer matching and a refund path of their own.
- Refunds of top-up orders move no seller's money; only the wallet rows of top-ups are followed.
- Notifications, e-mails, audit rows, tickets, reviews, SMS and metrics: they touch neither money nor status.
- The queue: a job may run at any time and any number of times, so delays and job ids do not appear.
- Payout drafts and verification codes before a user payout, and the format of Pix keys: a payout is modelled from the
  point where it is confirmed, and a key is there or not.
- Database isolation weaker than serialisable, apart from the interleavings named above.
- Integer overflow of 32-bit columns.
- SHA-256, bcrypt and random tokens: event keys keep the canonical text instead of its digest.
- Names and normalisation of coupon codes; coupons are known by id.
- Splitting an imported stock list at separators, and the times at which units were reserved or delivered.
- MFA challenges and their attempt counts, registration and the OAuth logins; each ends in `Sessions.IssueTokens`.
- Catalog, community, chat storage, reports and the web front end.
- Services.Marketplace.CreateOrder: what it reads of listing, stock, coupon and partner is given with the call.
- Services.Marketplace.RefundOrder: the amount asked of the Pix provider in a refund goes out with the call and is not
  recorded in any table, so no property is stated about it.
- Services.Marketplace.HandlePaymentSideEffects: whether stock can be reserved is given with the call, with one kind of
  failure; the reservation itself is in `Inventory`.
- Services.Marketplace.HandleProcess: does not model orders for the verification fee, which are left out as a whole.
- Services.Marketplace.ConfirmPaymentOf: the same.
- Services.Marketplace.RegisterWebhook: the event key is abstract there; what it is made of, and which payloads are
  rejected, is in `WebhookIdentity`.
- Inventory.InventoryService.UpdateInventoryItem: making a unit available again detaches its order item, as intended;
  whether the database client accepts that nested write in a bulk update is not part of this model.
