# Verification model of the RIVÉ backend

A Dafny 4.11 model of the stateful core of the shop backend, with proofs. `dafny verify dfyconfig.toml` checks the
whole project.

## What is modelled

**Orders, stock, coupons and payments.** `Ledger.dfy` is one store (variants, coupons, orders, processed payment
events, outbox events) and one step per transaction: checkout, payment, COD collection, admin transition, customer
cancellation, expiry, Paymob webhook, refund, permanent deletion, the two reconciliation repairs, plus environment steps
(a transaction id linked by hand or by old data, and catalogue and coupon administration). A step first plans: its guards
decide the outcome, the effect on the tables, and the events. Then the plan commits. A transaction that throws plans to
keep everything. `OrderStore.dfy` holds the services as a class whose methods change the tables in place, with the loops,
conditional updates and rollbacks of the source; each method is proved to commit the plan of its ledger step.
`OrderSteps.dfy` says what every transaction does in the words of the tables, without the plans: when it goes through, and
then the row, the stock, the counters, the markers and the events. `LedgerInvariant.dfy` proves once, for all transactions, what their guards establish, so every later property is proved
for ten effects: conservation of stock and coupon uses (`Conservation.dfy`), replay of status and of stock from the outbox
(`OrderLife.dfy`, `StockReplay.dfy`), payments and exactly-once processing (`PaymentEvents.dfy`, `PaymentNotices.dfy`),
amounts (`Pricing.dfy`, `CheckoutTotals.dfy`), and the reconciliation run (`Reconciliation.dfy`).

**Outbox delivery.** `AgentOutbox.dfy` is a timed machine with any number of workers, crashes, resends and cleanup;
`OutboxSteps.dfy` says what each of its steps does, in milliseconds; `LeaseExclusion.dfy` and `RetrySchedule.dfy` prove
the lease and the schedule; `AgentEventsStore.dfy` is the service.

**Sign-in.** `Sessions.dfy` is refresh-token rotation with reads and conditional writes as separate steps; `Lockout.dfy`
is the lockout counter that the password and the second factor share, and the codes that are used up.

**Access administration.** `PermissionSync.dfy` is the migration to the fine-grained catalog; `LastAdmin.dfy` is the
guard that keeps one full_admin.

**Order lookups.** `TrackLimiter.dfy` is the sliding-window limiter.

## Results that are not simply "it holds"

- Lease exclusion holds in all runs with batches of at most n rows if and only if n times 10 s is less than the 5-minute
  lease, that is n <= 29 (`LeaseExclusion.ExclusionIffBatchFitsLease`). The immediate send uses 10; the cron endpoint
  passes 50 (src/agent-events/agent-events.controller.ts:64), and `LeaseExclusion.LargeBatchesCollide` gives the run in
  which two workers hold the same row. The comment at src/agent-events/agent-events.service.ts:186 that parallel workers
  never double-send is therefore true of batches up to 29.
- The lockout alone bounds wrong passwords, not wrong second factors. An accepted password clears the counter before the
  second factor is asked for (src/auth/auth.service.ts:330-336), so an account with a second factor evaluates any number
  of wrong codes at a single instant without a lock (`Lockout.SecondFactorIsNotRateLimited`): four wrong codes, the
  password, four wrong codes, and so on. In a period T without a sign-in, with R passwords accepted while the second
  factor was due, the true bound is 5 (T / 15 min + 1) + 4 R (`Lockout.WrongAttemptsAreBounded`), it is attained for
  every R (`Lockout.BoundIsReached`), and the bound without R holds for all runs with at most R such passwords if and
  only if R is 0 (`Lockout.PlainBoundIffNothingIsCleared`). Told from the account: it holds for all its runs if and only
  if it has no second factor (`Lockout.RateLimitedIffNoSecondFactor`).
- A reader of the outbox who adds up the stock deltas is right all along a run if and only if no step of it hides a
  change (`StockReplay.ReplayIsExactIffNothingHides`). Permanent deletion, the repair of a cancelled order and catalogue
  edits publish nothing; a deletion hides a change of a variant exactly when the order still holds its items and lists
  the variant with a positive quantity (`StockReplay.SilentIffHides`). `StockReplay.DeletionIsSilent` is an instance.
- The coupon counter is exact if no repair went over the limit; in general it misses one use for each over-limit repair,
  less one for each release that found it at 0 (`Conservation.CouponLedger`). Both occur in a run from an empty store
  (`CouponDrift.OverLimitRepairAndClampOccur`). It is within the usage limit all along a run
  if and only if no edit of the coupon sets the limit below it (`Conservation.LimitHoldsIffNeverLowered`).
- A percentage coupon above 100 is accepted by the code; the discount stays within the subtotal exactly otherwise
  (`Pricing.DiscountWithinSubtotal`).
- Counted from the first attempt a row ever had, and for rows never refused, the retry bound of 20 h 36 min holds in
  every run, with resends and with batches that outlast the lease (`RetrySchedule.RetryDiscipline`). Counted anew from
  each resend it holds in all runs with batches of at most n rows if and only if n timeouts fit the lease, again n <= 29
  (`RetrySchedule.SeriesKeptIffBatchFitsLease`): beyond, a worker that outlived its lease writes its old count into the
  new series and gives the resent row up at once (`RetrySchedule.StaleWorkerEndsTheSeries`).
- So is it with the finality of a delivered row (`LeaseExclusion.DeliveredIsFinalIffBatchFitsLease`): beyond 29 rows a
  delivered row can be queued and sent again (`LeaseExclusion.DeliveredRowIsSentAgain`).
- Any first notice of a Paymob transaction decides it. One that is not a success, such as one of a payment still pending,
  leaves the marker too (src/payment/paymob.service.ts:458-464), so a later confirmation of the same transaction and the
  repairs with it change nothing (`PaymentEvents.NoticeBlocksConfirmation`). A confirmation pays a payable order exactly
  when no earlier step committed the transaction (`PaymentEvents.ConfirmationPaysIffFirst`).
- No call takes anything from the last full_admin, not even one that empties the permissions of the full_admin role,
  which nothing forbids: the guard lets that role pass by its name (`LastAdmin.LastFullAdminKeepsEverything`). Anybody
  else loses access without being addressed exactly when the permissions of their role are replaced by too few
  (`LastAdmin.AccessIsLostOnlyByStripping`).
- The email of a deleted user can never be used again. The lookup does not find it, and the insert fails on the unique
  index with an error nothing handles (`LastAdmin.DeletedEmailIsLost`).

## Assumptions

Every database transaction is atomic. Generated ids are new. The unique indexes and foreign keys are those of the Prisma
schema. Outbox inserts succeed. Clocks do not go back. A delivery, with the write that ends it, takes at most the request
timeout. Identifiers are numbers, since only their equality matters; money is in piasters.

## Model

| member | source | states |
|---|---|---|
| `Pricing.RoundingIsNearest` | src/agent-events/agent-events.mapper.ts:20-25 | toPiasters leaves whole amounts alone, errs by at most half a piaster, and rounds exactly the halves up |
| `Pricing.DiscountWithinSubtotal` | src/orders/orders.service.ts:471-480 | a discount is within the subtotal exactly for fixed coupons, percentages up to 100, or an empty subtotal |
| `Pricing.TotalDrift` | src/orders/orders.service.ts:504-541 | the total covers the COD fee; unclamped, it misses the sum of the rounded parts by 1 piaster exactly when the discount is a half piaster, else by 0; clamped, only the COD fee is left |
| `Pricing.PreviewAgreesWithCheckout` | src/coupons/coupons.service.ts:138-184 | checkout accepts a coupon exactly when the preview does and the customer has uses left, with the same discount |
| `Pricing.FixedDiscount` | src/orders/orders.service.ts:471-480 | a fixed coupon takes off its value, at most the subtotal |
| `Pricing.PercentageDiscount` | src/orders/orders.service.ts:471-480 | a percentage coupon takes off that share of the subtotal, stored to the nearest piaster |
| `Pricing.CouponIsAccepted` | src/orders/orders.service.ts:409-466 | which coupons a checkout accepts, by their columns |
| `Pricing.QuotedFees` | src/orders/orders.service.ts:483-541 | shipping by zone and threshold, the COD fee of COD orders only, and the COD limit |
| `CheckoutTotals.SubtotalIsSumOfLines` | src/orders/orders.service.ts:388-391 | the subtotal is the sum of price times quantity |
| `CheckoutTotals.ChargedIff` | src/orders/orders.service.ts:388-541 | when the amounts of a checkout can be charged |
| `CheckoutTotals.CommittedAmounts` | src/orders/orders.service.ts:388-575 | the stored amounts of every committed checkout: the sum of its lines, the previewed discount and what is stored of it, shipping, COD fee, and a drift of 0 or 1 piaster |
| `CheckoutTotals.EventsCarryStoredTotal` | src/agent-events/agent-events.mapper.ts:70-82 | order references in events carry the stored total |
| `OrderModel.QuantityAt` | src/orders/orders.service.ts:298-304 | with duplicates refused, a variant's quantity in an order is that of its one item |
| `OrderModel.ContractNames` | src/agent-events/agent-events.mapper.ts:28-60 | the agent's name of every status |
| `OrderSteps.CheckoutDoes` | src/orders/orders.service.ts:280-614 | a checkout goes through exactly for a new key, a well-formed request, items on sale and in stock, and chargeable amounts; then the order, stock, coupon and events |
| `OrderSteps.CheckoutAnswers` | src/orders/orders.service.ts:280-541 | what each refused checkout answers |
| `OrderSteps.FirstBadItemDecides` | src/orders/orders.service.ts:345-360 | the first item not on sale decides between unknown and not for sale |
| `OrderSteps.CustomerUses` | src/orders/orders.service.ts:432-448 | which orders count against a customer's uses of a coupon |
| `OrderSteps.MarkPaidDoes` | src/orders/orders.service.ts:622-653 | an unpaid pending, confirmed or processing order becomes PAID and loses its reservation; anything else stays |
| `OrderSteps.CollectCodDoes` | src/orders/orders.service.ts:655-707 | a shipped or delivered COD order not yet paid is paid; anything else stays |
| `OrderSteps.TransitionDoes` | src/orders/orders.service.ts:50-70 | what every admin transition does, by the two statuses, and which are refused |
| `OrderSteps.CustomerCancelDoes` | src/orders/orders.service.ts:810-853 | COD orders until they ship and waiting ONLINE orders are cancelled, with their items and coupon use; anything else stays |
| `OrderSteps.ExpireDoes` | src/orders/orders.service.ts:855-879 | exactly a pending order whose reservation is over expires |
| `OrderSteps.DeletionDoes` | src/orders/orders.service.ts:1014-1065 | the row goes, silently, and its items and coupon use come back exactly from the four statuses that hold them |
| `OrderSteps.UnknownOrderDoesNothing` | src/orders/orders.service.ts:1026-1028 | transitions and deletions of an unknown order change nothing |
| `OrderSteps.WebhookDoes` | src/payment/paymob.service.ts:456-561 | what every notice does: nothing, the marker, the payment, or the report with the cancellation of a waiting order |
| `OrderSteps.RefundDoes` | src/payment/paymob.service.ts:563-669 | when a refund goes through, and what it writes and publishes |
| `OrderSteps.RepairPendingDoes` | src/payment/paymob.service.ts:928-957 | when the repair of a pending order books the payment |
| `OrderSteps.RepairReleasedDoes` | src/payment/paymob.service.ts:998-1109 | when a released order is retaken, with its stock, coupon and events, and when it is out of stock |
| `LedgerInvariant.TakenAtMostStock` | src/orders/orders.service.ts:370-386 | the per-item guard bounds what a whole reservation takes from a variant |
| `LedgerInvariant.PlanIsSound` | src/orders/orders.service.ts:266-278 | the guards of every transaction establish what its effect needs, and its events report exactly its status link |
| `LedgerInvariant.StepKeepsInv` | src/orders/orders.service.ts:622-685 | every step keeps stock non-negative, counters within 0 and the limit, the mutual payment invariant, and the unique keys |
| `LedgerInvariant.RunKeepsInv` | src/payment/paymob.service.ts:456-540 | so does every run |
| `Conservation.EffectConservesStock` | src/orders/orders.service.ts:1014-1048 | every transaction balances a variant: stock, units of live orders, units of deleted shipped orders |
| `Conservation.StockConserved` | src/orders/orders.service.ts:1074-1184 | over every run the balance moves only by admin edits, and stock is never negative |
| `Conservation.NeverOversold` | src/orders/orders.service.ts:370-386 | units held by live orders never exceed what was put in stock |
| `Conservation.EffectOnCoupon` | src/orders/orders.service.ts:1106-1116 | a transaction changes the counter's shortfall only by an over-limit repair or a clamped release, and a clamp needs an earlier shortfall |
| `Conservation.CouponLedger` | src/payment/paymob.service.ts:1046-1072 | the exact account of a coupon over every run |
| `Conservation.CouponCounterIsExact` | src/orders/orders.service.ts:451-466 | the counter is not negative, bounds the uses up to over-limit repairs, and is exact without them |
| `Conservation.LimitHoldsIffNeverLowered` | src/coupons/coupons.service.ts:82-104 | the counter is within its limit after every step exactly when no edit lowers the limit below it |
| `CouponDrift.OverLimitRepairAndClampOccur` | src/payment/paymob.service.ts:1046-1072 | a run from an empty store in which the counter misses a live use and a release finds it at 0 |
| `OrderLife.RemainingFalls` | src/orders/orders.service.ts:50-70 | a status change uses up at least one of at most 8 remaining ones although the table is cyclic |
| `OrderLife.StepKeepsTrail` | src/orders/orders.service.ts:137-180 | each step extends the status events by the link it made, in backend and contract names |
| `OrderLife.StatusReplay` | src/orders/orders.service.ts:646-651 | in every run the status events of each order chain from PENDING to its status by table links or repairs |
| `OrderLife.StatusChangesBounded` | src/orders/orders.service.ts:632-645 | at most 8 status changes, PAID entered at most once, PENDING never again |
| `OrderLife.EightChangesArePossible` | src/orders/orders.service.ts:709-774 | 8 is reached by admin transitions from any pending order |
| `PaymentEvents.PaymentsMoveForward` | src/orders/orders.service.ts:655-685 | in every run payments only move PENDING, PAID, REFUNDED; order facts are fixed; deleted orders stay deleted |
| `PaymentEvents.RecordedTransactionIsPaid` | src/payment/paymob.service.ts:498-526 | without the environment step, a recorded transaction means a paid or refunded ONLINE order |
| `PaymentEvents.ThrowingLeavesNothing` | src/payment/paymob.service.ts:456-561 | a transaction that does not commit leaves every table, marker and event as it was |
| `PaymentEvents.MarkerIffCommitted` | src/payment/paymob.service.ts:458-464 | a marker appears exactly when a delivery or repair of that transaction commits |
| `PaymentEvents.RedeliveriesChangeNothing` | src/payment/paymob.service.ts:543-549 | once processed, all later deliveries and repairs of a transaction can be removed from the run |
| `PaymentEvents.ExactlyOnce` | src/payment/paymob.service.ts:932-957 | a run equals the run without any redelivery, for all transactions at once |
| `PaymentEvents.CommitsOnce` | src/payment/paymob.service.ts:456-561 | in every run each transaction commits at most once, and once if it ends up processed |
| `PaymentEvents.NoticeBlocksConfirmation` | src/payment/paymob.service.ts:498-540 | after a notice that is not a success, no confirmation or repair with its transaction ever changes anything |
| `PaymentEvents.ConfirmationPaysIffFirst` | src/payment/paymob.service.ts:502-525 | a confirmation pays a payable order exactly when no earlier step committed its transaction |
| `PaymentEvents.CheckoutIsIdempotent` | src/orders/orders.service.ts:280-292 | a checkout repeated with the key of an order not deleted since returns that order and changes nothing |
| `PaymentNotices.PlanNotices` | src/payment/paymob.service.ts:47-86 | a step reports a transaction at most once and only with a new marker |
| `PaymentNotices.ReportedAtMostOnce` | src/payment/paymob.service.ts:513-534 | in every run each Paymob transaction is reported at most once |
| `StockReplay.PlanReports` | src/orders/orders.service.ts:109-135 | the stock events of a transaction carry its deltas and the stock after it |
| `StockReplay.StockReplayed` | src/agent-events/agent-events.mapper.ts:142-159 | the net change of the stock is the sum of the deltas and the silent changes |
| `StockReplay.SilentIffHides` | src/orders/orders.service.ts:1028-1046 | which steps change the stock of a variant without an event, told from the store before them |
| `StockReplay.ReplayIsExactIffNothingHides` | src/orders/orders.service.ts:109-135 | the deltas give the stock after every step exactly when no step hides a change |
| `StockReplay.OutboxTellsTheStock` | src/orders/orders.service.ts:172-209 | without silent steps the deltas add up and the latest on_hand is the stock |
| `StockReplay.DeletionSaysNothing` | src/orders/orders.service.ts:1030-1046 | every deletion of an order that still holds its items returns them without an event |
| `StockReplay.DeletionIsSilent` | src/orders/orders.service.ts:1030-1046 | an instance where the stock rises and no event says so |
| `OrderStore.Store.ReserveItems` | src/orders/orders.service.ts:372-386 | the loop of conditional decrements succeeds exactly when every item can be taken, and then takes them all |
| `OrderStore.Store.ReturnItems` | src/orders/orders.service.ts:1118-1126 | the loop returns every item's quantity |
| `OrderStore.Store.ReleaseCoupon` | src/orders/orders.service.ts:1160-1170 | the conditional decrement, clamped at 0 |
| `OrderStore.Store.RecountCoupon` | src/payment/paymob.service.ts:1046-1072 | counts the use again unless the coupon is at its limit |
| `OrderStore.Store.EmitStockChanges` | src/orders/orders.service.ts:109-135 | appends one stock event per item, with the stock after the change |
| `OrderStore.Store.EmitStatusChanged` | src/orders/orders.service.ts:137-180 | appends nothing, the status event, or the status, cancellation and stock events |
| `OrderStore.Store.HasDuplicates` | src/orders/orders.service.ts:298-304 | finds a repeated variant exactly when there is one |
| `OrderStore.Store.FirstItemError` | src/orders/orders.service.ts:345-360 | the first unknown or unavailable item decides the error |
| `OrderStore.Store.SumItems` | src/orders/orders.service.ts:388-391 | the subtotal |
| `OrderStore.Store.TakeCoupon` | src/orders/orders.service.ts:409-481 | the coupon checks in order and, when they pass, the counted use |
| `OrderStore.Store.ChargeInTransaction` | src/orders/orders.service.ts:388-541 | minimum, coupon, shipping, COD limit and fee, total, or the error |
| `OrderStore.Store.Create` | src/orders/orders.service.ts:280-614 | the checkout takes the ledger's step, rolling back whatever it had changed when a later check throws |
| `OrderStore.Store.PlaceOrder` | src/orders/orders.service.ts:324-613 | the checkout transaction: items, reservation, money, order and events, or nothing |
| `OrderStore.Store.MarkPaidInTransaction` | src/orders/orders.service.ts:622-653 | the payment takes the ledger's step |
| `OrderStore.Store.MarkCodCollected` | src/orders/orders.service.ts:655-707 | the COD collection takes the ledger's step |
| `OrderStore.Store.Transition` | src/orders/orders.service.ts:709-792 | the admin transition takes the ledger's step |
| `OrderStore.Store.CancelByOrderNumber` | src/orders/orders.service.ts:810-853 | the customer cancellation takes the ledger's step |
| `OrderStore.Store.CancelPendingInTransaction` | src/orders/orders.service.ts:1133-1184 | releases a pending order, once, and only if its reservation lapsed when that is asked |
| `OrderStore.Store.CancelCodInTransaction` | src/orders/orders.service.ts:1074-1131 | releases an unshipped COD order, once |
| `OrderStore.Store.ExpireOrder` | src/orders/orders.service.ts:855-864 | expires the order exactly when it is pending and lapsed |
| `OrderStore.Store.ExpirePendingReservations` | src/orders/orders.service.ts:866-879 | afterwards every lapsed pending order is expired, no other order changed, and the count is their number |
| `OrderStore.Store.DeleteOrderPermanently` | src/orders/orders.service.ts:1014-1065 | the deletion takes the ledger's step |
| `OrderStore.Store.SettleInTransaction` | src/payment/paymob.service.ts:932-957 | marker, payment and transaction id together, or nothing |
| `OrderStore.Store.HandleWebhook` | src/payment/paymob.service.ts:456-561 | the webhook takes the ledger's step |
| `OrderStore.Store.RefundTransaction` | src/payment/paymob.service.ts:563-669 | the refund takes the ledger's step |
| `OrderStore.Store.RepairPendingOrder` | src/payment/paymob.service.ts:929-957 | the repair of a pending order takes the ledger's step |
| `OrderStore.Store.RepairReleasedOrder` | src/payment/paymob.service.ts:998-1109 | the repair of a cancelled or expired order takes the ledger's step, or rolls back |
| `Reconciliation.SplitCandidates` | src/payment/paymob.service.ts:764-781 | separates the orders with a transaction and counts the unlinked intentions |
| `Reconciliation.CheckOrder` | src/payment/paymob.service.ts:788-1244 | one callback repairs exactly a confirmed pending or released order, and reports exactly an answer that disagrees or a repair out of stock |
| `Reconciliation.RepairOrder` | src/payment/paymob.service.ts:925-1160 | a confirmed order gets the repair its status asks for, counted when it commits and reported when out of stock |
| `Reconciliation.RunBatch` | src/payment/paymob.service.ts:785-788 | a batch, in any completion order, visits each of its orders once |
| `Reconciliation.ReconcilePayments` | src/payment/paymob.service.ts:746-1262 | every order with a transaction is visited exactly once; attempted = checked + failed; manual review = mismatches; repaired + manual review <= checked; confirmed orders and no others are repaired; those that disagree or cannot be retaken and no others are reported; fails exactly when more than half the calls failed |
| `Reconciliation.RunIsExact` | src/payment/paymob.service.ts:919-1229 | the repairs and reports of a run, told on the selection and the provider's fields |
| `Reconciliation.TransactionsAreKept` | src/payment/paymob.service.ts:764-781 | each selected order with a transaction is visited as often as it was selected |
| `Reconciliation.UnlinkedAreCounted` | src/payment/paymob.service.ts:764-781 | the number of begun payments without a transaction |
| `Reconciliation.FailuresAreCounted` | src/payment/paymob.service.ts:793-838 | the failed calls are those that were unreachable, refused or unreadable |
| `TrackLimiter.RecentTwice` | src/orders/orders.service.ts:222-224 | pruning never changes what is recent later |
| `TrackLimiter.AdmitsInNumbers` | src/orders/orders.service.ts:219-228 | a lookup goes through exactly with fewer than three accepted, or the third last a minute ago |
| `TrackLimiter.OrderTrackLimiter.CheckOrderTrackRateLimit` | src/orders/orders.service.ts:217-232 | decides exactly as the complete history of accepted lookups would |
| `TrackLimiter.RuleSpacesLookups` | src/orders/orders.service.ts:219-228 | any four consecutive accepted lookups span at least 60,000 ms |
| `LeaseExclusion.HeldRowsAreNotDue` | src/agent-events/agent-events.service.ts:36-38 | the lease of a safe batch outlives the worker, so its rows cannot be claimed |
| `LeaseExclusion.RunKeepsLease` | src/agent-events/agent-events.service.ts:186-219 | in every run of safe batches no row is in the hands of two live workers |
| `LeaseExclusion.DeliveredIsFinal` | src/agent-events/agent-events.service.ts:259-270 | a delivered row is never written again and leaves only by cleanup after 7 days |
| `LeaseExclusion.DeliveredStaysDelivered` | src/agent-events/agent-events.service.ts:305-314 | over every run of safe batches |
| `LeaseExclusion.DeliveredRowIsSentAgain` | src/agent-events/agent-events.service.ts:201-219 | a run with a batch of 30 after which a delivered row waits to be sent again |
| `LeaseExclusion.DeliveredIsFinalIffBatchFitsLease` | src/agent-events/agent-events.service.ts:259-295 | delivered is final in all runs with batches of at most n rows exactly when n timeouts fit the lease |
| `LeaseExclusion.OrphanWaits` | src/agent-events/agent-events.service.ts:186-199 | in every run the row of a dead worker stays as it was and in nobody's hands until a claim takes it, never before the lease is over |
| `LeaseExclusion.CrashedRowsComeBack` | src/agent-events/agent-events.service.ts:36-38 | after a crash, whatever any number of other workers do: each row waits, and any idle worker's claim takes it exactly from the end of the dead worker's lease on |
| `LeaseExclusion.LargeBatchesCollide` | src/agent-events/agent-events.controller.ts:63-65 | a run with a batch of 30 in which two live workers hold the same row |
| `LeaseExclusion.ExclusionIffBatchFitsLease` | src/agent-events/agent-events.service.ts:201-219 | exclusion holds for all runs with batches of at most n rows exactly when n timeouts fit the lease |
| `RetrySchedule.WholeSchedule` | src/agent-events/agent-events.service.ts:27-34 | the six delays add up to 20 h 36 min |
| `OutboxSteps.DelaysGrow` | src/agent-events/agent-events.service.ts:27-34 | the six delays as numbers, growing, and their partial sums |
| `OutboxSteps.AttemptEnds` | src/agent-events/agent-events.service.ts:259-302 | how every attempt ends, by the answer and its number |
| `OutboxSteps.FailureWaits` | src/agent-events/agent-events.service.ts:279-294 | after the k-th failure of a series a row waits 1, 5, 30, 120, 360 or 720 minutes, and the seventh gives it up |
| `OutboxSteps.ClaimDoes` | src/agent-events/agent-events.service.ts:186-199 | a claim leases its rows for five minutes and remembers their attempts |
| `OutboxSteps.ResendDoes` | src/agent-events/agent-events.service.ts:363-369 | exactly a failed row waits again, at once and with a new count |
| `OutboxSteps.CleanupDoes` | src/agent-events/agent-events.service.ts:305-314 | exactly the rows delivered 7 days and failed 30 days after their creation go |
| `OutboxSteps.EnqueueDoes` | src/agent-events/agent-events.service.ts:95-112 | a new row waits and is due at once |
| `OutboxSteps.DueMeans` | src/agent-events/agent-events.service.ts:192-193 | which rows may be claimed |
| `OutboxSteps.LimitIsClamped` | src/agent-events/agent-events.service.ts:211 | a claim takes between 1 and 200 rows |
| `OutboxSteps.CrashDoes` | src/agent-events/agent-events.service.ts:186-199 | a crash takes the worker and nothing else |
| `OutboxSteps.TickDoes` | src/agent-events/agent-events.service.ts:36-38 | time passes as long as no delivery takes more than 10 s |
| `RetrySchedule.StepOnSchedule` | src/agent-events/agent-events.service.ts:279-302 | every step keeps rows and the workers' copies of them on schedule |
| `RetrySchedule.RetryDiscipline` | src/agent-events/agent-events.service.ts:221-302 | attempts <= 7, and <= 6 while open; a row never refused is given up after 7 attempts and 20 h 36 min from its first one |
| `RetrySchedule.SeriesDiscipline` | src/agent-events/agent-events.service.ts:363-369 | with batches that fit the lease, the same from the first attempt after each resend |
| `RetrySchedule.StaleWorkerEndsTheSeries` | src/agent-events/agent-events.service.ts:272-294 | after the collision a batch of 30 runs into, a resent row is given up at the first failure of its new series |
| `RetrySchedule.SeriesKeptIffBatchFitsLease` | src/agent-events/agent-events.service.ts:27-38 | each series has the whole schedule to itself, in all runs with batches of at most n rows, exactly when n timeouts fit the lease |
| `RetrySchedule.RowsLeaveOnlyWhenSettled` | src/agent-events/agent-events.service.ts:304-320 | only old delivered or failed rows leave the table |
| `RetrySchedule.OpenRowsStay` | src/agent-events/agent-events.service.ts:7-20 | an event still to be sent is never lost |
| `AgentEventsStore.AgentEvents.Enqueue` | src/agent-events/agent-events.service.ts:95-112 | adds a pending row due now |
| `AgentEventsStore.AgentEvents.SelectDue` | src/agent-events/agent-events.service.ts:192-196 | the oldest due rows up to the limit |
| `AgentEventsStore.OldestArePicked` | src/agent-events/agent-events.service.ts:192-196 | no due row that is left out was created before one that is picked |
| `AgentEventsStore.AgentEvents.ClaimDue` | src/agent-events/agent-events.service.ts:187-199 | leases exactly those rows and returns them as they were |
| `AgentEventsStore.AgentEvents.Deliver` | src/agent-events/agent-events.service.ts:221-295 | writes the outcome of one attempt, and reports it |
| `AgentEventsStore.AgentEvents.MarkFailed` | src/agent-events/agent-events.service.ts:297-302 | marks the row failed |
| `AgentEventsStore.AgentEvents.DispatchDue` | src/agent-events/agent-events.service.ts:201-219 | takes the steps of one worker of the machine, and counts how its attempts ended |
| `AgentEventsStore.AgentEvents.Cleanup` | src/agent-events/agent-events.service.ts:304-321 | removes the old settled rows and the old agent requests and counts both |
| `AgentEventsStore.AgentEvents.Resend` | src/agent-events/agent-events.service.ts:363-369 | re-queues a failed row, and only a failed one |
| `Sessions.RotationKeepsTokens` | src/auth/auth.service.ts:416-428 | a rotation keeps one live token per chain and one successor per token |
| `Sessions.RotationIsLinear` | src/auth/auth.service.ts:391-439 | so does every interleaving of logins, refreshes, revocations and crashes |
| `Sessions.LoginDoes` | src/auth/auth.service.ts:138-153 | a login opens a chain of its own for 30 days |
| `Sessions.ReadDoes` | src/auth/auth.service.ts:391-414 | what presenting a token leads to |
| `Sessions.RotateDoes` | src/auth/auth.service.ts:416-439 | a rotation replaces exactly a live token |
| `Sessions.RevokeAllDoes` | src/auth/auth.service.ts:634-652 | every token of the user is revoked, and nobody else's |
| `Sessions.LogoutDoes` | src/auth/auth.service.ts:441-451 | the presented token is revoked, and no other |
| `Sessions.SignedOutTokenIsDead` | src/auth/auth.service.ts:391-451 | a token that was signed out is never accepted or rotated again |
| `Sessions.RevocationIsPermanent` | src/auth/auth.service.ts:441-451 | revocation is permanent and a revoked token gets no successor |
| `Sessions.RevokedReadNeverRotates` | src/auth/auth.service.ts:417-431 | a refresh whose token is revoked after it read it never succeeds, and goes on to revoke every session |
| `Sessions.ReadBeforeRevokeAllNeverRotates` | src/auth/auth.service.ts:634-640 | so a refresh that read its token before a revoke-all, by a new password or by another request's answer to a reuse or a lost race, never succeeds after it |
| `Sessions.OnlyLoginSignsIn` | src/auth/auth.service.ts:527-536 | once all sessions of a user are revoked only a login opens one |
| `Sessions.ReuseEndsAllSessions` | src/auth/auth.service.ts:409-414 | presenting a replaced token ends every session of the user |
| `Sessions.RefreshHandsOver` | src/auth/auth.service.ts:380-428 | an undisturbed refresh makes the new token the only live one of its chain |
| `Sessions.SessionStore.IssueTokenPair` | src/auth/auth.service.ts:138-153 | records the new token with its 30-day expiry |
| `Sessions.SessionStore.RotateInTransaction` | src/auth/auth.service.ts:417-428 | revokes and issues together, exactly when the token was still live |
| `Sessions.SessionStore.Refresh` | src/auth/auth.service.ts:391-439 | succeeds exactly for a known, unexpired, live token of a user in good standing; takes the machine's steps |
| `Sessions.SessionStore.RevokeAllUserSessions` | src/auth/auth.service.ts:634-652 | revokes every token of the user and no other |
| `Sessions.SessionStore.SignIn` | src/auth/auth.service.ts:370-378 | a login starts a new chain |
| `Sessions.SessionStore.SignOut` | src/auth/auth.service.ts:441-451 | revokes the presented token |
| `Lockout.SignIn.Login` | src/auth/auth.service.ts:281-378 | the password step: locked, wrong, accepted with the second factor due, or signed in; an accepted password clears the counter |
| `Lockout.SignIn.VerifyTwoFactorLogin` | src/auth/auth.service.ts:1057-1156 | the second factor needs a token that was handed out and has not expired, counts in the same row, and records the time step or spends the recovery code it signs in with |
| `Lockout.LockedDoes` | src/auth/auth.service.ts:281-287 | an account is locked exactly before the lock ends, and then nothing changes |
| `Lockout.PasswordDoes` | src/auth/auth.service.ts:289-366 | what a right and a wrong password do on an open account |
| `Lockout.WrongDoes` | src/auth/auth.service.ts:294-307 | the fifth wrong attempt locks for 15 minutes |
| `Lockout.SecondFactorDoes` | src/auth/auth.service.ts:1036-1156 | which second factors sign in, and what they use up |
| `Lockout.EvaluatedWithinAllowance` | src/auth/auth.service.ts:294-336 | what any run of attempts evaluates until a given time, from any state of the row |
| `Lockout.WrongAttemptsAreBounded` | src/auth/auth.service.ts:43-44 | in a period T without a sign-in at most 5 (T / 15 min + 1) wrong attempts are evaluated, and 4 more for each password accepted while the second factor was due; the counter stays in 0..4 |
| `Lockout.BoundIsReached` | src/auth/auth.service.ts:1099-1127 | the bound is attained for every number of lockout periods and of accepted passwords |
| `Lockout.SecondFactorIsNotRateLimited` | src/auth/auth.service.ts:330-366 | for every n a run at one instant, with the tokens it was handed, without a sign-in or a lock, that evaluates more than n wrong codes |
| `Lockout.PlainBoundIffNothingIsCleared` | src/auth/auth.service.ts:330-336 | the lockout alone bounds all runs with at most r passwords accepted before a second factor exactly when r is 0 |
| `Lockout.PasswordOnlyIsRateLimited` | src/auth/auth.service.ts:368-378 | without a second factor the lockout alone bounds the wrong passwords |
| `Lockout.RateLimitedIffNoSecondFactor` | src/auth/auth.service.ts:345-370 | the lockout alone bounds all runs of an account exactly when it has no second factor |
| `Lockout.TimeStepsAreUsedOnce` | src/auth/auth.service.ts:1074-1083 | the time steps that sign in increase: each does so at most once |
| `Lockout.RecoveryCodesAreUsedOnce` | src/auth/auth.service.ts:1088-1097 | each recovery code signs in at most once, and only if it was unused |
| `PermissionSync.CatalogMembers` | src/auth/permission-catalog.ts:16-124 | the catalog's keys are exactly the listed actions of each resource |
| `PermissionSync.CatalogByAction` | src/auth/permission-catalog.ts:16-124 | the catalog by action |
| `PermissionSync.LegacyByTarget` | src/auth/permission-catalog.ts:140-156 | which legacy key turns into a key |
| `PermissionSync.ExtraByTarget` | src/auth/permission-catalog.ts:158-171 | which kept key stood for a key before the split |
| `PermissionSync.ExpansionsAreCatalogKeys` | src/auth/permission-catalog.ts:140-171 | every target of the migration is a catalog key and no legacy key |
| `PermissionSync.MigrationSettles` | src/auth/permissions.service.ts:92-105 | after a migration no legacy key is left, full_admin holds the catalog, and a second sync has nothing to do |
| `PermissionSync.OrdinaryRolesKeepTheirAccess` | src/auth/permissions.service.ts:86-91 | after the split, a role ends with exactly its kept keys and the expansions of its legacy keys |
| `PermissionSync.OrdinaryRoleEndsWith` | src/auth/permissions.service.ts:86-143 | an ordinary role ends with what it kept, what its legacy keys turn into, and before the split what its kept keys stood for |
| `PermissionSync.FullAdminEndsWith` | src/auth/permissions.service.ts:145-152 | full_admin ends with the catalog and what it kept |
| `PermissionSync.SyncNeededIff` | src/auth/permissions.service.ts:92-105 | there is work exactly when a catalog key is missing or a legacy key left |
| `PermissionSync.SyncIsMigration` | src/auth/permissions.service.ts:107-163 | the statements of the sync amount to the migration |
| `PermissionSync.PermissionsService.GrantExpansions` | src/auth/permissions.service.ts:119-143 | the nested loop adds exactly the expansions of what each role held |
| `PermissionSync.PermissionsService.SyncPermissionCatalog` | src/auth/permissions.service.ts:92-166 | writes exactly when there is work to do, and then performs the migration; else changes nothing |
| `LastAdmin.OthersKeepTheirRights` | src/auth/users.service.ts:338-360 | no call takes full_admin from a user it does not address |
| `LastAdmin.StepKeepsInv` | src/auth/users.service.ts:168-311 | every call leaves an active full_admin |
| `LastAdmin.SomeFullAdminRemains` | src/auth/roles.service.ts:130-209 | so does every sequence of calls |
| `LastAdmin.GuardIsExact` | src/auth/users.service.ts:238-311 | disabling or deleting a full_admin goes through exactly when another remains |
| `LastAdmin.UpdateGuardIsExact` | src/auth/users.service.ts:187-194 | an update of a full_admin by another user, to a role that exists, goes through exactly when it leaves a full_admin |
| `LastAdmin.LastFullAdminKeepsEverything` | src/auth/permissions.guard.ts:31-33 | no call, whether it addresses the user or the role's permissions, takes anything from the last full_admin |
| `LastAdmin.AccessIsLostOnlyByStripping` | src/auth/roles.service.ts:211-276 | a call takes access from a user it does not address exactly when it replaces the permissions of their role, not full_admin, by too few |
| `LastAdmin.OthersStay` | src/auth/users.service.ts:168-311 | no call changes the row of a user it does not address |
| `LastAdmin.OrdinaryStaffCanBeRemoved` | src/auth/users.service.ts:238-311 | staff who are not full_admin can always be disabled or deleted, and can then do nothing |
| `LastAdmin.OrdinaryStaffIsUpdated` | src/auth/users.service.ts:168-236 | an update gives ordinary staff the role and activity it names, unless the role is unknown or their own |
| `LastAdmin.OnlyVisibleStaffIsAddressed` | src/auth/users.service.ts:26-28 | the staff calls see no customers and no deleted rows |
| `LastAdmin.CreatedUserMayDo` | src/auth/users.service.ts:136-146 | a new account is active and may do what its role may do |
| `LastAdmin.CreatedIff` | src/auth/users.service.ts:96-132 | when an account can be created |
| `LastAdmin.RenameDoes` | src/auth/roles.service.ts:130-176 | when a role is renamed |
| `LastAdmin.DeleteRoleDoes` | src/auth/roles.service.ts:178-209 | when a role is deleted |
| `LastAdmin.CreateRoleDoes` | src/auth/roles.service.ts:73-128 | when a role is created, and with which permissions |
| `LastAdmin.SetPermissionsDoes` | src/auth/roles.service.ts:211-276 | the permissions of a role become exactly those given |
| `LastAdmin.CreatePermissionDoes` | src/auth/permissions.service.ts:34-68 | a new permission goes to full_admin and to no other role |
| `LastAdmin.CreatedAdminDoes` | src/auth/auth.service.ts:155-182 | when an admin account is created |
| `LastAdmin.CustomerCallsDo` | src/customers/customers.service.ts:725-750 | customers are blocked, unblocked and anonymized; staff is left alone |
| `LastAdmin.IdentitiesStayUnique` | src/auth/users.service.ts:108-125 | over every sequence of calls no two users share an email or a username |
| `LastAdmin.DeletedEmailIsLost` | src/auth/users.service.ts:108-125 | whatever calls run, no account can be created with the email of a deleted user, and the lookups do not say why |
| `LastAdmin.StaffDirectory.EnsureNotLastFullAdmin` | src/auth/users.service.ts:338-360 | passes exactly when another active full_admin remains |
| `LastAdmin.StaffDirectory.CreateUser` | src/auth/users.service.ts:96-166 | refuses a missing or taken identity and an unknown role, in that order; else adds an active user, staff exactly when a role is given |
| `LastAdmin.StaffDirectory.CreateAdminUser` | src/auth/auth.service.ts:155-182 | refuses a taken email; else adds a user of the given kind without a role |
| `LastAdmin.StaffDirectory.UpdateUser` | src/auth/users.service.ts:168-236 | succeeds exactly when the guards allow it |
| `LastAdmin.StaffDirectory.DisableUser` | src/auth/users.service.ts:238-279 | likewise |
| `LastAdmin.StaffDirectory.DeleteUser` | src/auth/users.service.ts:281-311 | likewise; the row is only marked |
| `LastAdmin.StaffDirectory.UpdateRole` | src/auth/roles.service.ts:130-176 | renames, but never full_admin nor to a name in use |
| `LastAdmin.StaffDirectory.CreateRole` | src/auth/roles.service.ts:73-128 | refuses a name in use; else adds the role with the known ones of the given permissions |
| `LastAdmin.StaffDirectory.SetRolePermissions` | src/auth/roles.service.ts:211-276 | replaces the permissions of any role, unless one of them is unknown |
| `LastAdmin.StaffDirectory.DeleteRole` | src/auth/roles.service.ts:178-209 | deletes exactly a role that is not full_admin and not in use |

## Left out

- Controllers, validation, guards, logging, audit log, notifications, e-mail, WhatsApp, Meta, Sheets, Excel and PDF code: plumbing around the modelled calls.
- HMAC, JWT, bcrypt, AES-GCM, TOTP: their results are parameters (a valid password, the time step a code belongs to, a verified webhook).
- The network: provider and agent answers are parameters; the JSON fields of a webhook are reduced to transaction, order and success.
- Interleavings below the transaction: markPaidInTransaction reads, then guards its write on the payment status only, and concurrent checkouts of one key are resolved by the unique index; the model takes each transaction as one step, and likewise the refund's read, provider call and write.
- Reconciliation.ReconcilePayments: the repair transaction reads the status it reports as the old one again, where the source reports the status of the selection; the two agree because a cancelled or expired order only ever becomes PAID. The selection query itself (dates, 200 rows, audit mode) is a parameter.
- OrderStore.Store.EmitStockChanges: events come in item order; the source emits them in the order of a database query.
- Pricing.TotalDrift: exact arithmetic; the 20-digit precision of decimal.js and the float conversion of previewed discounts are not modelled.
- Renaming a coupon's code: a coupon is identified by its code.
- The optional agent link: events are always written.
- A sync of the permission catalog that is interrupted half way, and custom permission keys that are names of JavaScript object members, which the `in` test would take for legacy keys.
- Deleting the refresh tokens of a blocked customer.
- Lockout.WrongAttemptsAreBounded: attempts are atomic; two concurrent ones may read the same counter.
- Lockout.TimeStepsAreUsedOnce: speaks of one enrolment; switching the second factor off and on again forgets the last step, with a new secret.
- Customer registration, which adds a row as `LastAdmin.StaffDirectory.CreateAdminUser` does for a shopper; the permission sync as a step of the directory.
- Blocked accounts at sign-in, which are refused before the password is looked at; and a server without a two-factor key, where an accepted password clears the counter as modelled and is then answered with an error.
- Lists, searches, pagination, dashboards, analytics, catalogue content, settings and seeding: only easy members.
