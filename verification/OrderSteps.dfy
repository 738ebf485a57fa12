/**
 * What each transaction does, told on the tables: when it goes through, from the columns a reader can see before
 * it, and then the order row, the stock of every variant, the coupon counter, the markers and the events after it.
 * Everything not named stays as it was, and a transaction that does not go through changes nothing at all.
 */
module OrderSteps {
  import opened Results
  import opened OrderModel
  import opened Ledger
  import opened LedgerInvariant
  import Pricing

  // ---------------------------------------------------------------- words for the tables

  /** Every variant's stock moves by `sign` times what the items list of it. */
  ghost predicate StockMoved(l: Ledger, n: Ledger, items: seq<Item>, sign: int) {
    n.variants.Keys == l.variants.Keys
    && forall v :: v in l.variants ==>
         n.variants[v] == l.variants[v].(stock := l.variants[v].stock + sign * QuantityOf(items, v))
  }

  /** The counter of one coupon moves by one, up, or down but not below 0; no other counter moves. */
  ghost predicate UseCounted(l: Ledger, n: Ledger, c: Option<CouponId>) {
    n.coupons.Keys == l.coupons.Keys
    && forall x :: x in l.coupons ==>
         n.coupons[x] == l.coupons[x].(usageCount := l.coupons[x].usageCount + if c == Some(x) then 1 else 0)
  }

  ghost predicate UseReleased(l: Ledger, n: Ledger, c: Option<CouponId>) {
    n.coupons.Keys == l.coupons.Keys
    && forall x :: x in l.coupons ==>
         n.coupons[x] == l.coupons[x].(usageCount := if c == Some(x) && l.coupons[x].usageCount > 0
                                                     then l.coupons[x].usageCount - 1 else l.coupons[x].usageCount)
  }

  /** How an event names an order: its status in both vocabularies, and its stored total. */
  function Named(id: OrderId, o: Order): OrderRef {
    OrderRef(id, ToContractStatus(o.status, o.paymentMethod), o.status, o.amounts.total)
  }

  lemma RefsAreNamed(id: OrderId, o: Order)
    ensures ToOrderRef(id, o) == Named(id, o)
  {
  }

  function Changed(id: OrderId, o: Order, row: Order, actor: Actor): Event {
    StatusChanged(Named(id, row), ToContractStatus(o.status, o.paymentMethod), o.status, actor)
  }

  /** One event per item, with the stock after the change. */
  function StockNotices(items: seq<Item>, after: map<VariantId, Variant>, sign: int, reason: StockReason, id: OrderId)
    : seq<Event>
    requires forall i :: 0 <= i < |items| ==> items[i].variant in after
  {
    seq(|items|, i requires 0 <= i < |items| =>
      StockChanged(items[i].variant, after[items[i].variant].stock, sign * items[i].quantity, reason, id))
  }

  lemma {:induction false} StockEventsAreNotices(items: seq<Item>, after: map<VariantId, Variant>, sign: int,
                                                 reason: StockReason, id: OrderId)
    requires ItemsKnown(items, after)
    ensures StockEvents(items, after, sign, reason, id) == StockNotices(items, after, sign, reason, id)
  {
    if items != [] {
      var init := items[..|items| - 1];
      StockEventsAreNotices(init, after, sign, reason, id);
      assert StockNotices(items, after, sign, reason, id)
          == StockNotices(init, after, sign, reason, id) + [StockNotices(items, after, sign, reason, id)[|items| - 1]];
    }
  }

  /** Only the row of one order, the markers and the outbox change. */
  ghost predicate RowWritten(l: Ledger, n: Ledger, id: OrderId, row: Order, marks: set<TxId>, events: seq<Event>) {
    n == l.(orders := l.orders[id := row], processed := l.processed + marks, events := l.events + events)
  }

  /** The order is released: its items and its coupon use come back, and the outbox says so after `reported`. */
  ghost predicate OrderReleased(l: Ledger, n: Ledger, id: OrderId, to: OrderStatus, actor: Actor, marks: set<TxId>,
                                reported: seq<Event>)
  {
    id in l.orders
    && var o := l.orders[id];
    var row := o.(status := to, reservation := None);
    && n.orders == l.orders[id := row] && n.gone == l.gone && n.processed == l.processed + marks
    && StockMoved(l, n, o.items, 1) && UseReleased(l, n, o.couponId) && ItemsKnown(o.items, n.variants)
    && n.events == l.events
                   + (reported + ([Changed(id, o, row, actor),
                                   OrderCancelled(Named(id, row), actor, o.payment == PaymentPaid)]
                                  + StockNotices(o.items, n.variants, 1, Cancel, id)))
  }

  lemma ReleasingReleases(l: Ledger, id: OrderId, to: OrderStatus, actor: Actor, marks: set<TxId>, reported: seq<Event>)
    requires id in l.orders && ItemsKnown(l.orders[id].items, l.variants)
    ensures var p := ReleasePlan(l, id, to, actor);
            OrderReleased(l, Commit(l, Plan(p.effect, marks, reported + p.events, Done)), id, to, actor, marks,
                          reported)
  {
    var o := l.orders[id];
    var after := ShiftStock(l.variants, o.items, 1);
    StockEventsAreNotices(o.items, after, 1, Cancel, id);
  }

  lemma PlainRelease(l: Ledger, id: OrderId, to: OrderStatus, actor: Actor)
    requires id in l.orders && ItemsKnown(l.orders[id].items, l.variants)
    ensures OrderReleased(l, Commit(l, ReleasePlan(l, id, to, actor)), id, to, actor, {}, [])
  {
    var p := ReleasePlan(l, id, to, actor);
    ReleasingReleases(l, id, to, actor, {}, []);
    assert [] + p.events == p.events;
    assert Plan(p.effect, {}, [] + p.events, Done) == p;
  }

  // ---------------------------------------------------------------- orders

  /** Unpaid and not yet shipped or closed: a payment can still be booked. */
  predicate CanBePaid(o: Order) {
    (o.status == Pending || o.status == Confirmed || o.status == Processing) && o.payment != PaymentPaid
  }

  lemma MarkPaidDoes(l: Ledger, id: OrderId, actor: Actor)
    ensures var n := Next(l, MarkPaid(id, actor));
            if id in l.orders && CanBePaid(l.orders[id]) then
              var o := l.orders[id];
              var row := o.(status := Paid, payment := PaymentPaid, reservation := None);
              RowWritten(l, n, id, row, {}, [Changed(id, o, row, actor)])
            else n == l
    ensures PlanOf(l, MarkPaid(id, actor)).outcome
            == if id !in l.orders then Failed(NotFound)
               else if l.orders[id].status == Paid || CanBePaid(l.orders[id]) then Done else Failed(Conflict)
  {
    if id in l.orders { RefsAreNamed(id, PaidRow(l.orders[id])); }
    assert PlanOf(l, MarkPaid(id, actor)) == MarkPaidPlan(l, id, actor);
  }

  lemma CollectCodDoes(l: Ledger, id: OrderId)
    ensures var n := Next(l, CollectCod(id));
            if id in l.orders && l.orders[id].paymentMethod == Cod && l.orders[id].payment != PaymentPaid
               && (l.orders[id].status == Shipped || l.orders[id].status == Delivered)
            then
              var row := l.orders[id].(payment := PaymentPaid);
              RowWritten(l, n, id, row, {}, [PaymentSucceeded(Named(id, row), None)])
            else n == l
    ensures PlanOf(l, CollectCod(id)).outcome
            == if id !in l.orders then Failed(NotFound)
               else if l.orders[id].paymentMethod == Cod
                       && (l.orders[id].status == Shipped || l.orders[id].status == Delivered)
               then Done else Failed(BadRequest)
  {
    assert PlanOf(l, CollectCod(id)) == CollectCodPlan(l, id);
  }

  /** Who can cancel what: COD orders until they ship, ONLINE orders while they wait for the payment. */
  predicate CanBeCancelled(o: Order) {
    o.status == Pending || (o.paymentMethod == Cod && (o.status == Confirmed || o.status == Processing))
  }

  lemma CustomerCancelDoes(l: Ledger, id: OrderId)
    requires ItemsSound(l)
    ensures var n := Next(l, CustomerCancel(id));
            if id in l.orders && CanBeCancelled(l.orders[id]) then OrderReleased(l, n, id, Cancelled, Customer, {}, [])
            else n == l
    ensures PlanOf(l, CustomerCancel(id)).outcome
            == if id !in l.orders then Failed(NotFound)
               else if CanBeCancelled(l.orders[id]) then Done else Failed(Conflict)
  {
    if id in l.orders { PlainRelease(l, id, Cancelled, Customer); }
    assert PlanOf(l, CustomerCancel(id)) == CustomerCancelPlan(l, id);
  }

  lemma ExpireDoes(l: Ledger, id: OrderId, now: nat)
    requires ItemsSound(l)
    ensures var n := Next(l, Expire(id, now));
            if id in l.orders && l.orders[id].status == Pending
               && l.orders[id].reservation.Some? && l.orders[id].reservation.value <= now
            then OrderReleased(l, n, id, Expired, System, {}, [])
            else n == l
  {
    if id in l.orders { PlainRelease(l, id, Expired, System); }
    assert PlanOf(l, Expire(id, now)) == CancelPendingPlan(l, id, Expired, Some(now), System);
  }

  /** The admin transitions that move nothing but the status. */
  predicate PlainMove(before: OrderStatus, next: OrderStatus) {
    match next
    case Confirmed => before == Pending || before == Paid
    case Processing => before == Confirmed || before == Paid
    case Shipped => before == Processing || before == Paid
    case Delivered => before == Shipped
    case Refunded => before == Paid || before == Shipped || before == Delivered
    case _ => false
  }

  lemma PlainMoveDoes(l: Ledger, id: OrderId, next: OrderStatus, actor: Actor)
    requires id in l.orders && PlainMove(l.orders[id].status, next)
    ensures var o, p := l.orders[id], TransitionPlan(l, id, next, actor);
            RowWritten(l, Commit(l, p), id, o.(status := next), {}, [Changed(id, o, o.(status := next), actor)])
            && p.outcome == Done
  {
    RefsAreNamed(id, l.orders[id].(status := next));
  }

  lemma ReleasingMoveDoes(l: Ledger, id: OrderId, next: OrderStatus, actor: Actor)
    requires ItemsSound(l) && id in l.orders && (next == Cancelled || next == Expired)
    ensures var o, p := l.orders[id], TransitionPlan(l, id, next, actor);
            if (next == Cancelled && CanBeCancelled(o)) || (next == Expired && o.status == Pending) then
              OrderReleased(l, Commit(l, p), id, next, actor, {}, []) && p.outcome == Done
            else p == Only(if o.status == next then Done else Failed(Conflict))
  {
    PlainRelease(l, id, next, actor);
  }

  lemma OtherMoveDoes(l: Ledger, id: OrderId, next: OrderStatus, actor: Actor)
    requires id in l.orders && !PlainMove(l.orders[id].status, next) && next != Cancelled && next != Expired
    ensures var o, p := l.orders[id], TransitionPlan(l, id, next, actor);
            if next == Paid && CanBePaid(o) then p == MarkPaidPlan(l, id, actor)
            else p == Only(if o.status == next then Done else Failed(Conflict))
  {
  }

  lemma TransitionDoes(l: Ledger, id: OrderId, next: OrderStatus, actor: Actor)
    requires ItemsSound(l) && id in l.orders
    ensures var o, n := l.orders[id], Next(l, Transition(id, next, actor));
            if PlainMove(o.status, next) then
              RowWritten(l, n, id, o.(status := next), {}, [Changed(id, o, o.(status := next), actor)])
            else if next == Paid && CanBePaid(o) then n == Next(l, MarkPaid(id, actor))
            else if (next == Cancelled && CanBeCancelled(o)) || (next == Expired && o.status == Pending) then
              OrderReleased(l, n, id, next, actor, {}, [])
            else n == l
    ensures var o := l.orders[id];
            PlanOf(l, Transition(id, next, actor)).outcome
            == if o.status == next || PlainMove(o.status, next) || (next == Paid && CanBePaid(o))
                  || (next == Cancelled && CanBeCancelled(o)) || (next == Expired && o.status == Pending)
               then Done else Failed(Conflict)
  {
    var p := TransitionPlan(l, id, next, actor);
    assert PlanOf(l, Transition(id, next, actor)) == p;
    if PlainMove(l.orders[id].status, next) {
      PlainMoveDoes(l, id, next, actor);
    } else if next == Cancelled || next == Expired {
      ReleasingMoveDoes(l, id, next, actor);
    } else {
      OtherMoveDoes(l, id, next, actor);
      assert PlanOf(l, MarkPaid(id, actor)) == MarkPaidPlan(l, id, actor);
    }
  }

  lemma UnknownOrderDoesNothing(l: Ledger, id: OrderId, next: OrderStatus, actor: Actor)
    requires id !in l.orders
    ensures Next(l, Transition(id, next, actor)) == l && Next(l, DeletePermanently(id)) == l
    ensures PlanOf(l, Transition(id, next, actor)).outcome == PlanOf(l, DeletePermanently(id)).outcome
            == Failed(NotFound)
  {
    assert PlanOf(l, DeletePermanently(id)) == DeletePlan(l, id);
    assert PlanOf(l, Transition(id, next, actor)) == TransitionPlan(l, id, next, actor);
  }

  lemma DeletionDoes(l: Ledger, id: OrderId)
    requires id in l.orders
    ensures var o, n := l.orders[id], Next(l, DeletePermanently(id));
            && n.orders == l.orders - {id} && n.gone == l.gone[id := o]
            && n.processed == l.processed && n.events == l.events
            && if o.status == Pending || o.status == Confirmed || o.status == Processing || o.status == Paid
               then StockMoved(l, n, o.items, 1) && UseReleased(l, n, o.couponId)
               else n.variants == l.variants && n.coupons == l.coupons
    ensures PlanOf(l, DeletePermanently(id)).outcome == Done
  {
    assert PlanOf(l, DeletePermanently(id)) == DeletePlan(l, id);
  }

  // ---------------------------------------------------------------- payments

  predicate HeldElsewhere(l: Ledger, tx: TxId, id: OrderId) {
    exists other :: other in l.orders && other != id && l.orders[other].transactionId == Some(tx)
  }

  /** What a confirmed payment leaves: the row, the marker, and the events; an order that is already PAID only gets the
      transaction. */
  ghost predicate PaymentBooked(l: Ledger, n: Ledger, id: OrderId, tx: TxId) {
    id in l.orders
    && var o := l.orders[id];
    if o.status == Paid then
      var row := o.(transactionId := Some(tx));
      RowWritten(l, n, id, row, {tx}, [PaymentSucceeded(Named(id, row), Some(tx))])
    else
      var paid := o.(status := Paid, payment := PaymentPaid, reservation := None);
      var row := paid.(transactionId := Some(tx));
      RowWritten(l, n, id, row, {tx}, [Changed(id, o, paid, System), PaymentSucceeded(Named(id, row), Some(tx))])
  }

  predicate CanBeSettled(l: Ledger, id: OrderId, tx: TxId) {
    id in l.orders && (l.orders[id].status == Paid || CanBePaid(l.orders[id])) && !HeldElsewhere(l, tx, id)
  }

  lemma SettlingDoes(l: Ledger, id: OrderId, tx: TxId)
    ensures var n := Commit(l, SettlePlan(l, id, tx));
            if CanBeSettled(l, id, tx) then PaymentBooked(l, n, id, tx) else n == l
    ensures SettlePlan(l, id, tx).outcome
            == if CanBeSettled(l, id, tx) then Done
               else if id !in l.orders then Failed(NotFound)
               else if l.orders[id].status == Paid || CanBePaid(l.orders[id]) then AlreadyProcessed
               else Failed(Conflict)
  {
    if CanBeSettled(l, id, tx) {
      var o := l.orders[id];
      RefsAreNamed(id, PaidRow(o));
      RefsAreNamed(id, PaidRow(o).(transactionId := Some(tx)));
      RefsAreNamed(id, o.(transactionId := Some(tx)));
      assert !TakenByOther(l.orders, tx, id);
      var p := SettlePlan(l, id, tx);
      if o.status == Paid {
        assert p.events == [PaymentSucceeded(Named(id, o.(transactionId := Some(tx))), Some(tx))];
      } else {
        assert p.events == [Changed(id, o, PaidRow(o), System),
                            PaymentSucceeded(Named(id, PaidRow(o).(transactionId := Some(tx))), Some(tx))];
      }
    }
  }

  /**
   * A notice of the provider. Known: nothing. For no order, or a COD order: the marker. A success: the payment, or
   * nothing at all where it cannot be booked. Anything else: the report, and the cancellation of an order that
   * still waits for its payment, with its items and its coupon use.
   */
  lemma WebhookDoes(l: Ledger, tx: TxId, target: Option<OrderId>, success: bool)
    requires ItemsSound(l)
    ensures var n := Next(l, Webhook(tx, target, success));
            if tx in l.processed then n == l
            else if target.None? || (target.value in l.orders && l.orders[target.value].paymentMethod == Cod) then
              n == l.(processed := l.processed + {tx})
            else
              var id := target.value;
              if success then if CanBeSettled(l, id, tx) then PaymentBooked(l, n, id, tx) else n == l
              else if id !in l.orders then n == l.(processed := l.processed + {tx})
              else
                var report := [PaymentFailureReported(Named(id, l.orders[id]), Some(tx))];
                if l.orders[id].status == Pending then OrderReleased(l, n, id, Cancelled, System, {tx}, report)
                else n == l.(processed := l.processed + {tx}, events := l.events + report)
    ensures PlanOf(l, Webhook(tx, target, success)).outcome
            == if tx in l.processed then AlreadyProcessed
               else if target.None? || (target.value in l.orders && l.orders[target.value].paymentMethod == Cod)
               then Ignored
               else if !success || CanBeSettled(l, target.value, tx) then Done
               else if target.value !in l.orders then Failed(NotFound)
               else if l.orders[target.value].status == Paid || CanBePaid(l.orders[target.value]) then AlreadyProcessed
               else Failed(Conflict)
  {
    assert PlanOf(l, Webhook(tx, target, success)) == WebhookPlan(l, tx, target, success);
    if tx !in l.processed && target.Some?
        && !(target.value in l.orders && l.orders[target.value].paymentMethod == Cod) {
      var id := target.value;
      if success {
        SettlingDoes(l, id, tx);
      } else {
        FailureDoes(l, id, tx);
      }
    }
  }

  lemma FailureDoes(l: Ledger, id: OrderId, tx: TxId)
    requires ItemsSound(l) && tx !in l.processed && (id in l.orders ==> l.orders[id].paymentMethod != Cod)
    ensures var n := Commit(l, WebhookPlan(l, tx, Some(id), false));
            if id !in l.orders then n == l.(processed := l.processed + {tx})
            else
              var report := [PaymentFailureReported(Named(id, l.orders[id]), Some(tx))];
              if l.orders[id].status == Pending then OrderReleased(l, n, id, Cancelled, System, {tx}, report)
              else n == l.(processed := l.processed + {tx}, events := l.events + report)
    ensures WebhookPlan(l, tx, Some(id), false).outcome == Done
  {
    if id in l.orders {
      RefsAreNamed(id, l.orders[id]);
      var report := [PaymentFailureReported(Named(id, l.orders[id]), Some(tx))];
      if l.orders[id].status == Pending { ReleasingReleases(l, id, Cancelled, System, {tx}, report); }
      assert report + [] == report;
    }
  }

  /** A refund of 0 piasters asks for everything; more than the total is not refused. */
  lemma RefundDoes(l: Ledger, id: OrderId, amount: nat, providerAccepts: bool)
    ensures var n := Next(l, Refund(id, amount, providerAccepts));
            if id in l.orders && l.orders[id].status == Paid && l.orders[id].payment != PaymentRefunded
               && l.orders[id].transactionId.Some? && providerAccepts
            then
              var o := l.orders[id];
              var row := o.(status := Refunded, payment := PaymentRefunded);
              var refunded := if amount == 0 then o.amounts.total else amount;
              RowWritten(l, n, id, row, {},
                         [Changed(id, o, row, Admin),
                          PaymentRefundIssued(Named(id, row), refunded, refunded < o.amounts.total)])
            else n == l
    ensures var out := PlanOf(l, Refund(id, amount, providerAccepts)).outcome;
            (out == Done <==> Next(l, Refund(id, amount, providerAccepts)) != l)
            && (out != Done ==> out == Failed(if id in l.orders then BadRequest else NotFound))
  {
    assert PlanOf(l, Refund(id, amount, providerAccepts)) == RefundPlan(l, id, amount, providerAccepts);
  }

  lemma RepairPendingDoes(l: Ledger, id: OrderId, tx: TxId)
    requires id in l.orders ==> l.orders[id].paymentMethod == Online
    ensures var n := Next(l, RepairPending(id, tx));
            if tx !in l.processed && CanBeSettled(l, id, tx) then PaymentBooked(l, n, id, tx) else n == l
    ensures PlanOf(l, RepairPending(id, tx)).outcome == Done <==> tx !in l.processed && CanBeSettled(l, id, tx)
  {
    assert PlanOf(l, RepairPending(id, tx)) == RepairPendingPlan(l, id, tx);
    SettlingDoes(l, id, tx);
  }

  /** Each item is on sale with enough of it in stock. */
  predicate InStock(l: Ledger, items: seq<Item>) {
    forall i :: 0 <= i < |items| ==>
      items[i].variant in l.variants && l.variants[items[i].variant].isAvailable
      && l.variants[items[i].variant].stock >= items[i].quantity
  }

  lemma InStockIsCanTake(l: Ledger, items: seq<Item>)
    ensures CanTake(l.variants, items) <==> InStock(l, items)
  {
    assert forall i :: 0 <= i < |items| ==> items[i] in items;
  }

  predicate CanBeRetaken(l: Ledger, id: OrderId, tx: TxId) {
    id in l.orders && (l.orders[id].status == Cancelled || l.orders[id].status == Expired)
    && l.orders[id].payment != PaymentPaid && !HeldElsewhere(l, tx, id) && InStock(l, l.orders[id].items)
    && tx !in l.processed
  }

  /** The coupon still has uses left, or does not count them. */
  predicate HasUses(l: Ledger, c: CouponId) {
    c in l.coupons && (l.coupons[c].usageLimit.None? || l.coupons[c].usageCount < l.coupons[c].usageLimit.value)
  }

  /** The order is paid and holds its items again; the use is counted while the coupon has uses left. */
  ghost predicate OrderRetaken(l: Ledger, n: Ledger, id: OrderId, tx: TxId) {
    id in l.orders
    && var o := l.orders[id];
    var row := o.(status := Paid, payment := PaymentPaid, reservation := None, transactionId := Some(tx));
    && n.orders == l.orders[id := row] && n.gone == l.gone && n.processed == l.processed + {tx}
    && StockMoved(l, n, o.items, -1)
    && UseCounted(l, n, if o.couponId.Some? && HasUses(l, o.couponId.value) then o.couponId else None)
    && n.events == l.events + [StatusChanged(Named(id, row), ContractCancelled, o.status, System),
                               PaymentSucceeded(Named(id, row), Some(tx))]
  }

  lemma RetakingRetakes(l: Ledger, id: OrderId, tx: TxId)
    requires CanBeRetaken(l, id, tx) && l.orders[id].paymentMethod == Online
    ensures var p := RepairReleasedPlan(l, id, tx); p.outcome == Done && OrderRetaken(l, Commit(l, p), id, tx)
  {
    InStockIsCanTake(l, l.orders[id].items);
    RefsAreNamed(id, PaidRow(l.orders[id]).(transactionId := Some(tx)));
    assert !TakenByOther(l.orders, tx, id);
  }

  lemma RetakingIsRefused(l: Ledger, id: OrderId, tx: TxId)
    requires !CanBeRetaken(l, id, tx) && (id in l.orders ==> l.orders[id].paymentMethod == Online)
    ensures var p := RepairReleasedPlan(l, id, tx);
            p == Only(p.outcome) && p.outcome != Done
            && (p.outcome == OutOfStock
                <==> id in l.orders && (l.orders[id].status == Cancelled || l.orders[id].status == Expired)
                     && l.orders[id].payment != PaymentPaid && !HeldElsewhere(l, tx, id)
                     && !InStock(l, l.orders[id].items))
  {
    if id in l.orders { InStockIsCanTake(l, l.orders[id].items); }
    assert HeldElsewhere(l, tx, id) <==> TakenByOther(l.orders, tx, id);
  }

  lemma RepairReleasedDoes(l: Ledger, id: OrderId, tx: TxId)
    requires id in l.orders ==> l.orders[id].paymentMethod == Online
    ensures var n := Next(l, RepairReleased(id, tx));
            if CanBeRetaken(l, id, tx) then OrderRetaken(l, n, id, tx) else n == l
    ensures var out := PlanOf(l, RepairReleased(id, tx)).outcome;
            (out == Done <==> CanBeRetaken(l, id, tx))
            && (out == OutOfStock
                <==> id in l.orders && (l.orders[id].status == Cancelled || l.orders[id].status == Expired)
                     && l.orders[id].payment != PaymentPaid && !HeldElsewhere(l, tx, id)
                     && !InStock(l, l.orders[id].items))
  {
    assert PlanOf(l, RepairReleased(id, tx)) == RepairReleasedPlan(l, id, tx);
    if CanBeRetaken(l, id, tx) {
      RetakingRetakes(l, id, tx);
    } else {
      RetakingIsRefused(l, id, tx);
    }
  }

  // ---------------------------------------------------------------- checkout

  /** The request is well formed: something to buy, nothing twice, a phone, and for COD an address while COD is on. */
  ghost predicate WellFormed(r: CheckoutRequest, x: CheckoutContext) {
    r.items != [] && DistinctVariants(r.items) && r.phoneValid
    && (r.paymentMethod == Cod ==> r.hasAddress && x.settings.codEnabled)
  }

  /** Everything ordered exists, is available and belongs to an active product. */
  predicate OnSale(l: Ledger, items: seq<Item>) {
    forall i :: 0 <= i < |items| ==>
      items[i].variant in l.variants && l.variants[items[i].variant].isAvailable
      && l.variants[items[i].variant].productActive
  }

  lemma {:induction false} NoErrorIffOnSale(l: Ledger, items: seq<Item>)
    ensures ItemError(l.variants, items) == None <==> OnSale(l, items)
  {
    if items != [] {
      NoErrorIffOnSale(l, items[..|items| - 1]);
      assert forall i :: 0 <= i < |items| - 1 ==> items[..|items| - 1][i] == items[i];
    }
  }

  /** The first item that is not on sale decides: unknown or not for sale. */
  lemma {:induction false} FirstBadItemDecides(l: Ledger, items: seq<Item>, k: nat)
    requires k < |items| && OnSale(l, items[..k]) && !OnSale(l, items[..k + 1])
    ensures ItemError(l.variants, items) == Some(if items[k].variant in l.variants then BadRequest else NotFound)
    decreases |items|
  {
    var init := items[..|items| - 1];
    if k == |init| {
      NoErrorIffOnSale(l, init);
      assert init == items[..k];
      assert forall i :: 0 <= i < k ==> items[..k + 1][i] == init[i];
    } else {
      assert init[..k] == items[..k] && init[..k + 1] == items[..k + 1];
      FirstBadItemDecides(l, init, k);
    }
  }

  predicate KeyTaken(l: Ledger, key: Option<nat>) {
    key.Some? && exists id :: id in l.orders && l.orders[id].idempotencyKey == key
  }

  /** A pending, unpaid order of what was asked for; ONLINE ones are reserved for 30 minutes. */
  function Placed(r: CheckoutRequest, amounts: Pricing.Amounts, now: nat): Order {
    var until := if r.paymentMethod == Cod then None else Some(now + 1_800_000);
    Order(Pending, PaymentPending, r.paymentMethod, r.items, amounts, r.couponCode, r.userId, r.idempotencyKey,
          until, None)
  }

  /**
   * A checkout goes through exactly when its key is new, the request is well formed, the items are on sale and in
   * stock, and the amounts can be charged. It then adds the order, takes the items from stock and counts the coupon.
   */
  lemma CheckoutDoes(l: Ledger, id: OrderId, r: CheckoutRequest, x: CheckoutContext)
    requires id !in l.orders && id !in l.gone
    ensures var n := Next(l, Create(id, r, x));
            if !KeyTaken(l, r.idempotencyKey) && WellFormed(r, x) && OnSale(l, r.items) && InStock(l, r.items)
               && Charge(l, r, x).Ok?
            then
              var o := Placed(r, Charge(l, r, x).value, x.now);
              && n.orders == l.orders[id := o] && n.gone == l.gone && n.processed == l.processed
              && StockMoved(l, n, r.items, -1) && UseCounted(l, n, r.couponCode) && ItemsKnown(r.items, n.variants)
              && n.events == l.events + ([OrderCreated(Named(id, o))] + StockNotices(r.items, n.variants, -1, Sale, id))
            else n == l
  {
    NoErrorIffOnSale(l, r.items);
    InStockIsCanTake(l, r.items);
    var s := Create(id, r, x);
    assert PlanOf(l, s) == CreatePlan(l, id, r, x);
    if CreatePlan(l, id, r, x).effect.Admit? {
      OrderIsAdmitted(l, id, r, x);
    } else {
      assert CreatePlan(l, id, r, x) == Only(CreatePlan(l, id, r, x).outcome);
    }
  }

  /** What a checkout answers: the order that has its key, the first thing wrong with it, or that it is done. */
  lemma CheckoutAnswers(l: Ledger, id: OrderId, r: CheckoutRequest, x: CheckoutContext)
    requires id !in l.orders && id !in l.gone
    ensures var out := PlanOf(l, Create(id, r, x)).outcome;
            if KeyTaken(l, r.idempotencyKey) then
              out.Existing? && out.order in l.orders && l.orders[out.order].idempotencyKey == r.idempotencyKey
            else if !WellFormed(r, x) then out == Failed(BadRequest)
            else if !OnSale(l, r.items) then out.Failed? && ItemError(l.variants, r.items) == Some(out.error)
            else if !InStock(l, r.items) then out == Failed(BadRequest)
            else out == if Charge(l, r, x).Ok? then Done else Failed(Charge(l, r, x).error)
  {
    NoErrorIffOnSale(l, r.items);
    InStockIsCanTake(l, r.items);
    assert PlanOf(l, Create(id, r, x)) == CreatePlan(l, id, r, x);
  }

  lemma OrderIsAdmitted(l: Ledger, id: OrderId, r: CheckoutRequest, x: CheckoutContext)
    requires CreatePlan(l, id, r, x).effect.Admit? && OnSale(l, r.items)
    ensures Charge(l, r, x).Ok?
    ensures var n := Commit(l, CreatePlan(l, id, r, x));
            var o := Placed(r, Charge(l, r, x).value, x.now);
            && n.orders == l.orders[id := o] && n.gone == l.gone && n.processed == l.processed
            && StockMoved(l, n, r.items, -1) && UseCounted(l, n, r.couponCode) && ItemsKnown(r.items, n.variants)
            && n.events == l.events + ([OrderCreated(Named(id, o))] + StockNotices(r.items, n.variants, -1, Sale, id))
  {
    StockEventsAreNotices(r.items, ShiftStock(l.variants, r.items, -1), -1, Sale, id);
    RefsAreNamed(id, NewOrder(r, Charge(l, r, x).value, x.now));
    if r.couponCode.Some? { ChargedCoupon(l, r, x); }
  }

  /** The uses that count against a customer: their own orders with the coupon that were not cancelled or expired. */
  lemma CustomerUses(l: Ledger, user: UserId, c: CouponId, id: OrderId)
    ensures id in UsesOf(l.orders, user, c)
            <==> id in l.orders && l.orders[id].userId == Some(user) && l.orders[id].couponId == Some(c)
                 && l.orders[id].status != Cancelled && l.orders[id].status != Expired
  {
  }
}
