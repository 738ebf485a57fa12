/**
 * What every step keeps. `Inv` is the invariant of the store; `EffectOk` is what the guards of the services
 * establish before an effect is applied. `PlanIsSound` covers the guards of every transaction at once, so each
 * later property only has to be proved for the ten effects.
 */
module LedgerInvariant {
  import opened Results
  import Pricing
  import opened OrderModel
  import opened Ledger

  /** The clauses need each other: none is kept alone by every step. */
  predicate PaymentsOk(o: Order) {
    && (o.status == Paid ==> o.payment == PaymentPaid && o.reservation.None?)
    && (o.payment == PaymentRefunded ==> o.status == Refunded)
    && (o.transactionId.Some? ==> o.paymentMethod == Online)
    && (o.status == Pending || o.status == Expired ==> o.payment == PaymentPending)
    && (o.status == Cancelled && o.payment == PaymentPaid ==> o.paymentMethod == Cod)
    && o.payment != PaymentFailed
    && (o.paymentMethod == Cod ==> o.reservation.None?)
  }

  ghost predicate OrderOk(l: Ledger, o: Order) {
    PaymentsOk(o) && DistinctVariants(o.items) && ItemsKnown(o.items, l.variants)
    && (o.couponId.Some? ==> o.couponId.value in l.coupons)
  }

  ghost predicate OrdersOk(l: Ledger) {
    forall id {:trigger OrderOk(l, l.orders[id])} :: id in l.orders ==> OrderOk(l, l.orders[id])
  }

  ghost predicate StockOk(l: Ledger) {
    forall v :: v in l.variants ==> l.variants[v].stock >= 0
  }

  ghost predicate CouponsOk(l: Ledger) {
    forall c :: c in l.coupons ==> CouponOk(l.coupons[c])
  }

  predicate CouponOk(c: Pricing.Coupon) {
    c.usageCount >= 0
  }

  ghost predicate TransactionsUnique(orders: map<OrderId, Order>) {
    forall a, b :: a in orders && b in orders && a != b && orders[a].transactionId.Some?
      ==> orders[a].transactionId != orders[b].transactionId
  }

  ghost predicate KeysUnique(orders: map<OrderId, Order>) {
    forall a, b :: a in orders && b in orders && a != b && orders[a].idempotencyKey.Some?
      ==> orders[a].idempotencyKey != orders[b].idempotencyKey
  }

  ghost predicate Inv(l: Ledger) {
    StockOk(l) && CouponsOk(l) && OrdersOk(l) && l.orders.Keys !! l.gone.Keys
    && TransactionsUnique(l.orders) && KeysUnique(l.orders)
  }

  // ---------------------------------------------------------------- what the guards establish

  /** Facts no step ever changes on an order, apart from the coupon link being cleared. */
  predicate SameFacts(o: Order, row: Order) {
    row == o.(status := row.status, payment := row.payment, reservation := row.reservation,
              transactionId := row.transactionId)
  }

  predicate PaymentStep(before: PaymentStatus, after: PaymentStatus) {
    before == after
    || (before == PaymentPending && after == PaymentPaid)
    || (before == PaymentPaid && after == PaymentRefunded)
  }

  /** The status links that can occur: the table, and the two repairs. */
  predicate Linked(before: OrderStatus, after: OrderStatus) {
    after in AllowedTransitions(before) || (Released(before) && after == Paid)
  }

  /** Entering PAID is what moves the payment to PAID. */
  predicate StatusStep(o: Order, row: Order) {
    o.status == row.status
    || (Linked(o.status, row.status)
        && (row.status == Paid ==> o.payment == PaymentPending && row.payment == PaymentPaid))
  }

  ghost predicate TransactionStep(l: Ledger, id: OrderId, o: Order, row: Order) {
    row.transactionId == o.transactionId
    || (row.transactionId.Some? && !TakenByOther(l.orders, row.transactionId.value, id))
  }

  ghost predicate RowStep(l: Ledger, id: OrderId, row: Order) {
    id in l.orders
    && var o := l.orders[id];
    SameFacts(o, row) && PaymentsOk(row) && PaymentStep(o.payment, row.payment) && StatusStep(o, row)
    && TransactionStep(l, id, o, row)
  }

  ghost predicate EffectOk(l: Ledger, e: Effect) {
    match e
    case Keep => true
    case Admit(id, row) =>
      id !in l.orders && id !in l.gone && row.status == Pending && row.transactionId.None?
      && PaymentsOk(row) && DistinctVariants(row.items) && CanTake(l.variants, row.items)
      && (row.couponId.Some? ==> row.couponId.value in l.coupons && !AtLimit(l.coupons, row.couponId))
      && !KeyUsed(l.orders, row.idempotencyKey)
    case Move(id, row) => RowStep(l, id, row) && (Released(row.status) <==> Released(l.orders[id].status))
    case Release(id, row) =>
      RowStep(l, id, row) && HoldsStock(l.orders[id].status) && Released(row.status)
      && (row.paymentMethod == Cod || l.orders[id].status == Pending)
      && row.payment == l.orders[id].payment && row.transactionId == l.orders[id].transactionId
    case Retake(id, row, overLimit) =>
      RowStep(l, id, row) && Released(l.orders[id].status) && row.status == Paid && row.paymentMethod == Online
      && CanTake(l.variants, row.items) && overLimit == AtLimit(l.coupons, row.couponId)
    case Drop(id) => id in l.orders
    case PutVariant(v, row) => row.stock >= 0
    case DropVariant(v) => v in l.variants && !VariantReferenced(l, v)
    case PutCoupon(c, row) =>
      if c in l.coupons
      then row.usageCount == l.coupons[c].usageCount
      else row.usageCount == 0 && !CouponReferenced(l, c)
    case DropCoupon(c) => c in l.coupons
  }

  // ---------------------------------------------------------------- status links in the events

  datatype Link = Link(order: OrderId, before: OrderStatus, after: OrderStatus, contractBefore: ContractStatus,
                       contractAfter: ContractStatus)

  function LinkOf(e: Event): seq<Link> {
    if e.StatusChanged?
    then [Link(e.order.id, e.backendFrom, e.order.backendStatus, e.contractFrom, e.order.status)] else []
  }

  function Links(events: seq<Event>): seq<Link> {
    if events == [] then [] else Links(events[..|events| - 1]) + LinkOf(events[|events| - 1])
  }

  lemma {:induction false} LinksConcat(a: seq<Event>, b: seq<Event>)
    ensures Links(a + b) == Links(a) + Links(b)
  {
    if b == [] {
      assert a + b == a;
    } else {
      assert (a + b)[..|a + b| - 1] == a + b[..|b| - 1];
      LinksConcat(a, b[..|b| - 1]);
    }
  }

  /** The link an effect makes: one if the status of its order changes, else none. */
  function LinkMade(l: Ledger, e: Effect): seq<Link> {
    if (e.Move? || e.Release? || e.Retake?) && e.id in l.orders && l.orders[e.id].status != e.row.status
    then
      var o := l.orders[e.id];
      [Link(e.id, o.status, e.row.status, ToContractStatus(o.status, o.paymentMethod),
            ToContractStatus(e.row.status, o.paymentMethod))]
    else []
  }

  lemma {:induction false} StockEventsCarryNoLink(items: seq<Item>, after: map<VariantId, Variant>, sign: int,
                                                  reason: StockReason, id: OrderId)
    ensures Links(StockEvents(items, after, sign, reason, id)) == []
  {
    if items != [] {
      var init := items[..|items| - 1];
      StockEventsCarryNoLink(init, after, sign, reason, id);
      var it := items[|items| - 1];
      if it.variant in after {
        var last := StockChanged(it.variant, after[it.variant].stock, sign * it.quantity, reason, id);
        assert StockEvents(items, after, sign, reason, id) == StockEvents(init, after, sign, reason, id) + [last];
        LinksConcat(StockEvents(init, after, sign, reason, id), [last]);
        LinksOfOne(last);
      } else {
        assert StockEvents(items, after, sign, reason, id) == StockEvents(init, after, sign, reason, id);
      }
    }
  }

  lemma ReleaseEventsLink(l: Ledger, id: OrderId, before: Order, after: Order, actor: Actor)
    ensures Links(ReleaseEvents(l, id, before, after, actor))
            == LinkOf(StatusEvent(id, before, after, actor))
  {
    var head := [StatusEvent(id, before, after, actor),
                 OrderCancelled(ToOrderRef(id, after), actor, after.payment == PaymentPaid)];
    var tail := StockEvents(after.items, ShiftStock(l.variants, after.items, 1), 1, Cancel, id);
    LinksConcat(head, tail);
    StockEventsCarryNoLink(after.items, ShiftStock(l.variants, after.items, 1), 1, Cancel, id);
    LinksOfPair(head[0], head[1]);
  }

  lemma LinksOfOne(a: Event)
    ensures Links([a]) == LinkOf(a)
  {
    assert [a][..0] == [];
  }

  lemma LinksOfPair(a: Event, b: Event)
    ensures Links([a, b]) == LinkOf(a) + LinkOf(b)
  {
    assert [a, b][..1] == [a];
    LinksOfOne(a);
  }

  // ---------------------------------------------------------------- every plan is sound

  ghost predicate PlanOk(l: Ledger, p: Plan) {
    EffectOk(l, p.effect) && Links(p.events) == LinkMade(l, p.effect)
  }

  /** All the guards need of the invariant. */
  ghost predicate PaymentsOkAt(l: Ledger, id: OrderId) {
    id in l.orders ==> PaymentsOk(l.orders[id])
  }

  lemma InvAt(l: Ledger, id: OrderId)
    requires Inv(l)
    ensures PaymentsOkAt(l, id)
  {
    if id in l.orders { assert OrderOk(l, l.orders[id]); }
  }

  lemma MarkPaidSound(l: Ledger, id: OrderId, actor: Actor)
    requires PaymentsOkAt(l, id)
    ensures PlanOk(l, MarkPaidPlan(l, id, actor))
  {
    if id in l.orders {
      LinksOfOne(StatusEvent(id, l.orders[id], PaidRow(l.orders[id]), actor));
    }
  }

  lemma ReleaseSound(l: Ledger, id: OrderId, to: OrderStatus, actor: Actor)
    requires PaymentsOkAt(l, id) && id in l.orders
    requires to in AllowedTransitions(l.orders[id].status) && Released(to)
    requires l.orders[id].paymentMethod == Cod || l.orders[id].status == Pending
    ensures PlanOk(l, ReleasePlan(l, id, to, actor))
  {
    var o := l.orders[id];
    ReleaseEventsLink(l, id, o, ReleasedRow(o, to), actor);
  }

  lemma TransitionSound(l: Ledger, id: OrderId, next: OrderStatus, actor: Actor)
    requires PaymentsOkAt(l, id)
    ensures PlanOk(l, TransitionPlan(l, id, next, actor))
  {
    if id in l.orders && next in AllowedTransitions(l.orders[id].status) {
      if Released(next) {
        TransitionReleaseSound(l, id, next, actor);
      } else if next == Paid {
        MarkPaidSound(l, id, actor);
      } else {
        PlainTransitionSound(l, id, next, actor);
      }
    }
  }

  lemma TransitionReleaseSound(l: Ledger, id: OrderId, next: OrderStatus, actor: Actor)
    requires PaymentsOkAt(l, id) && id in l.orders && next in AllowedTransitions(l.orders[id].status) && Released(next)
    ensures PlanOk(l, TransitionPlan(l, id, next, actor))
  {
    var o := l.orders[id];
    if o.paymentMethod == Cod || o.status == Pending { ReleaseSound(l, id, next, actor); }
  }

  lemma PlainTransitionSound(l: Ledger, id: OrderId, next: OrderStatus, actor: Actor)
    requires PaymentsOkAt(l, id) && id in l.orders && next in AllowedTransitions(l.orders[id].status)
    requires !Released(next) && next != Paid
    ensures var p := TransitionPlan(l, id, next, actor);
            PlanOk(l, p) && p.effect == Move(id, l.orders[id].(status := next))
  {
    var o := l.orders[id];
    LinksOfOne(StatusEvent(id, o, o.(status := next), actor));
  }

  lemma CancelPendingSound(l: Ledger, id: OrderId, to: OrderStatus, lapsedAt: Option<nat>, actor: Actor)
    requires PaymentsOkAt(l, id) && Released(to)
    ensures PlanOk(l, CancelPendingPlan(l, id, to, lapsedAt, actor))
  {
    if id in l.orders && l.orders[id].status == Pending { ReleaseSound(l, id, to, actor); }
  }

  lemma CustomerCancelSound(l: Ledger, id: OrderId)
    requires PaymentsOkAt(l, id)
    ensures PlanOk(l, CustomerCancelPlan(l, id))
  {
    if id in l.orders && Cancelled in AllowedTransitions(l.orders[id].status)
       && (l.orders[id].paymentMethod == Cod || l.orders[id].status == Pending) {
      ReleaseSound(l, id, Cancelled, Customer);
    }
  }

  lemma CollectCodSound(l: Ledger, id: OrderId)
    requires PaymentsOkAt(l, id)
    ensures PlanOk(l, CollectCodPlan(l, id))
  {
    if id in l.orders {
      LinksOfOne(PaymentSucceeded(ToOrderRef(id, l.orders[id].(payment := PaymentPaid)), None));
    }
  }

  lemma SettleSound(l: Ledger, id: OrderId, tx: TxId)
    requires PaymentsOkAt(l, id) && (id in l.orders ==> l.orders[id].paymentMethod == Online)
    ensures PlanOk(l, SettlePlan(l, id, tx))
  {
    var p := SettlePlan(l, id, tx);
    if p.effect.Move? {
      var paid := MarkPaidPlan(l, id, System);
      MarkPaidSound(l, id, System);
      LinksConcat(paid.events, [PaymentSucceeded(ToOrderRef(id, p.effect.row), Some(tx))]);
      LinksOfOne(PaymentSucceeded(ToOrderRef(id, p.effect.row), Some(tx)));
    }
  }

  lemma WebhookSound(l: Ledger, tx: TxId, target: Option<OrderId>, success: bool)
    requires target.Some? ==> PaymentsOkAt(l, target.value)
    ensures PlanOk(l, WebhookPlan(l, tx, target, success))
  {
    if tx !in l.processed && target.Some? {
      var id := target.value;
      if id in l.orders && l.orders[id].paymentMethod == Cod {
      } else if success {
        SettleSound(l, id, tx);
      } else {
        CancelPendingSound(l, id, Cancelled, None, System);
        var cancelled := CancelPendingPlan(l, id, Cancelled, None, System);
        if id in l.orders {
          var report := PaymentFailureReported(ToOrderRef(id, l.orders[id]), Some(tx));
          LinksConcat([report], cancelled.events);
          LinksOfOne(report);
        } else {
          assert [] + cancelled.events == cancelled.events;
        }
      }
    }
  }

  lemma RefundSound(l: Ledger, id: OrderId, amount: nat, providerAccepts: bool)
    requires PaymentsOkAt(l, id)
    ensures PlanOk(l, RefundPlan(l, id, amount, providerAccepts))
  {
    var p := RefundPlan(l, id, amount, providerAccepts);
    if p.effect.Move? {
      LinksOfPair(p.events[0], p.events[1]);
    }
  }

  lemma RepairReleasedSound(l: Ledger, id: OrderId, tx: TxId)
    requires PaymentsOkAt(l, id)
    ensures PlanOk(l, RepairReleasedPlan(l, id, tx))
  {
    var p := RepairReleasedPlan(l, id, tx);
    if p.effect.Retake? {
      LinksOfPair(p.events[0], p.events[1]);
    }
  }

  lemma ChargedCoupon(l: Ledger, r: CheckoutRequest, x: CheckoutContext)
    requires Charge(l, r, x).Ok? && r.couponCode.Some?
    ensures r.couponCode.value in l.coupons && !AtLimit(l.coupons, r.couponCode)
  {
  }

  lemma NewOrderSound(l: Ledger, id: OrderId, r: CheckoutRequest, x: CheckoutContext)
    requires CreatePlan(l, id, r, x).effect.Admit?
    ensures EffectOk(l, CreatePlan(l, id, r, x).effect)
  {
    if r.couponCode.Some? { ChargedCoupon(l, r, x); }
    var charged := Charge(l, r, x);
    assert DistinctVariants(r.items);
    assert !KeyUsed(l.orders, r.idempotencyKey);
  }

  lemma CreationMakesNoLink(id: OrderId, o: Order, after: map<VariantId, Variant>)
    ensures Links([OrderCreated(ToOrderRef(id, o))] + StockEvents(o.items, after, -1, Sale, id)) == []
  {
    LinksConcat([OrderCreated(ToOrderRef(id, o))], StockEvents(o.items, after, -1, Sale, id));
    LinksOfOne(OrderCreated(ToOrderRef(id, o)));
    StockEventsCarryNoLink(o.items, after, -1, Sale, id);
  }

  lemma CreateSound(l: Ledger, id: OrderId, r: CheckoutRequest, x: CheckoutContext)
    ensures PlanOk(l, CreatePlan(l, id, r, x))
  {
    var p := CreatePlan(l, id, r, x);
    if p.effect.Admit? {
      CreationMakesNoLink(id, p.effect.row, ShiftStock(l.variants, p.effect.row.items, -1));
      NewOrderSound(l, id, r, x);
    } else {
      assert p == Only(p.outcome);
    }
  }

  lemma AttachSound(l: Ledger, id: OrderId, tx: TxId)
    requires PaymentsOkAt(l, id)
    ensures PlanOk(l, AttachPlan(l, id, tx))
  {
  }

  /** The order a step looks at. */
  function Subject(s: Step): Option<OrderId> {
    match s
    case Webhook(_, target, _) => target
    case AddVariant(_, _) | EditVariant(_, _) | RemoveVariant(_) => None
    case AddCoupon(_, _) | EditCoupon(_, _) | RemoveCoupon(_) => None
    case _ => Some(s.id)
  }

  /** The guards of every transaction establish what its effect needs, and its events report its link. */
  lemma PlanIsSound(l: Ledger, s: Step)
    requires Inv(l)
    ensures PlanOk(l, PlanOf(l, s))
  {
    if Subject(s).Some? {
      InvAt(l, Subject(s).value);
    }
    GuardsAreSound(l, s);
  }

  lemma GuardsAreSound(l: Ledger, s: Step)
    requires Subject(s).Some? ==> PaymentsOkAt(l, Subject(s).value)
    ensures PlanOk(l, PlanOf(l, s))
  {
    match s
    case Create(id, request, context) => CreateSound(l, id, request, context);
    case Transition(id, next, actor) => TransitionSound(l, id, next, actor);
    case CustomerCancel(id) => CustomerCancelSound(l, id);
    case Expire(id, now) => CancelPendingSound(l, id, Expired, Some(now), System);
    case DeletePermanently(id) => assert Links([]) == [];
    case AttachTransaction(id, tx) => AttachSound(l, id, tx);
    case _ =>
      if MovesMoney(s) {
        PaymentGuardsAreSound(l, s);
      } else {
        CatalogueSound(l, s);
      }
  }

  predicate MovesMoney(s: Step) {
    s.MarkPaid? || s.CollectCod? || s.Webhook? || s.Refund? || s.RepairPending? || s.RepairReleased?
  }

  lemma PaymentGuardsAreSound(l: Ledger, s: Step)
    requires MovesMoney(s) && (Subject(s).Some? ==> PaymentsOkAt(l, Subject(s).value))
    ensures PlanOk(l, PlanOf(l, s))
  {
    match s
    case MarkPaid(id, actor) => MarkPaidSound(l, id, actor);
    case CollectCod(id) => CollectCodSound(l, id);
    case Webhook(tx, target, success) => WebhookSound(l, tx, target, success);
    case Refund(id, amount, providerAccepts) => RefundSound(l, id, amount, providerAccepts);
    case RepairPending(id, tx) => RepairPendingSound(l, id, tx);
    case RepairReleased(id, tx) => RepairReleasedSound(l, id, tx);
  }

  lemma RepairPendingSound(l: Ledger, id: OrderId, tx: TxId)
    requires PaymentsOkAt(l, id)
    ensures PlanOk(l, RepairPendingPlan(l, id, tx))
  {
    if id !in l.orders || l.orders[id].paymentMethod != Cod { SettleSound(l, id, tx); }
  }

  lemma CatalogueSound(l: Ledger, s: Step)
    ensures PlanOk(l, CataloguePlan(l, s))
  {
    assert Links([]) == [];
  }

  // ---------------------------------------------------------------- the invariant is kept

  lemma StockKept(l: Ledger, e: Effect)
    requires Inv(l) && EffectOk(l, e)
    ensures StockOk(Affect(l, e))
  {
    if e.Admit? || e.Retake? {
      if e.Retake? { assert OrderOk(l, l.orders[e.id]); }
      forall v | v in l.variants ensures Affect(l, e).variants[v].stock >= 0 {
        TakenAtMostStock(l.variants, e.row.items, v);
      }
    }
  }

  /** The per-item guard bounds what the whole reservation takes from a variant: this is why duplicates are refused. */
  lemma TakenAtMostStock(variants: map<VariantId, Variant>, items: seq<Item>, v: VariantId)
    requires v in variants && variants[v].stock >= 0 && CanTake(variants, items) && DistinctVariants(items)
    ensures QuantityOf(items, v) <= variants[v].stock
  {
    if i :| 0 <= i < |items| && items[i].variant == v {
      QuantityAt(items, i);
      assert items[i] in items;
    } else {
      QuantityAbsent(items, v);
    }
  }

  lemma CouponsKept(l: Ledger, e: Effect)
    requires Inv(l) && EffectOk(l, e)
    ensures CouponsOk(Affect(l, e))
  {
  }

  lemma OrdersKept(l: Ledger, e: Effect)
    requires Inv(l) && EffectOk(l, e)
    ensures OrdersOk(Affect(l, e))
  {
    var l' := Affect(l, e);
    forall id | id in l'.orders ensures OrderOk(l', l'.orders[id]) {
      if id in l.orders {
        assert OrderOk(l, l.orders[id]);
        ItemsStayKnown(l, e, id);
        OrderStaysOk(l, e, id);
      } else {
        NewOrderIsOk(l, e);
      }
    }
  }

  lemma OrderStaysOk(l: Ledger, e: Effect, id: OrderId)
    requires EffectOk(l, e) && id in l.orders && OrderOk(l, l.orders[id]) && id in Affect(l, e).orders
    requires ItemsKnown(l.orders[id].items, Affect(l, e).variants)
    ensures OrderOk(Affect(l, e), Affect(l, e).orders[id])
  {
  }

  lemma NewOrderIsOk(l: Ledger, e: Effect)
    requires e.Admit? && EffectOk(l, e)
    ensures OrderOk(Affect(l, e), e.row)
  {
    assert forall i :: 0 <= i < |e.row.items| ==> e.row.items[i] in e.row.items;
  }

  lemma ItemsStayKnown(l: Ledger, e: Effect, id: OrderId)
    requires Inv(l) && EffectOk(l, e) && id in l.orders
    ensures ItemsKnown(l.orders[id].items, Affect(l, e).variants)
  {
    assert OrderOk(l, l.orders[id]);
    if e.DropVariant? {
      assert !QuantityListed(l.orders[id].items, e.variant);
    }
  }

  lemma TablesKept(l: Ledger, e: Effect)
    requires Inv(l) && EffectOk(l, e)
    ensures var l' := Affect(l, e);
            l'.orders.Keys !! l'.gone.Keys && KeysUnique(l'.orders) && TransactionsUnique(l'.orders)
  {
    if e.Admit? {
      assert NewRowFits(l.orders, e.id, e.row);
      PutKeepsUnique(l.orders, e.id, e.row);
    } else if e.Move? || e.Release? || e.Retake? {
      ChangedRowFits(l, e.id, e.row);
      PutKeepsUnique(l.orders, e.id, e.row);
    }
  }

  /** The row's key and transaction belong to no other order. */
  ghost predicate NewRowFits(orders: map<OrderId, Order>, id: OrderId, row: Order) {
    (forall other :: other in orders && other != id && row.idempotencyKey.Some? ==>
       orders[other].idempotencyKey != row.idempotencyKey)
    && (row.transactionId.Some? ==> !TakenByOther(orders, row.transactionId.value, id))
  }

  lemma ChangedRowFits(l: Ledger, id: OrderId, row: Order)
    requires TransactionsUnique(l.orders) && KeysUnique(l.orders) && RowStep(l, id, row)
    ensures NewRowFits(l.orders, id, row)
  {
    var o := l.orders[id];
    assert row.idempotencyKey == o.idempotencyKey;
    if row.transactionId == o.transactionId && row.transactionId.Some? {
      assert !TakenByOther(l.orders, row.transactionId.value, id);
    }
  }

  lemma PutKeepsUnique(orders: map<OrderId, Order>, id: OrderId, row: Order)
    requires TransactionsUnique(orders) && KeysUnique(orders) && NewRowFits(orders, id, row)
    ensures TransactionsUnique(orders[id := row]) && KeysUnique(orders[id := row])
  {
    if row.transactionId.Some? { assert !TakenByOther(orders, row.transactionId.value, id); }
  }

  /** The foreign keys of the order items, and no variant twice in an order. */
  ghost predicate ItemsSound(l: Ledger) {
    forall id :: id in l.orders ==> DistinctVariants(l.orders[id].items) && ItemsKnown(l.orders[id].items, l.variants)
  }

  lemma InvItems(l: Ledger)
    requires Inv(l)
    ensures ItemsSound(l)
  {
    forall id | id in l.orders
      ensures DistinctVariants(l.orders[id].items) && ItemsKnown(l.orders[id].items, l.variants)
    {
      assert OrderOk(l, l.orders[id]);
    }
  }

  lemma PlanKeepsInv(l: Ledger, p: Plan)
    requires Inv(l) && EffectOk(l, p.effect)
    ensures Inv(Commit(l, p))
  {
    var e := p.effect;
    StockKept(l, e);
    CouponsKept(l, e);
    OrdersKept(l, e);
    TablesKept(l, e);
    var a, n := Affect(l, e), Commit(l, p);
    assert n == a.(processed := n.processed, events := n.events);
    forall id | id in n.orders ensures OrderOk(n, n.orders[id]) { assert OrderOk(a, a.orders[id]); }
  }

  /** Every step keeps the invariant. */
  lemma StepKeepsInv(l: Ledger, s: Step)
    requires Inv(l)
    ensures Inv(Next(l, s))
  {
    PlanIsSound(l, s);
    PlanKeepsInv(l, PlanOf(l, s));
  }

  lemma {:induction false} RunKeepsInv(l: Ledger, steps: seq<Step>)
    requires Inv(l)
    ensures Inv(Run(l, steps))
  {
    if steps != [] {
      RunKeepsInv(l, steps[..|steps| - 1]);
      StepKeepsInv(Run(l, steps[..|steps| - 1]), steps[|steps| - 1]);
    }
  }
}
