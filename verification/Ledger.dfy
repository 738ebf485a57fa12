/**
 * The store shared by checkout, order administration, payments and reconciliation, as a state machine.
 *
 * Every transaction of the services is one step. A step is first planned (`PlanOf`): the guards decide the
 * outcome, the effect on the tables and the events. The plan is then committed. A transaction that throws
 * plans `Keep` and leaves the store as it was. `gone` remembers the rows that were permanently deleted; it is
 * not stored anywhere and only the properties read it.
 */
module Ledger {
  import opened Results
  import opened Pricing
  import opened OrderModel

  datatype Ledger = Ledger(
    variants: map<VariantId, Variant>, coupons: map<CouponId, Coupon>, orders: map<OrderId, Order>,
    processed: set<TxId>, events: seq<Event>, gone: map<OrderId, Order>)

  datatype CheckoutRequest = CheckoutRequest(
    idempotencyKey: Option<nat>, userId: Option<UserId>, items: seq<Item>, paymentMethod: PaymentMethod,
    couponCode: Option<CouponId>, phoneValid: bool, hasAddress: bool, hasCity: bool)

  /** What a checkout reads besides the ledger: the clock, the site settings, and the price of the city's zone. */
  datatype CheckoutContext = CheckoutContext(now: nat, settings: SiteSettings, zonePrice: Option<nat>)

  datatype Step =
    | Create(id: OrderId, request: CheckoutRequest, context: CheckoutContext)
    | MarkPaid(id: OrderId, actor: Actor)
    | CollectCod(id: OrderId)
    | Transition(id: OrderId, next: OrderStatus, actor: Actor)
    | CustomerCancel(id: OrderId)
    | Expire(id: OrderId, now: nat)
    | Webhook(tx: TxId, target: Option<OrderId>, success: bool)
    | Refund(id: OrderId, amount: nat, providerAccepts: bool)
    | DeletePermanently(id: OrderId)
    | RepairPending(id: OrderId, tx: TxId)
    | RepairReleased(id: OrderId, tx: TxId)
      // The environment: old data or an operator, and the catalogue and coupon administration.
    | AttachTransaction(id: OrderId, tx: TxId)
    | AddVariant(variant: VariantId, row: Variant)
    | EditVariant(variant: VariantId, row: Variant)
    | RemoveVariant(variant: VariantId)
    | AddCoupon(coupon: CouponId, couponRow: Coupon)
    | EditCoupon(coupon: CouponId, couponRow: Coupon)
    | RemoveCoupon(coupon: CouponId)

  datatype Outcome =
    | Done                    // committed
    | Unmatched               // a conditional update matched no row; nothing written
    | Existing(order: OrderId) // idempotent replay of a checkout
    | AlreadyProcessed        // unique constraint: the payment event is known
    | Ignored                 // acknowledged without effect on the order
    | OutOfStock              // repair refused: the items cannot be reserved again
    | Failed(error: Error)

  /** What one committed transaction does to the tables. */
  datatype Effect =
    | Keep
    | Admit(id: OrderId, row: Order)                    // insert, take stock, count the coupon
    | Move(id: OrderId, row: Order)                     // update the order row only
    | Release(id: OrderId, row: Order)                  // update, return stock, release the coupon use
    | Retake(id: OrderId, row: Order, overLimit: bool)  // update, take stock, count the coupon unless at its limit
    | Drop(id: OrderId)                                 // delete, returning what the order still holds
    | PutVariant(variant: VariantId, variantRow: Variant)
    | DropVariant(variant: VariantId)
    | PutCoupon(coupon: CouponId, couponRow: Coupon)
    | DropCoupon(coupon: CouponId)

  datatype Plan = Plan(effect: Effect, marks: set<TxId>, events: seq<Event>, outcome: Outcome)

  function Only(outcome: Outcome): Plan {
    Plan(Keep, {}, [], outcome)
  }

  // ---------------------------------------------------------------- tables

  function ShiftStock(variants: map<VariantId, Variant>, items: seq<Item>, sign: int): map<VariantId, Variant> {
    map v | v in variants :: variants[v].(stock := variants[v].stock + sign * QuantityOf(items, v))
  }

  /** The guard of the reservation loop: available, with at least the quantity in stock. */
  predicate CanTake(variants: map<VariantId, Variant>, items: seq<Item>) {
    forall it <- items :: it.variant in variants && variants[it.variant].isAvailable
                          && variants[it.variant].stock >= it.quantity
  }

  function CountUse(coupons: map<CouponId, Coupon>, c: Option<CouponId>): map<CouponId, Coupon> {
    if c.Some? && c.value in coupons
    then coupons[c.value := coupons[c.value].(usageCount := coupons[c.value].usageCount + 1)] else coupons
  }

  /** The decrement is conditional on a positive counter. */
  function ReleaseUse(coupons: map<CouponId, Coupon>, c: Option<CouponId>): map<CouponId, Coupon> {
    if c.Some? && c.value in coupons && coupons[c.value].usageCount > 0
    then coupons[c.value := coupons[c.value].(usageCount := coupons[c.value].usageCount - 1)] else coupons
  }

  function ForgetCoupon(orders: map<OrderId, Order>, c: CouponId): map<OrderId, Order> {
    map id | id in orders :: if orders[id].couponId == Some(c) then orders[id].(couponId := None) else orders[id]
  }

  predicate AtLimit(coupons: map<CouponId, Coupon>, c: Option<CouponId>) {
    c.Some? && c.value in coupons && coupons[c.value].usageLimit.Some?
    && coupons[c.value].usageCount >= coupons[c.value].usageLimit.value
  }

  function Affect(l: Ledger, e: Effect): Ledger {
    match e
    case Keep => l
    case Admit(id, row) =>
      l.(orders := l.orders[id := row], variants := ShiftStock(l.variants, row.items, -1),
         coupons := CountUse(l.coupons, row.couponId))
    case Move(id, row) => l.(orders := l.orders[id := row])
    case Release(id, row) =>
      l.(orders := l.orders[id := row], variants := ShiftStock(l.variants, row.items, 1),
         coupons := ReleaseUse(l.coupons, row.couponId))
    case Retake(id, row, overLimit) =>
      l.(orders := l.orders[id := row], variants := ShiftStock(l.variants, row.items, -1),
         coupons := if overLimit then l.coupons else CountUse(l.coupons, row.couponId))
    case Drop(id) =>
      if id !in l.orders then l
      else
        var o := l.orders[id];
        var l' := l.(orders := l.orders - {id}, gone := l.gone[id := o]);
        if HoldsStock(o.status)
        then l'.(variants := ShiftStock(l.variants, o.items, 1), coupons := ReleaseUse(l.coupons, o.couponId))
        else l'
    case PutVariant(v, row) => l.(variants := l.variants[v := row])
    case DropVariant(v) => l.(variants := l.variants - {v})
    case PutCoupon(c, row) => l.(coupons := l.coupons[c := row])
    case DropCoupon(c) => l.(coupons := l.coupons - {c}, orders := ForgetCoupon(l.orders, c))
  }

  function Commit(l: Ledger, p: Plan): Ledger {
    Affect(l, p.effect).(processed := l.processed + p.marks, events := l.events + p.events)
  }

  // ---------------------------------------------------------------- events of a transaction

  function StockEvents(items: seq<Item>, after: map<VariantId, Variant>, sign: int, reason: StockReason, id: OrderId)
    : seq<Event>
  {
    if items == [] then []
    else
      var it := items[|items| - 1];
      StockEvents(items[..|items| - 1], after, sign, reason, id)
      + if it.variant in after
        then [StockChanged(it.variant, after[it.variant].stock, sign * it.quantity, reason, id)] else []
  }

  function StatusEvent(id: OrderId, before: Order, after: Order, actor: Actor): Event {
    StatusChanged(ToOrderRef(id, after), ToContractStatus(before.status, after.paymentMethod), before.status, actor)
  }

  function ReleaseEvents(l: Ledger, id: OrderId, before: Order, after: Order, actor: Actor): seq<Event> {
    [StatusEvent(id, before, after, actor),
     OrderCancelled(ToOrderRef(id, after), actor, after.payment == PaymentPaid)]
    + StockEvents(after.items, ShiftStock(l.variants, after.items, 1), 1, Cancel, id)
  }

  // ---------------------------------------------------------------- plans

  function PaidRow(o: Order): Order {
    o.(status := Paid, payment := PaymentPaid, reservation := None)
  }

  function MarkPaidPlan(l: Ledger, id: OrderId, actor: Actor): Plan {
    if id !in l.orders then Only(Failed(NotFound))
    else
      var o := l.orders[id];
      if o.status == Paid then Only(Done)
      else if Paid !in AllowedTransitions(o.status) then Only(Failed(Conflict))
      else if o.payment == PaymentPaid then Only(Failed(Conflict))
      else Plan(Move(id, PaidRow(o)), {}, [StatusEvent(id, o, PaidRow(o), actor)], Done)
  }

  function ReleasedRow(o: Order, to: OrderStatus): Order {
    o.(status := to, reservation := None)
  }

  function ReleasePlan(l: Ledger, id: OrderId, to: OrderStatus, actor: Actor): Plan
    requires id in l.orders
  {
    var o := l.orders[id];
    Plan(Release(id, ReleasedRow(o, to)), {}, ReleaseEvents(l, id, o, ReleasedRow(o, to), actor), Done)
  }

  /** cancelPendingOrderInTransaction; `lapsedAt` is the optional reservation check. */
  function CancelPendingPlan(l: Ledger, id: OrderId, to: OrderStatus, lapsedAt: Option<nat>, actor: Actor): Plan {
    if id in l.orders && l.orders[id].status == Pending
       && (lapsedAt.Some? ==> l.orders[id].reservation.Some? && l.orders[id].reservation.value <= lapsedAt.value)
    then ReleasePlan(l, id, to, actor)
    else Only(Unmatched)
  }

  /** cancelCodOrderInTransaction */
  function CancelCodPlan(l: Ledger, id: OrderId, to: OrderStatus, actor: Actor): Plan {
    if id in l.orders && l.orders[id].paymentMethod == Cod
       && l.orders[id].status in {Pending, Confirmed, Processing}
    then ReleasePlan(l, id, to, actor)
    else Only(Unmatched)
  }

  function OrConflict(p: Plan): Plan {
    if p.outcome == Unmatched then Only(Failed(Conflict)) else p
  }

  function TransitionPlan(l: Ledger, id: OrderId, next: OrderStatus, actor: Actor): Plan {
    if id !in l.orders then Only(Failed(NotFound))
    else
      var o := l.orders[id];
      if o.status == next then Only(Done)
      else if next !in AllowedTransitions(o.status) then Only(Failed(Conflict))
      else if Released(next) then
        OrConflict(if o.paymentMethod == Cod then CancelCodPlan(l, id, next, actor)
                   else CancelPendingPlan(l, id, next, None, actor))
      else if next == Paid then MarkPaidPlan(l, id, actor)
      else
        var row := o.(status := next);
        Plan(Move(id, row), {}, [StatusEvent(id, o, row, actor)], Done)
  }

  function CustomerCancelPlan(l: Ledger, id: OrderId): Plan {
    if id !in l.orders then Only(Failed(NotFound))
    else OrConflict(if l.orders[id].paymentMethod == Cod then CancelCodPlan(l, id, Cancelled, Customer)
                    else CancelPendingPlan(l, id, Cancelled, None, Customer))
  }

  function CollectCodPlan(l: Ledger, id: OrderId): Plan {
    if id !in l.orders then Only(Failed(NotFound))
    else
      var o := l.orders[id];
      if o.paymentMethod != Cod then Only(Failed(BadRequest))
      else if o.status != Shipped && o.status != Delivered then Only(Failed(BadRequest))
      else if o.payment == PaymentPaid then Only(Done)
      else
        var row := o.(payment := PaymentPaid);
        Plan(Move(id, row), {}, [PaymentSucceeded(ToOrderRef(id, row), None)], Done)
  }

  /** The unique index on the recorded Paymob transaction. */
  predicate TakenByOther(orders: map<OrderId, Order>, tx: TxId, id: OrderId) {
    exists other :: other in orders && other != id && orders[other].transactionId == Some(tx)
  }

  /** Marking the event, paying the order and recording the transaction, as the webhook and the repair both do. */
  function SettlePlan(l: Ledger, id: OrderId, tx: TxId): Plan {
    var paid := MarkPaidPlan(l, id, System);
    if paid.outcome != Done || id !in l.orders then Only(paid.outcome)
    else if TakenByOther(l.orders, tx, id) then Only(AlreadyProcessed)
    else
      var row := PaidRowOf(paid, l.orders[id]).(transactionId := Some(tx));
      Plan(Move(id, row), {tx}, paid.events + [PaymentSucceeded(ToOrderRef(id, row), Some(tx))], Done)
  }

  function PaidRowOf(paid: Plan, o: Order): Order {
    if paid.effect.Move? then paid.effect.row else o
  }

  function WebhookPlan(l: Ledger, tx: TxId, target: Option<OrderId>, success: bool): Plan {
    if tx in l.processed then Only(AlreadyProcessed)
    else if target.None? then Plan(Keep, {tx}, [], Ignored)
    else
      var id := target.value;
      if id in l.orders && l.orders[id].paymentMethod == Cod then Plan(Keep, {tx}, [], Ignored)
      else if success then SettlePlan(l, id, tx)
      else
        var cancelled := CancelPendingPlan(l, id, Cancelled, None, System);
        var reported := if id in l.orders then [PaymentFailureReported(ToOrderRef(id, l.orders[id]), Some(tx))] else [];
        Plan(cancelled.effect, {tx}, reported + cancelled.events, Done)
  }

  /** `amount` in piasters; 0 stands for a full refund. */
  function RefundPlan(l: Ledger, id: OrderId, amount: nat, providerAccepts: bool): Plan {
    if id !in l.orders then Only(Failed(NotFound))
    else
      var o := l.orders[id];
      if o.status == Refunded || o.payment == PaymentRefunded then Only(Failed(BadRequest))
      else if o.status != Paid || o.transactionId.None? || !providerAccepts then Only(Failed(BadRequest))
      else
        var row := o.(status := Refunded, payment := PaymentRefunded);
        var refunded := if amount == 0 then o.amounts.total else amount;
        Plan(Move(id, row), {},
             [StatusEvent(id, o, row, Admin),
              PaymentRefundIssued(ToOrderRef(id, row), refunded, refunded < o.amounts.total)],
             Done)
  }

  function DeletePlan(l: Ledger, id: OrderId): Plan {
    if id !in l.orders then Only(Failed(NotFound)) else Plan(Drop(id), {}, [], Done)
  }

  /** Reconciliation of an order read as PENDING. COD orders are never selected. */
  function RepairPendingPlan(l: Ledger, id: OrderId, tx: TxId): Plan {
    if id in l.orders && l.orders[id].paymentMethod == Cod then Only(Ignored)
    else if tx in l.processed then Only(AlreadyProcessed)
    else SettlePlan(l, id, tx)
  }

  /** Reconciliation of an order read as CANCELLED or EXPIRED. */
  function RepairReleasedPlan(l: Ledger, id: OrderId, tx: TxId): Plan {
    if id in l.orders && l.orders[id].paymentMethod == Cod then Only(Ignored)
    else if id !in l.orders || !Released(l.orders[id].status) || l.orders[id].payment == PaymentPaid
    then Only(Unmatched)
    else if TakenByOther(l.orders, tx, id) then Only(AlreadyProcessed)
    else
      var o := l.orders[id];
      var row := PaidRow(o).(transactionId := Some(tx));
      if !CanTake(l.variants, o.items) then Only(OutOfStock)
      else if tx in l.processed then Only(AlreadyProcessed)
      else
        Plan(Retake(id, row, AtLimit(l.coupons, o.couponId)), {tx},
             [StatusChanged(ToOrderRef(id, row), ContractCancelled, o.status, System),
              PaymentSucceeded(ToOrderRef(id, row), Some(tx))],
             Done)
  }

  // ---------------------------------------------------------------- checkout

  function UsesOf(orders: map<OrderId, Order>, user: UserId, c: CouponId): set<OrderId> {
    set id | id in orders && orders[id].userId == Some(user) && orders[id].couponId == Some(c)
             && !Released(orders[id].status)
  }

  /** The first item that cannot be ordered decides the error. */
  function ItemError(variants: map<VariantId, Variant>, items: seq<Item>): Option<Error> {
    if items == [] then None
    else
      var earlier := ItemError(variants, items[..|items| - 1]);
      var v := items[|items| - 1].variant;
      if earlier.Some? then earlier
      else if v !in variants then Some(NotFound)
      else if !variants[v].isAvailable || !variants[v].productActive then Some(BadRequest)
      else None
  }

  function Subtotal(variants: map<VariantId, Variant>, items: seq<Item>): nat {
    if items == [] then 0
    else
      var it := items[|items| - 1];
      Subtotal(variants, items[..|items| - 1])
      + if it.variant in variants then variants[it.variant].price * it.quantity else 0
  }

  function Charge(l: Ledger, r: CheckoutRequest, x: CheckoutContext): Result<Amounts> {
    var subtotal := Subtotal(l.variants, r.items);
    if subtotal < x.settings.minimumOrderAmount then Err(BadRequest)
    else
      var discount :=
        if r.couponCode.None? then Ok(0)
        else
          var c := r.couponCode.value;
          ApplyCoupon(if c in l.coupons then Some(l.coupons[c]) else None, subtotal, x.now,
                      if r.userId.Some? then Some(|UsesOf(l.orders, r.userId.value, c)|) else None);
      if discount.Err? then Err(discount.error)
      else if !r.hasCity || x.zonePrice.None? then Err(BadRequest)
      else Quote(subtotal, discount.value, x.settings, x.zonePrice.value, r.paymentMethod == Cod)
  }

  const RESERVATION_MS: nat := 30 * 60 * 1000

  function NewOrder(r: CheckoutRequest, amounts: Amounts, now: nat): Order {
    Order(Pending, PaymentPending, r.paymentMethod, r.items, amounts, r.couponCode, r.userId, r.idempotencyKey,
          if r.paymentMethod == Cod then None else Some(now + RESERVATION_MS), None)
  }

  predicate KeyUsed(orders: map<OrderId, Order>, key: Option<nat>) {
    key.Some? && exists id :: id in orders && orders[id].idempotencyKey == key
  }

  ghost function KeyHolder(orders: map<OrderId, Order>, key: Option<nat>): OrderId
    requires KeyUsed(orders, key)
  {
    var id :| id in orders && orders[id].idempotencyKey == key; id
  }

  predicate RequestRejected(r: CheckoutRequest, x: CheckoutContext) {
    r.items == []
    || (exists i, j :: 0 <= i < j < |r.items| && r.items[i].variant == r.items[j].variant)
    || !r.phoneValid
    || (r.paymentMethod == Cod && (!r.hasAddress || !x.settings.codEnabled))
  }

  ghost function CreatePlan(l: Ledger, id: OrderId, r: CheckoutRequest, x: CheckoutContext): Plan {
    if KeyUsed(l.orders, r.idempotencyKey) then Only(Existing(KeyHolder(l.orders, r.idempotencyKey)))
    else if RequestRejected(r, x) then Only(Failed(BadRequest))
    else if ItemError(l.variants, r.items).Some? then Only(Failed(ItemError(l.variants, r.items).value))
    else if !CanTake(l.variants, r.items) then Only(Failed(BadRequest))
    else
      var charged := Charge(l, r, x);
      if charged.Err? then Only(Failed(charged.error))
      else if id in l.orders || id in l.gone then Only(Failed(Conflict)) // generated ids are new
      else
        var o := NewOrder(r, charged.value, x.now);
        Plan(Admit(id, o), {},
             [OrderCreated(ToOrderRef(id, o))]
             + StockEvents(o.items, ShiftStock(l.variants, o.items, -1), -1, Sale, id),
             Done)
  }

  // ---------------------------------------------------------------- environment

  /** Old data or an operator links a transaction to an ONLINE order that is not paid. */
  function AttachPlan(l: Ledger, id: OrderId, tx: TxId): Plan {
    if id in l.orders && l.orders[id].paymentMethod == Online && l.orders[id].payment == PaymentPending
       && !TakenByOther(l.orders, tx, id)
    then Plan(Move(id, l.orders[id].(transactionId := Some(tx))), {}, [], Done)
    else Only(Ignored)
  }

  ghost predicate VariantReferenced(l: Ledger, v: VariantId) {
    exists id :: id in l.orders && QuantityListed(l.orders[id].items, v)
  }

  ghost predicate QuantityListed(items: seq<Item>, v: VariantId) {
    exists i :: 0 <= i < |items| && items[i].variant == v
  }

  ghost predicate CouponReferenced(l: Ledger, c: CouponId) {
    (exists id :: id in l.orders && l.orders[id].couponId == Some(c))
    || exists id :: id in l.gone && l.gone[id].couponId == Some(c)
  }

  ghost function CataloguePlan(l: Ledger, s: Step): Plan {
    match s
    case AddVariant(v, row) =>
      if v !in l.variants && row.stock >= 0 then Plan(PutVariant(v, row), {}, [], Done) else Only(Ignored)
    case EditVariant(v, row) =>
      if v in l.variants && row.stock >= 0 then Plan(PutVariant(v, row), {}, [], Done) else Only(Ignored)
    case RemoveVariant(v) =>
      if v in l.variants && !VariantReferenced(l, v) then Plan(DropVariant(v), {}, [], Done) else Only(Ignored)
    case AddCoupon(c, row) =>
      if c !in l.coupons && !CouponReferenced(l, c) && row.usageCount == 0
      then Plan(PutCoupon(c, row), {}, [], Done) else Only(Ignored)
    case EditCoupon(c, row) =>
      if c in l.coupons // anything but the counter can be edited
      then Plan(PutCoupon(c, row.(usageCount := l.coupons[c].usageCount)), {}, [], Done) else Only(Ignored)
    case RemoveCoupon(c) =>
      if c in l.coupons then Plan(DropCoupon(c), {}, [], Done) else Only(Ignored)
    case _ => Only(Ignored)
  }

  // ---------------------------------------------------------------- steps and runs

  ghost function PlanOf(l: Ledger, s: Step): Plan {
    match s
    case Create(id, request, context) => CreatePlan(l, id, request, context)
    case MarkPaid(id, actor) => MarkPaidPlan(l, id, actor)
    case CollectCod(id) => CollectCodPlan(l, id)
    case Transition(id, next, actor) => TransitionPlan(l, id, next, actor)
    case CustomerCancel(id) => CustomerCancelPlan(l, id)
    case Expire(id, now) => CancelPendingPlan(l, id, Expired, Some(now), System)
    case Webhook(tx, target, success) => WebhookPlan(l, tx, target, success)
    case Refund(id, amount, providerAccepts) => RefundPlan(l, id, amount, providerAccepts)
    case DeletePermanently(id) => DeletePlan(l, id)
    case RepairPending(id, tx) => RepairPendingPlan(l, id, tx)
    case RepairReleased(id, tx) => RepairReleasedPlan(l, id, tx)
    case AttachTransaction(id, tx) => AttachPlan(l, id, tx)
    case _ => CataloguePlan(l, s)
  }

  ghost function Next(l: Ledger, s: Step): Ledger {
    Commit(l, PlanOf(l, s))
  }

  ghost function Run(l: Ledger, steps: seq<Step>): Ledger {
    if steps == [] then l else Next(Run(l, steps[..|steps| - 1]), steps[|steps| - 1])
  }

  lemma {:induction false} RunSplit(l: Ledger, a: seq<Step>, b: seq<Step>)
    ensures Run(l, a + b) == Run(Run(l, a), b)
  {
    if b == [] {
      assert a + b == a;
    } else {
      var init := b[..|b| - 1];
      assert (a + b)[..|a + b| - 1] == a + init;
      RunSplit(l, a, init);
    }
  }
}
