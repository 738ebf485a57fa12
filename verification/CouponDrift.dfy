/**
 * The two terms of the coupon account are not always 0: a run from an empty store in which a repair goes over the
 * limit and a later release finds the counter at 0. The coupon allows one use and ends up counting none, while it
 * was used twice.
 */
module CouponDrift {
  import opened Results
  import opened Pricing
  import opened OrderModel
  import opened Ledger
  import opened LedgerInvariant
  import opened Conservation

  const ITEMS := [Item(7, 1)]
  const AMOUNTS := Amounts(100, 10, 0, 0, 90)
  const CONTEXT := CheckoutContext(0, SiteSettings(true, 0, 0, 0, 0), Some(0))

  function Request(m: PaymentMethod): CheckoutRequest {
    CheckoutRequest(None, None, ITEMS, m, Some(5), true, true, true)
  }

  /** One variant with the given stock, one coupon for a single use with the given counter. */
  function Variants(stock: int): map<VariantId, Variant> {
    map[7 := Variant(100, stock, true, true)]
  }

  function Coupons(used: int): map<CouponId, Coupon> {
    map[5 := Coupon(Fixed, 10, None, Some(1), used, None, None, true)]
  }

  predicate Scene(l: Ledger, stock: int, used: int, orders: map<OrderId, Order>) {
    l.variants == Variants(stock) && l.coupons == Coupons(used) && l.orders == orders && l.gone == map[]
  }

  /** What the step is for the coupon's account. */
  ghost predicate Tells(l: Ledger, s: Step, over: bool, clamped: bool) {
    var e := PlanOf(l, s).effect;
    OverLimitRepair(e, 5) == over && Clamped(l, e, 5) == clamped
  }

  function Empty(): Ledger {
    Ledger(Variants(3), Coupons(0), map[], {}, [], map[])
  }

  lemma ItemsShift(stock: int, sign: int)
    ensures ShiftStock(Variants(stock), ITEMS, sign) == Variants(stock + sign)
    ensures DistinctVariants(ITEMS)
    ensures CanTake(Variants(stock), ITEMS) <==> stock >= 1
  {
    assert ITEMS[..0] == [];
    assert QuantityOf(ITEMS, 7) == 1;
    assert ITEMS[0] in ITEMS;
  }

  lemma CheckoutIsCharged(l: Ledger, m: PaymentMethod, stock: int)
    requires l.variants == Variants(stock) && l.coupons == Coupons(0)
    ensures Charge(l, Request(m), CONTEXT) == Ok(AMOUNTS)
  {
    assert ITEMS[..0] == [];
    assert Subtotal(l.variants, ITEMS) == 100;
  }

  lemma CheckoutHappens(l: Ledger, id: OrderId, m: PaymentMethod, stock: int, orders: map<OrderId, Order>)
    requires Scene(l, stock, 0, orders) && stock >= 1 && id !in orders
    ensures Scene(Next(l, Create(id, Request(m), CONTEXT)), stock - 1, 1,
                  orders[id := NewOrder(Request(m), AMOUNTS, 0)])
    ensures Next(l, Create(id, Request(m), CONTEXT)).processed == l.processed
    ensures Tells(l, Create(id, Request(m), CONTEXT), false, false)
  {
    CheckoutIsCharged(l, m, stock);
    ItemsShift(stock, -1);
    assert ITEMS[..0] == [];
    assert ItemError(l.variants, ITEMS) == None;
    assert PlanOf(l, Create(id, Request(m), CONTEXT)).effect == Admit(id, NewOrder(Request(m), AMOUNTS, 0));
  }

  lemma AttachHappens(l: Ledger, id: OrderId, stock: int, used: int, orders: map<OrderId, Order>)
    requires Scene(l, stock, used, orders) && orders.Keys == {id}
    requires orders[id].paymentMethod == Online && orders[id].payment == PaymentPending
    ensures var n := Next(l, AttachTransaction(id, 9));
            Scene(n, stock, used, orders[id := orders[id].(transactionId := Some(9))]) && n.processed == l.processed
    ensures Tells(l, AttachTransaction(id, 9), false, false)
  {
    assert PlanOf(l, AttachTransaction(id, 9)) == AttachPlan(l, id, 9);
  }

  lemma CancelHappens(l: Ledger, id: OrderId, stock: int, orders: map<OrderId, Order>)
    requires Scene(l, stock, 1, orders) && id in orders && orders[id].status == Pending
    requires orders[id].items == ITEMS && orders[id].couponId == Some(5)
    ensures var n := Next(l, CustomerCancel(id));
            Scene(n, stock + 1, 0, orders[id := ReleasedRow(orders[id], Cancelled)]) && n.processed == l.processed
    ensures Tells(l, CustomerCancel(id), false, false)
  {
    ItemsShift(stock, 1);
    assert PlanOf(l, CustomerCancel(id)) == ReleasePlan(l, id, Cancelled, Customer);
  }

  lemma RepairHappens(l: Ledger, id: OrderId, stock: int, orders: map<OrderId, Order>)
    requires Scene(l, stock, 1, orders) && stock >= 1 && 9 !in l.processed && id in orders
    requires var o := orders[id];
             o.status == Cancelled && o.payment == PaymentPending && o.paymentMethod == Online && o.items == ITEMS
             && o.couponId == Some(5)
    requires forall other :: other in orders && other != id ==> orders[other].transactionId == None
    ensures var n := Next(l, RepairReleased(id, 9));
            Scene(n, stock - 1, 1, orders[id := PaidRow(orders[id]).(transactionId := Some(9))])
    ensures Tells(l, RepairReleased(id, 9), true, false)
  {
    ItemsShift(stock, -1);
    assert AtLimit(l.coupons, Some(5));
    assert PlanOf(l, RepairReleased(id, 9)) == RepairReleasedPlan(l, id, 9);
  }

  lemma DeletionIsClamped(l: Ledger, id: OrderId, stock: int, orders: map<OrderId, Order>)
    requires Scene(l, stock, 0, orders) && id in orders && orders[id].status == Paid && orders[id].couponId == Some(5)
    ensures Next(l, DeletePermanently(id)).coupons == l.coupons && id !in Next(l, DeletePermanently(id)).orders
    ensures Tells(l, DeletePermanently(id), false, true)
  {
    assert PlanOf(l, DeletePermanently(id)) == DeletePlan(l, id);
  }

  // ---------------------------------------------------------------- the run

  /** Where the run stands, with the over-limit repairs and clamped releases so far. */
  ghost predicate Stage(steps: seq<Step>, stock: int, used: int, orders: map<OrderId, Order>, over: nat, clamped: nat) {
    Scene(Run(Empty(), steps), stock, used, orders)
    && OverLimitRepairs(Empty(), steps, 5) == over && Clamps(Empty(), steps, 5) == clamped
  }

  lemma RunOneMore(steps: seq<Step>, s: Step, over: bool, clamped: bool)
    requires Tells(Run(Empty(), steps), s, over, clamped)
    ensures Run(Empty(), steps + [s]) == Next(Run(Empty(), steps), s)
    ensures OverLimitRepairs(Empty(), steps + [s], 5) == OverLimitRepairs(Empty(), steps, 5) + Bit(over)
    ensures Clamps(Empty(), steps + [s], 5) == Clamps(Empty(), steps, 5) + Bit(clamped)
  {
    assert (steps + [s])[..|steps|] == steps;
  }

  /** Appends a step that is neither an over-limit repair nor clamped. */
  lemma StageGoesOn(steps: seq<Step>, s: Step, stock: int, used: int, orders: map<OrderId, Order>, over: nat,
                    stock': int, used': int, orders': map<OrderId, Order>)
    requires Stage(steps, stock, used, orders, over, 0)
    requires Tells(Run(Empty(), steps), s, false, false) && Scene(Next(Run(Empty(), steps), s), stock', used', orders')
    ensures Stage(steps + [s], stock', used', orders', over, 0)
    ensures Run(Empty(), steps + [s]) == Next(Run(Empty(), steps), s)
  {
    RunOneMore(steps, s, false, false);
  }

  function Placed(m: PaymentMethod): Order {
    NewOrder(Request(m), AMOUNTS, 0)
  }

  function Linked(): Order {
    Placed(Online).(transactionId := Some(9))
  }

  function Abandoned(): Order {
    ReleasedRow(Linked(), Cancelled)
  }

  function Repaired(): Order {
    PaidRow(Abandoned()).(transactionId := Some(9))
  }

  const PLACE: seq<Step> := [] + [Create(1, Request(Online), CONTEXT)]
  const LINK := PLACE + [AttachTransaction(1, 9)]
  const ABANDON := LINK + [CustomerCancel(1)]

  lemma OrderIsPlaced()
    ensures Stage(PLACE, 2, 1, map[1 := Placed(Online)], 0, 0) && Run(Empty(), PLACE).processed == {}
  {
    assert Run(Empty(), []) == Empty();
    CheckoutHappens(Empty(), 1, Online, 3, map[]);
    StageGoesOn([], Create(1, Request(Online), CONTEXT), 3, 0, map[], 0, 2, 1, map[1 := Placed(Online)]);
  }

  lemma OrderIsLinked()
    ensures Stage(LINK, 2, 1, map[1 := Linked()], 0, 0) && Run(Empty(), LINK).processed == {}
  {
    OrderIsPlaced();
    AttachHappens(Run(Empty(), PLACE), 1, 2, 1, map[1 := Placed(Online)]);
    StageGoesOn(PLACE, AttachTransaction(1, 9), 2, 1, map[1 := Placed(Online)], 0, 2, 1, map[1 := Linked()]);
  }

  /** An order uses the coupon, is linked to a transaction, and is cancelled. */
  lemma OrderIsAbandoned()
    ensures Stage(ABANDON, 3, 0, map[1 := Abandoned()], 0, 0) && Run(Empty(), ABANDON).processed == {}
  {
    OrderIsLinked();
    CancelHappens(Run(Empty(), LINK), 1, 2, map[1 := Linked()]);
    StageGoesOn(LINK, CustomerCancel(1), 2, 1, map[1 := Linked()], 0, 3, 0, map[1 := Abandoned()]);
  }

  const REUSE := ABANDON + [Create(2, Request(Cod), CONTEXT)]

  /** A second order takes the only use the coupon allows. */
  lemma CouponIsUsedAgain()
    ensures Stage(REUSE, 2, 1, map[1 := Abandoned(), 2 := Placed(Cod)], 0, 0) && Run(Empty(), REUSE).processed == {}
  {
    OrderIsAbandoned();
    CheckoutHappens(Run(Empty(), ABANDON), 2, Cod, 3, map[1 := Abandoned()]);
    StageGoesOn(ABANDON, Create(2, Request(Cod), CONTEXT), 3, 0, map[1 := Abandoned()], 0,
                2, 1, map[1 := Abandoned(), 2 := Placed(Cod)]);
  }

  const REPAIR := REUSE + [RepairReleased(1, 9)]

  /** The repair brings the first order back over the limit: two uses, of which the counter knows one. */
  lemma RepairGoesOver()
    ensures Stage(REPAIR, 1, 1, map[1 := Repaired(), 2 := Placed(Cod)], 1, 0)
  {
    CouponIsUsedAgain();
    var orders := map[1 := Abandoned(), 2 := Placed(Cod)];
    RepairHappens(Run(Empty(), REUSE), 1, 2, orders);
    RunOneMore(REUSE, RepairReleased(1, 9), true, false);
    assert orders[1 := Repaired()] == map[1 := Repaired(), 2 := Placed(Cod)];
  }

  const RELEASE := REPAIR + [CustomerCancel(2)]

  /** Cancelling the second order takes the counter to 0 with the first one still using the coupon. */
  lemma CounterIsEmpty()
    ensures Stage(RELEASE, 2, 0, map[1 := Repaired(), 2 := ReleasedRow(Placed(Cod), Cancelled)], 1, 0)
  {
    RepairGoesOver();
    var orders := map[1 := Repaired(), 2 := Placed(Cod)];
    CancelHappens(Run(Empty(), REPAIR), 2, 1, orders);
    assert orders[2 := ReleasedRow(Placed(Cod), Cancelled)]
        == map[1 := Repaired(), 2 := ReleasedRow(Placed(Cod), Cancelled)];
    StageGoesOn(REPAIR, CustomerCancel(2), 1, 1, orders, 1, 2, 0, orders[2 := ReleasedRow(Placed(Cod), Cancelled)]);
  }

  lemma EmptyStoreIsExact()
    ensures Inv(Empty()) && 5 in Empty().coupons && Excess(Empty(), 5) == 0
  {
  }

  lemma NothingIsRemoved()
    ensures RemoveCoupon(5) !in RELEASE
  {
  }

  lemma CounterMissesAUse()
    ensures var n := Run(Empty(), RELEASE);
            Scene(n, 2, 0, map[1 := Repaired(), 2 := ReleasedRow(Placed(Cod), Cancelled)]) && Excess(n, 5) == 1
  {
    CounterIsEmpty();
    EmptyStoreIsExact();
    NothingIsRemoved();
    CouponLedger(Empty(), RELEASE, 5);
  }

  lemma ReleaseIsClamped()
    ensures var steps := RELEASE + [DeletePermanently(1)];
            OverLimitRepairs(Empty(), steps, 5) == 1 && Clamps(Empty(), steps, 5) == 1
  {
    CounterIsEmpty();
    var n := Run(Empty(), RELEASE);
    DeletionIsClamped(n, 1, 2, map[1 := Repaired(), 2 := ReleasedRow(Placed(Cod), Cancelled)]);
    RunOneMore(RELEASE, DeletePermanently(1), false, true);
  }

  /**
   * From an empty store, the counter can miss a live use, and a release can find it at 0: both terms of the coupon
   * account occur, the clamped release after the over-limit repair.
   */
  lemma OverLimitRepairAndClampOccur()
    ensures Inv(Empty()) && 5 in Empty().coupons && Excess(Empty(), 5) == 0
    ensures var n := Run(Empty(), RELEASE);
            5 in n.coupons && n.coupons[5].usageCount == 0 && Excess(n, 5) == 1
    ensures var steps := RELEASE + [DeletePermanently(1)];
            OverLimitRepairs(Empty(), steps, 5) == 1 && Clamps(Empty(), steps, 5) == 1
  {
    EmptyStoreIsExact();
    CounterMissesAUse();
    ReleaseIsClamped();
  }
}
