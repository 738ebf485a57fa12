/**
 * The services as they are written: rows changed in place by guarded updates inside loops, and a transaction
 * that restores the tables when it throws. Every method is proved to commit the plan that `Ledger.PlanOf` gives
 * for its step, so what is proved of the steps holds of the methods.
 */
module OrderStore {
  import opened Results
  import opened Pricing
  import opened OrderModel
  import opened Ledger
  import opened LedgerInvariant

  class Store {
    var variants: map<VariantId, Variant>
    var coupons: map<CouponId, Coupon>
    var orders: map<OrderId, Order>
    var processed: set<TxId>
    var events: seq<Event>
    ghost var gone: map<OrderId, Order>

    ghost function View(): Ledger
      reads this
    {
      Ledger(variants, coupons, orders, processed, events, gone)
    }

    constructor (variants: map<VariantId, Variant>, coupons: map<CouponId, Coupon>)
      ensures View() == Ledger(variants, coupons, map[], {}, [], map[])
    {
      this.variants, this.coupons, orders, processed, events, gone := variants, coupons, map[], {}, [], map[];
    }

    // -------------------------------------------------------------- tables

    /** The reservation loop: a conditional decrement per item, stopping at the first that matches no row. */
    method ReserveItems(items: seq<Item>) returns (ok: bool)
      requires DistinctVariants(items)
      modifies this`variants
      ensures ok <==> CanTake(old(variants), items)
      ensures ok ==> variants == ShiftStock(old(variants), items, -1)
    {
      for i := 0 to |items|
        invariant variants == ShiftStock(old(variants), items[..i], -1)
        invariant CanTake(old(variants), items[..i])
      {
        var it := items[i];
        AnotherReservation(old(variants), items, i);
        if it.variant !in variants || !variants[it.variant].isAvailable || variants[it.variant].stock < it.quantity {
          return false;
        }
        variants := variants[it.variant := variants[it.variant].(stock := variants[it.variant].stock - it.quantity)];
      }
      assert items[..|items|] == items;
      return true;
    }

    /** The conditional decrement of item `i` finds the stock untouched by the earlier items. */
    lemma AnotherReservation(start: map<VariantId, Variant>, items: seq<Item>, i: nat)
      requires DistinctVariants(items) && i < |items| && CanTake(start, items[..i])
      ensures var it, now := items[i], ShiftStock(start, items[..i], -1);
              && (it.variant in now <==> it.variant in start)
              && (it.variant in now ==>
                    now[it.variant] == start[it.variant]
                    && ShiftStock(start, items[..i + 1], -1)
                       == now[it.variant := now[it.variant].(stock := now[it.variant].stock - it.quantity)])
      ensures var it := items[i];
              var takes := CanTake(start, [it]);
              && (takes ==> CanTake(start, items[..i + 1])) && (!takes ==> !CanTake(start, items))
    {
      var it := items[i];
      QuantityAbsent(items[..i], it.variant);
      assert items[..i + 1][..i] == items[..i] && items[..i + 1] == items[..i] + [it];
      assert it in items;
    }

    method ReturnItems(items: seq<Item>)
      requires ItemsKnown(items, variants)
      modifies this`variants
      ensures variants == ShiftStock(old(variants), items, 1)
    {
      for i := 0 to |items|
        invariant variants == ShiftStock(old(variants), items[..i], 1)
      {
        var it := items[i];
        variants := variants[it.variant := variants[it.variant].(stock := variants[it.variant].stock + it.quantity)];
        assert items[..i + 1][..i] == items[..i];
      }
      assert items[..|items|] == items;
    }

    method ReleaseCoupon(c: Option<CouponId>)
      modifies this`coupons
      ensures coupons == ReleaseUse(old(coupons), c)
    {
      if c.Some? && c.value in coupons && coupons[c.value].usageCount > 0 {
        coupons := coupons[c.value := coupons[c.value].(usageCount := coupons[c.value].usageCount - 1)];
      }
    }

    // -------------------------------------------------------------- outbox

    method EmitStockChanges(items: seq<Item>, sign: int, reason: StockReason, id: OrderId)
      modifies this`events
      ensures events == old(events) + StockEvents(items, variants, sign, reason, id)
    {
      for i := 0 to |items|
        invariant events == old(events) + StockEvents(items[..i], variants, sign, reason, id)
      {
        var it := items[i];
        assert items[..i + 1][..i] == items[..i];
        if it.variant in variants {
          events := events + [StockChanged(it.variant, variants[it.variant].stock, sign * it.quantity, reason, id)];
        }
      }
      assert items[..|items|] == items;
    }

    /** Reads the order back; says nothing when the status did not change. */
    method EmitStatusChanged(id: OrderId, before: Order, actor: Actor)
      requires id in orders
      modifies this`events
      ensures events == old(events)
              + (if orders[id].status == before.status then []
                 else if Released(orders[id].status) then
                   [StatusEvent(id, before, orders[id], actor),
                    OrderCancelled(ToOrderRef(id, orders[id]), actor, orders[id].payment == PaymentPaid)]
                   + StockEvents(orders[id].items, variants, 1, Cancel, id)
                 else [StatusEvent(id, before, orders[id], actor)])
    {
      var o := orders[id];
      if o.status == before.status { return; }
      events := events + [StatusEvent(id, before, o, actor)];
      if Released(o.status) {
        events := events + [OrderCancelled(ToOrderRef(id, o), actor, o.payment == PaymentPaid)];
        EmitStockChanges(o.items, 1, Cancel, id);
      }
    }

    // -------------------------------------------------------------- transaction bodies

    /** The common part of the two cancellations, once the conditional update matched. */
    method ReleaseOrder(id: OrderId, to: OrderStatus, actor: Actor)
      requires id in orders && ItemsKnown(orders[id].items, variants) && Released(to) && !Released(orders[id].status)
      modifies this
      ensures View() == Commit(old(View()), ReleasePlan(old(View()), id, to, actor))
    {
      var before := orders[id];
      orders := orders[id := before.(status := to, reservation := None)];
      ReleaseCoupon(orders[id].couponId);
      ReturnItems(orders[id].items);
      EmitStatusChanged(id, before, actor);
    }

    method CancelPendingInTransaction(id: OrderId, to: OrderStatus, lapsedAt: Option<nat>, actor: Actor)
      returns (released: bool)
      requires ItemsSound(View()) && Released(to)
      modifies this
      ensures var p := CancelPendingPlan(old(View()), id, to, lapsedAt, actor);
              View() == Commit(old(View()), p) && released == (p.outcome == Done)
    {
      if id !in orders || orders[id].status != Pending
         || (lapsedAt.Some? && (orders[id].reservation.None? || orders[id].reservation.value > lapsedAt.value)) {
        return false;
      }
      ReleaseOrder(id, to, actor);
      return true;
    }

    method CancelCodInTransaction(id: OrderId, to: OrderStatus, actor: Actor) returns (released: bool)
      requires ItemsSound(View()) && Released(to)
      modifies this
      ensures var p := CancelCodPlan(old(View()), id, to, actor);
              View() == Commit(old(View()), p) && released == (p.outcome == Done)
    {
      if id !in orders || orders[id].paymentMethod != Cod || orders[id].status !in {Pending, Confirmed, Processing} {
        return false;
      }
      ReleaseOrder(id, to, actor);
      return true;
    }

    method MarkPaidInTransaction(id: OrderId, actor: Actor) returns (out: Outcome)
      modifies this
      ensures var p := MarkPaidPlan(old(View()), id, actor); View() == Commit(old(View()), p) && out == p.outcome
    {
      if id !in orders { return Failed(NotFound); }
      var o := orders[id];
      if o.status == Paid { return Done; }
      if Paid !in AllowedTransitions(o.status) { return Failed(Conflict); }
      if o.payment == PaymentPaid { return Failed(Conflict); }
      orders := orders[id := o.(status := Paid, payment := PaymentPaid, reservation := None)];
      EmitStatusChanged(id, o, actor);
      return Done;
    }

    // -------------------------------------------------------------- OrdersService

    method Transition(id: OrderId, next: OrderStatus, actor: Actor) returns (out: Outcome)
      requires ItemsSound(View())
      modifies this
      ensures var p := TransitionPlan(old(View()), id, next, actor);
              View() == Commit(old(View()), p) && out == p.outcome
    {
      if id !in orders { return Failed(NotFound); }
      var before := orders[id];
      if before.status == next { return Done; }
      if next !in AllowedTransitions(before.status) { return Failed(Conflict); }
      if next == Cancelled || next == Expired {
        var released;
        if before.paymentMethod == Cod {
          released := CancelCodInTransaction(id, next, actor);
        } else {
          released := CancelPendingInTransaction(id, next, None, actor);
        }
        return if released then Done else Failed(Conflict);
      } else if next == Paid {
        out := MarkPaidInTransaction(id, actor);
      } else {
        orders := orders[id := before.(status := next)];
        EmitStatusChanged(id, before, actor);
        return Done;
      }
    }

    method CancelByOrderNumber(id: OrderId) returns (out: Outcome)
      requires ItemsSound(View())
      modifies this
      ensures var p := CustomerCancelPlan(old(View()), id); View() == Commit(old(View()), p) && out == p.outcome
    {
      if id !in orders { return Failed(NotFound); }
      var cancelled;
      if orders[id].paymentMethod == Cod {
        if orders[id].status !in {Pending, Confirmed, Processing} { return Failed(Conflict); }
        cancelled := CancelCodInTransaction(id, Cancelled, Customer);
      } else {
        if orders[id].status != Pending { return Failed(Conflict); }
        cancelled := CancelPendingInTransaction(id, Cancelled, None, Customer);
      }
      return if cancelled then Done else Failed(Conflict);
    }

    method MarkCodCollected(id: OrderId) returns (out: Outcome)
      modifies this
      ensures var p := CollectCodPlan(old(View()), id); View() == Commit(old(View()), p) && out == p.outcome
    {
      if id !in orders { return Failed(NotFound); }
      var o := orders[id];
      if o.paymentMethod != Cod { return Failed(BadRequest); }
      if o.status != Shipped && o.status != Delivered { return Failed(BadRequest); }
      if o.payment == PaymentPaid { return Done; }
      orders := orders[id := o.(payment := PaymentPaid)];
      events := events + [PaymentSucceeded(ToOrderRef(id, orders[id]), None)];
      return Done;
    }

    method ExpireOrder(id: OrderId, now: nat) returns (expired: bool)
      requires ItemsSound(View())
      modifies this
      ensures var p := CancelPendingPlan(old(View()), id, Expired, Some(now), System);
              View() == Commit(old(View()), p) && expired == (p.outcome == Done)
    {
      expired := CancelPendingInTransaction(id, Expired, Some(now), System);
    }

    /** A pending order whose reservation has run out. */
    static predicate Lapsed(o: Order, now: nat) {
      o.status == Pending && o.reservation.Some? && o.reservation.value <= now
    }

    static function LapsedOrders(orders: map<OrderId, Order>, now: nat): set<OrderId> {
      set id | id in orders && Lapsed(orders[id], now)
    }

    /**
     * The sweep over the lapsed reservations: afterwards every one of them is expired and no other order has
     * changed, and the count is their number.
     */
    method ExpirePendingReservations(now: nat) returns (expiredCount: nat)
      requires Inv(View())
      modifies this
      ensures Inv(View())
      ensures expiredCount == |LapsedOrders(old(orders), now)|
      ensures Swept(old(orders), orders, LapsedOrders(old(orders), now))
    {
      var found := LapsedOrders(orders, now);
      var todo := found;
      expiredCount := 0;
      SweepStarts(View(), found);
      while todo != {}
        invariant SweepGoesOn(old(orders), View(), found, todo) && expiredCount + |todo| == |found|
      {
        var id :| id in todo;
        var expired := SweepOne(old(orders), found, todo, id, now);
        if expired { expiredCount := expiredCount + 1; }
        todo := todo - {id};
      }
      SweepEnds(old(orders), View(), found);
    }

    method SweepOne(ghost start: map<OrderId, Order>, ghost found: set<OrderId>, ghost todo: set<OrderId>,
                    id: OrderId, now: nat)
      returns (expired: bool)
      requires SweepGoesOn(start, View(), found, todo) && found == LapsedOrders(start, now) && id in todo
      modifies this
      ensures SweepGoesOn(start, View(), found, todo - {id}) && expired
    {
      SweepStep(start, View(), found, todo, id, now);
      expired := ExpireOrder(id, now);
    }

    /** The orders of `done` were expired, the others are as they were. */
    static ghost predicate Swept(start: map<OrderId, Order>, orders: map<OrderId, Order>, done: set<OrderId>) {
      orders.Keys == start.Keys
      && forall id :: id in start ==> orders[id] == if id in done then ReleasedRow(start[id], Expired) else start[id]
    }

    static ghost predicate SweepGoesOn(start: map<OrderId, Order>, l: Ledger, found: set<OrderId>, todo: set<OrderId>) {
      Inv(l) && todo <= found && Swept(start, l.orders, found - todo)
    }

    static lemma SweepStarts(l: Ledger, found: set<OrderId>)
      requires Inv(l)
      ensures SweepGoesOn(l.orders, l, found, found)
    {
    }

    static lemma SweepEnds(start: map<OrderId, Order>, l: Ledger, found: set<OrderId>)
      requires SweepGoesOn(start, l, found, {})
      ensures Inv(l) && Swept(start, l.orders, found)
    {
      assert found - {} == found;
    }

    static lemma SweepStep(start: map<OrderId, Order>, l: Ledger, found: set<OrderId>, todo: set<OrderId>,
                           id: OrderId, now: nat)
      requires SweepGoesOn(start, l, found, todo) && found == LapsedOrders(start, now) && id in todo
      ensures ItemsSound(l)
      ensures var p := CancelPendingPlan(l, id, Expired, Some(now), System);
              p.outcome == Done && SweepGoesOn(start, Commit(l, p), found, todo - {id})
    {
      InvItems(l);
      assert Lapsed(l.orders[id], now);
      LapsedOrderExpires(l, id, now);
      ExpiryKeepsInv(l, id, now);
      SweptOneMore(start, l.orders, found, todo, id);
    }

    static lemma SweptOneMore(start: map<OrderId, Order>, orders: map<OrderId, Order>, found: set<OrderId>,
                              todo: set<OrderId>, id: OrderId)
      requires todo <= found && id in todo && Swept(start, orders, found - todo) && id in start
      ensures Swept(start, orders[id := ReleasedRow(orders[id], Expired)], found - (todo - {id}))
    {
      assert found - (todo - {id}) == found - todo + {id};
    }

    static lemma LapsedOrderExpires(l: Ledger, id: OrderId, now: nat)
      requires id in l.orders && Lapsed(l.orders[id], now)
      ensures var p := CancelPendingPlan(l, id, Expired, Some(now), System);
              p.outcome == Done && Commit(l, p).orders == l.orders[id := ReleasedRow(l.orders[id], Expired)]
    {
    }

    static lemma ExpiryKeepsInv(l: Ledger, id: OrderId, now: nat)
      requires Inv(l)
      ensures Inv(Commit(l, CancelPendingPlan(l, id, Expired, Some(now), System)))
    {
      InvAt(l, id);
      CancelPendingSound(l, id, Expired, Some(now), System);
      PlanKeepsInv(l, CancelPendingPlan(l, id, Expired, Some(now), System));
    }

    method DeleteOrderPermanently(id: OrderId) returns (out: Outcome)
      requires ItemsSound(View())
      modifies this
      ensures var p := DeletePlan(old(View()), id); View() == Commit(old(View()), p) && out == p.outcome
    {
      if id !in orders { return Failed(NotFound); }
      var existing := orders[id];
      if existing.status in {Pending, Confirmed, Processing, Paid} {
        ReturnItems(existing.items);
        ReleaseCoupon(existing.couponId);
      }
      orders := orders - {id};
      gone := gone[id := existing];
      return Done;
    }

    // -------------------------------------------------------------- checkout

    method HasDuplicates(items: seq<Item>) returns (found: bool)
      ensures found <==> !DistinctVariants(items)
    {
      var seen := {};
      for i := 0 to |items|
        invariant forall v :: v in seen <==> exists k :: 0 <= k < i && items[k].variant == v
        invariant DistinctVariants(items[..i])
      {
        if items[i].variant in seen {
          return true;
        }
        seen := seen + {items[i].variant};
      }
      return false;
    }

    method FirstItemError(items: seq<Item>) returns (e: Option<Error>)
      ensures e == ItemError(variants, items)
    {
      for i := 0 to |items|
        invariant ItemError(variants, items[..i]) == None
      {
        var v := items[i].variant;
        assert items[..i + 1][..i] == items[..i];
        if v !in variants || !variants[v].isAvailable || !variants[v].productActive {
          ItemErrorStays(items, i + 1);
          return Some(if v !in variants then NotFound else BadRequest);
        }
      }
      assert items[..|items|] == items;
      return None;
    }

    lemma {:induction false} ItemErrorStays(items: seq<Item>, n: nat)
      requires n <= |items| && ItemError(variants, items[..n]).Some?
      ensures ItemError(variants, items) == ItemError(variants, items[..n])
      decreases |items| - n
    {
      if n < |items| {
        assert items[..n + 1][..n] == items[..n];
        ItemErrorStays(items, n + 1);
      } else {
        assert items[..n] == items;
      }
    }

    method SumItems(priced: map<VariantId, Variant>, items: seq<Item>) returns (subtotal: nat)
      requires ItemsKnown(items, priced)
      ensures subtotal == Subtotal(priced, items)
    {
      subtotal := 0;
      for i := 0 to |items|
        invariant subtotal == Subtotal(priced, items[..i])
      {
        assert items[..i + 1][..i] == items[..i];
        subtotal := subtotal + priced[items[i].variant].price * items[i].quantity;
      }
      assert items[..|items|] == items;
    }

    /** Checks the coupon and counts the use; the caller rolls back when a later check throws. */
    method TakeCoupon(code: CouponId, subtotal: nat, now: nat, userId: Option<UserId>) returns (discount: Result<nat>)
      modifies this`coupons
      ensures discount == ApplyCoupon(if code in old(coupons) then Some(old(coupons)[code]) else None, subtotal, now,
                                      if userId.Some? then Some(|UsesOf(orders, userId.value, code)|) else None)
      ensures coupons == if discount.Ok? then CountUse(old(coupons), Some(code)) else old(coupons)
    {
      if code !in coupons || !coupons[code].isActive { return Err(BadRequest); }
      var c := coupons[code];
      if c.expiresAt.Some? && c.expiresAt.value < now { return Err(BadRequest); }
      if c.minOrderAmount.Some? && subtotal < c.minOrderAmount.value { return Err(BadRequest); }
      if c.usagePerCustomer.Some? && userId.Some? {
        var used := |UsesOf(orders, userId.value, code)|;
        if used >= c.usagePerCustomer.value { return Err(BadRequest); }
      }
      if c.usageLimit.Some? && c.usageCount >= c.usageLimit.value { return Err(BadRequest); }
      coupons := coupons[code := c.(usageCount := c.usageCount + 1)];
      return Ok(Discount(c, subtotal));
    }

    method Create(id: OrderId, r: CheckoutRequest, x: CheckoutContext) returns (out: Outcome)
      requires id !in orders && id !in gone && KeysUnique(orders)
      modifies this
      ensures var p := CreatePlan(old(View()), id, r, x); View() == Commit(old(View()), p) && out == p.outcome
    {
      if KeyUsed(orders, r.idempotencyKey) {
        var existing :| existing in orders && orders[existing].idempotencyKey == r.idempotencyKey;
        assert KeyHolder(orders, r.idempotencyKey) == existing;
        return Existing(existing);
      }
      if |r.items| == 0 { return Failed(BadRequest); }
      var duplicates := HasDuplicates(r.items);
      if duplicates || !r.phoneValid || (r.paymentMethod == Cod && !r.hasAddress) { return Failed(BadRequest); }
      if r.paymentMethod == Cod && !x.settings.codEnabled { return Failed(BadRequest); }
      assert !RequestRejected(r, x);
      out := PlaceOrder(id, r, x);
    }

    /** The checkout transaction: items, reservation, money, then the order and its events. */
    method PlaceOrder(id: OrderId, r: CheckoutRequest, x: CheckoutContext) returns (out: Outcome)
      requires id !in orders && id !in gone && !KeyUsed(orders, r.idempotencyKey) && !RequestRejected(r, x)
      modifies this
      ensures var p := CreatePlan(old(View()), id, r, x); View() == Commit(old(View()), p) && out == p.outcome
    {
      ghost var l := View();
      var itemError := FirstItemError(r.items);
      if itemError.Some? { return Failed(itemError.value); }
      var savedVariants, savedCoupons := variants, coupons;
      var reserved := ReserveItems(r.items);
      if !reserved {
        variants := savedVariants;
        return Failed(BadRequest);
      }
      TakenItemsAreKnown(savedVariants, r.items);
      var charged := ChargeInTransaction(savedVariants, r, x, l);
      if charged.Err? {
        variants, coupons := savedVariants, savedCoupons;
        return Failed(charged.error);
      }
      InsertOrder(id, NewOrder(r, charged.value, x.now));
      return Done;
    }

    static lemma TakenItemsAreKnown(variants: map<VariantId, Variant>, items: seq<Item>)
      requires CanTake(variants, items)
      ensures ItemsKnown(items, variants)
    {
      assert forall i :: 0 <= i < |items| ==> items[i] in items;
    }

    method InsertOrder(id: OrderId, o: Order)
      modifies this`orders, this`events
      ensures orders == old(orders)[id := o]
      ensures events == old(events) + ([OrderCreated(ToOrderRef(id, o))] + StockEvents(o.items, variants, -1, Sale, id))
    {
      orders := orders[id := o];
      events := events + [OrderCreated(ToOrderRef(id, o))];
      EmitStockChanges(o.items, -1, Sale, id);
    }

    /** The money part of the checkout transaction: minimum, coupon, shipping, COD limit and fee, total. */
    method ChargeInTransaction(priced: map<VariantId, Variant>, r: CheckoutRequest, x: CheckoutContext,
                               ghost start: Ledger)
      returns (charged: Result<Amounts>)
      requires ItemsKnown(r.items, priced)
      requires start.variants == priced && start.coupons == coupons && start.orders == orders
      modifies this`coupons
      ensures charged == Charge(start, r, x)
      ensures charged.Ok? ==> coupons == CountUse(old(coupons), r.couponCode)
    {
      var subtotal := SumItems(priced, r.items);
      if subtotal < x.settings.minimumOrderAmount { return Err(BadRequest); }
      var discount := Ok(0);
      if r.couponCode.Some? {
        discount := TakeCoupon(r.couponCode.value, subtotal, x.now, r.userId);
        if discount.Err? { return Err(discount.error); }
      }
      if !r.hasCity || x.zonePrice.None? { return Err(BadRequest); }
      return Quote(subtotal, discount.value, x.settings, x.zonePrice.value, r.paymentMethod == Cod);
    }

    // -------------------------------------------------------------- PaymobService

    /** Pays the order and records the transaction; the marker was inserted first. */
    method SettleInTransaction(id: OrderId, tx: TxId) returns (out: Outcome)
      requires tx !in processed
      modifies this
      ensures View() == Commit(old(View()), SettlePlan(old(View()), id, tx))
              && out == SettlePlan(old(View()), id, tx).outcome
    {
      var savedOrders, savedEvents := orders, events;
      SettlingCases(View(), id, tx);
      processed := processed + {tx};
      var paid := MarkPaidInTransaction(id, System);
      if paid != Done {
        processed := processed - {tx};
        return paid;
      }
      if TakenByOther(orders, tx, id) {
        processed, orders, events := processed - {tx}, savedOrders, savedEvents;
        return AlreadyProcessed;
      }
      orders := orders[id := orders[id].(transactionId := Some(tx))];
      events := events + [PaymentSucceeded(ToOrderRef(id, orders[id]), Some(tx))];
      return Done;
    }

    /** Looking for another holder of the transaction before or after paying makes no difference. */
    static lemma PayingTakesNoTransaction(l: Ledger, id: OrderId, tx: TxId)
      ensures var n := Commit(l, MarkPaidPlan(l, id, System));
              TakenByOther(n.orders, tx, id) == TakenByOther(l.orders, tx, id)
    {
      var n := Commit(l, MarkPaidPlan(l, id, System));
      assert forall other :: other != id ==>
          (other in n.orders <==> other in l.orders) && (other in l.orders ==> n.orders[other] == l.orders[other]);
    }

    /** What settling comes to, told from the store in which the marker is inserted and the order paid. */
    static lemma SettlingCases(l: Ledger, id: OrderId, tx: TxId)
      ensures var marked := l.(processed := l.processed + {tx});
              var paid, settled := MarkPaidPlan(marked, id, System), SettlePlan(l, id, tx);
              var n := Commit(marked, paid);
              if paid.outcome != Done then n == marked && settled == Only(paid.outcome)
              else
                id in n.orders
                && if TakenByOther(n.orders, tx, id) then settled == Only(AlreadyProcessed)
                   else
                     var row := n.orders[id].(transactionId := Some(tx));
                     settled.outcome == Done
                     && Commit(l, settled) == n.(orders := n.orders[id := row],
                                                 events := n.events + [PaymentSucceeded(ToOrderRef(id, row), Some(tx))])
    {
      var marked := l.(processed := l.processed + {tx});
      assert MarkPaidPlan(marked, id, System) == MarkPaidPlan(l, id, System);
      PayingTakesNoTransaction(marked, id, tx);
    }

    method HandleWebhook(tx: TxId, target: Option<OrderId>, success: bool) returns (out: Outcome)
      requires ItemsSound(View())
      modifies this
      ensures var p := WebhookPlan(old(View()), tx, target, success);
              View() == Commit(old(View()), p) && out == p.outcome
    {
      if tx in processed { return AlreadyProcessed; }
      if target.None? || (target.value in orders && orders[target.value].paymentMethod == Cod) {
        processed := processed + {tx};
        return Ignored;
      }
      var id := target.value;
      if success {
        out := SettleInTransaction(id, tx);
        return;
      }
      processed := processed + {tx};
      if id in orders {
        events := events + [PaymentFailureReported(ToOrderRef(id, orders[id]), Some(tx))];
      }
      var released := CancelPendingInTransaction(id, Cancelled, None, System);
      return Done;
    }

    method RefundTransaction(id: OrderId, amount: nat, providerAccepts: bool) returns (out: Outcome)
      modifies this
      ensures var p := RefundPlan(old(View()), id, amount, providerAccepts);
              View() == Commit(old(View()), p) && out == p.outcome
    {
      if id !in orders { return Failed(NotFound); }
      var o := orders[id];
      if o.status == Refunded || o.payment == PaymentRefunded { return Failed(BadRequest); }
      if o.status != Paid { return Failed(BadRequest); }
      if o.transactionId.None? { return Failed(BadRequest); }
      var refundAmount := if amount != 0 then amount else o.amounts.total;
      if !providerAccepts { return Failed(BadRequest); }
      orders := orders[id := o.(status := Refunded, payment := PaymentRefunded)];
      events := events + [StatusEvent(id, o, orders[id], Admin)]
              + [PaymentRefundIssued(ToOrderRef(id, orders[id]), refundAmount, refundAmount < o.amounts.total)];
      return Done;
    }

    method RepairPendingOrder(id: OrderId, tx: TxId) returns (out: Outcome)
      requires id in orders ==> orders[id].paymentMethod != Cod
      modifies this
      ensures var p := RepairPendingPlan(old(View()), id, tx); View() == Commit(old(View()), p) && out == p.outcome
    {
      if tx in processed { return AlreadyProcessed; }
      out := SettleInTransaction(id, tx);
    }

    /** Counts a use again unless the coupon is at its limit; the repair goes ahead either way. */
    method RecountCoupon(c: Option<CouponId>)
      modifies this`coupons
      ensures coupons == if AtLimit(old(coupons), c) then old(coupons) else CountUse(old(coupons), c)
    {
      if c.Some? && c.value in coupons {
        var row := coupons[c.value];
        if row.usageLimit.None? || row.usageCount < row.usageLimit.value {
          coupons := coupons[c.value := row.(usageCount := row.usageCount + 1)];
        }
      }
    }

    method RepairReleasedOrder(id: OrderId, tx: TxId) returns (out: Outcome)
      requires ItemsSound(View()) && (id in orders ==> orders[id].paymentMethod != Cod)
      modifies this
      ensures var p := RepairReleasedPlan(old(View()), id, tx); View() == Commit(old(View()), p) && out == p.outcome
    {
      if id !in orders || !Released(orders[id].status) || orders[id].payment == PaymentPaid { return Unmatched; }
      var savedVariants, savedCoupons, savedOrders := variants, coupons, orders;
      var before := orders[id];
      if TakenByOther(orders, tx, id) { return AlreadyProcessed; }
      orders := orders[id := before.(status := Paid, payment := PaymentPaid, transactionId := Some(tx),
                                     reservation := None)];
      var reserved := ReserveItems(before.items);
      if !reserved {
        variants, orders := savedVariants, savedOrders;
        return OutOfStock;
      }
      RecountCoupon(before.couponId);
      if tx in processed {
        variants, coupons, orders := savedVariants, savedCoupons, savedOrders;
        return AlreadyProcessed;
      }
      processed := processed + {tx};
      events := events + [StatusChanged(ToOrderRef(id, orders[id]), ContractCancelled, before.status, System)]
              + [PaymentSucceeded(ToOrderRef(id, orders[id]), Some(tx))];
      return Done;
    }
  }
}
