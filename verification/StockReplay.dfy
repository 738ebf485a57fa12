/**
 * Replaying stock from the outbox. Sales and releases report what they do; permanent deletion, the repair of a
 * released order and catalogue edits change stock silently, so the replay is exact precisely when those cancel out.
 */
module StockReplay {
  import opened Results
  import Pricing
  import opened OrderModel
  import opened Ledger
  import opened LedgerInvariant
  import opened Conservation

  function DeltaSum(events: seq<Event>, v: VariantId): int {
    if events == [] then 0
    else
      var e := events[|events| - 1];
      DeltaSum(events[..|events| - 1], v) + if e.StockChanged? && e.variant == v then e.delta else 0
  }

  function LatestOnHand(events: seq<Event>, v: VariantId): Option<int> {
    if events == [] then None
    else
      var e := events[|events| - 1];
      if e.StockChanged? && e.variant == v then Some(e.onHand) else LatestOnHand(events[..|events| - 1], v)
  }

  lemma {:induction false} ReplayConcat(a: seq<Event>, b: seq<Event>, v: VariantId)
    ensures DeltaSum(a + b, v) == DeltaSum(a, v) + DeltaSum(b, v)
    ensures LatestOnHand(a + b, v) == if LatestOnHand(b, v).Some? then LatestOnHand(b, v) else LatestOnHand(a, v)
  {
    if b == [] {
      assert a + b == a;
    } else {
      assert (a + b)[..|a + b| - 1] == a + b[..|b| - 1];
      ReplayConcat(a, b[..|b| - 1], v);
    }
  }

  lemma {:induction false} NoStockEvents(events: seq<Event>, v: VariantId)
    requires forall i :: 0 <= i < |events| ==> !events[i].StockChanged?
    ensures DeltaSum(events, v) == 0 && LatestOnHand(events, v) == None
  {
    if events != [] { NoStockEvents(events[..|events| - 1], v); }
  }

  lemma ReplayOne(e: Event, v: VariantId)
    requires e.StockChanged?
    ensures DeltaSum([e], v) == (if e.variant == v then e.delta else 0)
    ensures LatestOnHand([e], v) == if e.variant == v then Some(e.onHand) else None
  {
    assert [e][..0] == [];
  }

  lemma ListedInParts(items: seq<Item>, v: VariantId)
    requires items != []
    ensures QuantityListed(items, v)
            <==> QuantityListed(items[..|items| - 1], v) || items[|items| - 1].variant == v
  {
    var init := items[..|items| - 1];
    assert forall i :: 0 <= i < |init| ==> init[i] == items[i];
    if items[|items| - 1].variant == v { assert QuantityListed(items, v); }
  }

  lemma {:induction false} StockEventsReport(items: seq<Item>, after: map<VariantId, Variant>, sign: int,
                                             reason: StockReason, id: OrderId, v: VariantId)
    requires ItemsKnown(items, after) && (sign == 1 || sign == -1)
    ensures DeltaSum(StockEvents(items, after, sign, reason, id), v) == sign * QuantityOf(items, v)
    ensures LatestOnHand(StockEvents(items, after, sign, reason, id), v)
            == if QuantityListed(items, v) then Some(after[v].stock) else None
  {
    if items != [] {
      var init, it := items[..|items| - 1], items[|items| - 1];
      StockEventsReport(init, after, sign, reason, id, v);
      var last := StockChanged(it.variant, after[it.variant].stock, sign * it.quantity, reason, id);
      assert StockEvents(items, after, sign, reason, id) == StockEvents(init, after, sign, reason, id) + [last];
      ReplayConcat(StockEvents(init, after, sign, reason, id), [last], v);
      ReplayOne(last, v);
      ListedInParts(items, v);
    }
  }

  /** What the effect reports in stock.changed events. */
  function Reported(e: Effect, v: VariantId): int {
    match e
    case Admit(id, row) => 0 - QuantityOf(row.items, v)
    case Release(id, row) => QuantityOf(row.items, v)
    case _ => 0
  }

  /** What the effect changes without an event. */
  function Silent(l: Ledger, e: Effect, v: VariantId): int {
    match e
    case Retake(id, row, overLimit) => 0 - QuantityOf(row.items, v)
    case Drop(id) => if id in l.orders && HoldsStock(l.orders[id].status) then QuantityOf(l.orders[id].items, v) else 0
    case _ => Adjustment(l, e, v)
  }

  ghost predicate Lists(e: Effect, v: VariantId) {
    (e.Admit? || e.Release?) && QuantityListed(e.row.items, v)
  }

  lemma StockMoves(l: Ledger, e: Effect, v: VariantId)
    requires Inv(l) && EffectOk(l, e)
    ensures StockOf(Affect(l, e), v) == StockOf(l, v) + Reported(e, v) + Silent(l, e, v)
    ensures !Lists(e, v) ==> Reported(e, v) == 0
  {
    if e.Admit? || e.Release? || e.Retake? {
      assert ItemsKnown(e.row.items, l.variants) by {
        if e.Admit? {
          assert forall i :: 0 <= i < |e.row.items| ==> e.row.items[i] in e.row.items;
        } else {
          assert OrderOk(l, l.orders[e.id]);
        }
      }
      RowMovesStock(l, e, v);
    } else if e.Drop? {
      assert OrderOk(l, l.orders[e.id]);
      if HoldsStock(l.orders[e.id].status) { ShiftedStock(l, l.orders[e.id].items, 1, v); }
    }
  }

  lemma RowMovesStock(l: Ledger, e: Effect, v: VariantId)
    requires (e.Admit? || e.Release? || e.Retake?) && ItemsKnown(e.row.items, l.variants)
    ensures StockOf(Affect(l, e), v) == StockOf(l, v) + Reported(e, v) + Silent(l, e, v)
    ensures !Lists(e, v) ==> Reported(e, v) == 0
  {
    ShiftedStock(l, e.row.items, if e.Release? then 1 else -1, v);
    if !QuantityListed(e.row.items, v) { QuantityAbsent(e.row.items, v); }
  }

  // ---------------------------------------------------------------- the plans report their effect

  ghost predicate ReportsEffect(l: Ledger, p: Plan, v: VariantId) {
    DeltaSum(p.events, v) == Reported(p.effect, v)
    && LatestOnHand(p.events, v) == if Lists(p.effect, v) then Some(StockOf(Affect(l, p.effect), v)) else None
  }

  lemma ReleaseEventsReport(l: Ledger, id: OrderId, before: Order, after: Order, actor: Actor, v: VariantId)
    requires ItemsKnown(after.items, l.variants)
    ensures DeltaSum(ReleaseEvents(l, id, before, after, actor), v) == QuantityOf(after.items, v)
    ensures LatestOnHand(ReleaseEvents(l, id, before, after, actor), v)
            == if QuantityListed(after.items, v) then Some(ShiftStock(l.variants, after.items, 1)[v].stock) else None
  {
    var shifted := ShiftStock(l.variants, after.items, 1);
    var head := [StatusEvent(id, before, after, actor),
                 OrderCancelled(ToOrderRef(id, after), actor, after.payment == PaymentPaid)];
    NoStockEvents(head, v);
    StockEventsReport(after.items, shifted, 1, Cancel, id, v);
    ReplayConcat(head, StockEvents(after.items, shifted, 1, Cancel, id), v);
  }

  lemma ReleaseReports(l: Ledger, id: OrderId, to: OrderStatus, actor: Actor, v: VariantId)
    requires id in l.orders && ItemsKnown(l.orders[id].items, l.variants)
    ensures ReportsEffect(l, ReleasePlan(l, id, to, actor), v)
  {
    ReleaseEventsReport(l, id, l.orders[id], ReleasedRow(l.orders[id], to), actor, v);
  }

  lemma CreateReports(l: Ledger, id: OrderId, r: CheckoutRequest, x: CheckoutContext, v: VariantId)
    ensures ReportsEffect(l, CreatePlan(l, id, r, x), v)
  {
    var p := CreatePlan(l, id, r, x);
    if p.effect.Admit? {
      var o := p.effect.row;
      var after := ShiftStock(l.variants, o.items, -1);
      assert ItemsKnown(o.items, after) by {
        assert forall i :: 0 <= i < |o.items| ==> o.items[i] in o.items;
      }
      NoStockEvents([OrderCreated(ToOrderRef(id, o))], v);
      StockEventsReport(o.items, after, -1, Sale, id, v);
      ReplayConcat([OrderCreated(ToOrderRef(id, o))], StockEvents(o.items, after, -1, Sale, id), v);
    } else {
      NoStockEvents(p.events, v);
    }
  }

  lemma CancelReports(l: Ledger, id: OrderId, to: OrderStatus, lapsedAt: Option<nat>, actor: Actor, v: VariantId)
    requires OrdersOk(l)
    ensures ReportsEffect(l, CancelPendingPlan(l, id, to, lapsedAt, actor), v)
    ensures ReportsEffect(l, CancelCodPlan(l, id, to, actor), v)
    ensures ReportsEffect(l, OrConflict(CancelPendingPlan(l, id, to, lapsedAt, actor)), v)
    ensures ReportsEffect(l, OrConflict(CancelCodPlan(l, id, to, actor)), v)
  {
    NoStockEvents([], v);
    if id in l.orders {
      assert OrderOk(l, l.orders[id]);
      ReleaseReports(l, id, to, actor, v);
    }
  }

  /** Plans that keep the stock untouched or touch it silently carry no stock event. */
  lemma QuietReports(l: Ledger, p: Plan, v: VariantId)
    requires !p.effect.Admit? && !p.effect.Release?
    requires forall i :: 0 <= i < |p.events| ==> !p.events[i].StockChanged?
    ensures ReportsEffect(l, p, v)
  {
    NoStockEvents(p.events, v);
  }

  lemma WebhookReports(l: Ledger, tx: TxId, target: Option<OrderId>, success: bool, v: VariantId)
    requires OrdersOk(l)
    ensures ReportsEffect(l, WebhookPlan(l, tx, target, success), v)
  {
    var p := WebhookPlan(l, tx, target, success);
    if tx in l.processed || target.None? || success
       || (target.value in l.orders && l.orders[target.value].paymentMethod == Cod) {
      QuietReports(l, p, v);
    } else {
      var id := target.value;
      var cancelled := CancelPendingPlan(l, id, Cancelled, None, System);
      CancelReports(l, id, Cancelled, None, System, v);
      var reported := if id in l.orders then [PaymentFailureReported(ToOrderRef(id, l.orders[id]), Some(tx))] else [];
      NoStockEvents(reported, v);
      ReplayConcat(reported, cancelled.events, v);
    }
  }

  lemma TransitionReports(l: Ledger, id: OrderId, next: OrderStatus, actor: Actor, v: VariantId)
    requires OrdersOk(l)
    ensures ReportsEffect(l, TransitionPlan(l, id, next, actor), v)
  {
    var p := TransitionPlan(l, id, next, actor);
    if id in l.orders && next in AllowedTransitions(l.orders[id].status) && Released(next) {
      CancelReports(l, id, next, None, actor, v);
    } else {
      QuietReports(l, p, v);
    }
  }

  lemma CustomerCancelReports(l: Ledger, id: OrderId, v: VariantId)
    requires OrdersOk(l)
    ensures ReportsEffect(l, CustomerCancelPlan(l, id), v)
  {
    CancelReports(l, id, Cancelled, None, Customer, v);
    QuietReports(l, Only(Failed(NotFound)), v);
  }

  /** Settling, repairing, refunding, deleting and administration write no stock event and report no effect. */
  lemma QuietPlans(l: Ledger, s: Step)
    requires !s.Create? && !s.Transition? && !s.CustomerCancel? && !s.Expire? && !s.Webhook?
    ensures var p := PlanOf(l, s);
            !p.effect.Admit? && !p.effect.Release? && forall i :: 0 <= i < |p.events| ==> !p.events[i].StockChanged?
  {
  }

  lemma PlanReports(l: Ledger, s: Step, v: VariantId)
    requires OrdersOk(l)
    ensures ReportsEffect(l, PlanOf(l, s), v)
  {
    match s
    case Create(id, request, context) => CreateReports(l, id, request, context, v);
    case Transition(id, next, actor) => TransitionReports(l, id, next, actor, v);
    case CustomerCancel(id) => CustomerCancelReports(l, id, v);
    case Expire(id, now) => CancelReports(l, id, Expired, Some(now), System, v);
    case Webhook(tx, target, success) => WebhookReports(l, tx, target, success, v);
    case _ =>
      QuietPlans(l, s);
      QuietReports(l, PlanOf(l, s), v);
  }

  // ---------------------------------------------------------------- runs

  ghost function SilentChanges(l: Ledger, steps: seq<Step>, v: VariantId): int {
    if steps == [] then 0
    else
      var before := Run(l, steps[..|steps| - 1]);
      SilentChanges(l, steps[..|steps| - 1], v) + Silent(before, PlanOf(before, steps[|steps| - 1]).effect, v)
  }

  lemma StepReplays(l: Ledger, s: Step, v: VariantId)
    requires Inv(l)
    ensures var n, silent := Next(l, s), Silent(l, PlanOf(l, s).effect, v);
            && StockOf(n, v) - DeltaSum(n.events, v) == StockOf(l, v) - DeltaSum(l.events, v) + silent
            && (silent == 0 && OnHandCurrent(l, v) ==> OnHandCurrent(n, v))
  {
    var p := PlanOf(l, s);
    assert EffectOk(l, p.effect) by { PlanIsSound(l, s); }
    PlanReports(l, s, v);
    StockMoves(l, p.effect, v);
    ReplayConcat(l.events, p.events, v);
    assert Next(l, s).variants == Affect(l, p.effect).variants;
  }

  ghost predicate OnHandCurrent(l: Ledger, v: VariantId) {
    LatestOnHand(l.events, v) == None || LatestOnHand(l.events, v) == Some(StockOf(l, v))
  }

  /** In every run the net change of the stock is what was reported plus what was changed silently. */
  lemma {:induction false} StockReplayed(l: Ledger, steps: seq<Step>, v: VariantId)
    requires Inv(l)
    ensures var n := Run(l, steps);
            StockOf(n, v) - StockOf(l, v)
            == DeltaSum(n.events, v) - DeltaSum(l.events, v) + SilentChanges(l, steps, v)
  {
    if steps != [] {
      StockReplayed(l, steps[..|steps| - 1], v);
      RunKeepsInv(l, steps[..|steps| - 1]);
      StepReplays(Run(l, steps[..|steps| - 1]), steps[|steps| - 1], v);
    }
  }

  // ---------------------------------------------------------------- which steps are silent

  predicate Holds(o: Order, v: VariantId) {
    exists i :: 0 <= i < |o.items| && o.items[i].variant == v && o.items[i].quantity > 0
  }

  lemma HeldIsPositive(o: Order, v: VariantId)
    requires DistinctVariants(o.items)
    ensures QuantityOf(o.items, v) > 0 <==> Holds(o, v)
  {
    if i :| 0 <= i < |o.items| && o.items[i].variant == v {
      QuantityAt(o.items, i);
    } else {
      QuantityAbsent(o.items, v);
    }
  }

  /** What lets the repair of a released order go through. */
  predicate IsRetaken(l: Ledger, o: Order, id: OrderId, tx: TxId) {
    o.paymentMethod != Cod && Released(o.status) && o.payment != PaymentPaid
    && !TakenByOther(l.orders, tx, id) && CanTake(l.variants, o.items) && tx !in l.processed
  }

  /** The steps that change the stock of `v` and write no event about it, told from the store before them. */
  predicate Hides(l: Ledger, s: Step, v: VariantId) {
    match s
    case DeletePermanently(id) => id in l.orders && HoldsStock(l.orders[id].status) && Holds(l.orders[id], v)
    case RepairReleased(id, tx) =>
      id in l.orders && IsRetaken(l, l.orders[id], id, tx) && Holds(l.orders[id], v)
    case AddVariant(w, row) => w == v && v !in l.variants && row.stock > 0
    case EditVariant(w, row) => w == v && v in l.variants && row.stock >= 0 && row.stock != l.variants[v].stock
    case RemoveVariant(w) => w == v && v in l.variants && l.variants[v].stock != 0 && !Listed(l.orders, v)
    case _ => false
  }

  predicate Listed(orders: map<OrderId, Order>, v: VariantId) {
    exists id :: id in orders && (exists i :: 0 <= i < |orders[id].items| && orders[id].items[i].variant == v)
  }

  lemma RepairIsSilent(l: Ledger, id: OrderId, tx: TxId, v: VariantId)
    requires Inv(l)
    ensures Silent(l, RepairReleasedPlan(l, id, tx).effect, v) != 0 <==> Hides(l, RepairReleased(id, tx), v)
  {
    if id in l.orders {
      assert OrderOk(l, l.orders[id]);
      HeldIsPositive(l.orders[id], v);
    }
  }

  /** A step changes the stock of a variant silently exactly when it is one of those. */
  lemma SilentIffHides(l: Ledger, s: Step, v: VariantId)
    requires Inv(l)
    ensures Silent(l, PlanOf(l, s).effect, v) != 0 <==> Hides(l, s, v)
  {
    if MayBeSilent(s) {
      match s
      case DeletePermanently(id) =>
        if id in l.orders {
          assert OrderOk(l, l.orders[id]);
          HeldIsPositive(l.orders[id], v);
        }
      case RepairReleased(id, tx) => RepairIsSilent(l, id, tx, v);
      case AddVariant(w, row) =>
      case EditVariant(w, row) =>
      case RemoveVariant(w) => assert VariantReferenced(l, w) <==> Listed(l.orders, w);
    } else {
      ReportingStepIsNotSilent(l, s, v);
    }
  }

  /** The stock is what the deltas since `l` say. */
  ghost predicate ReplayIsExact(l: Ledger, n: Ledger, v: VariantId) {
    StockOf(n, v) - StockOf(l, v) == DeltaSum(n.events, v) - DeltaSum(l.events, v)
  }

  ghost predicate ExactAfter(l: Ledger, steps: seq<Step>, n: nat, v: VariantId)
    requires n <= |steps|
  {
    ReplayIsExact(l, Run(l, steps[..n]), v)
  }

  ghost predicate HidesAt(l: Ledger, steps: seq<Step>, n: nat, v: VariantId)
    requires n < |steps|
  {
    Hides(Run(l, steps[..n]), steps[n], v)
  }

  lemma PrefixReplays(l: Ledger, steps: seq<Step>, n: nat, v: VariantId)
    requires Inv(l) && n < |steps| && ExactAfter(l, steps, n, v)
    ensures ExactAfter(l, steps, n + 1, v) <==> !HidesAt(l, steps, n, v)
  {
    RunKeepsInv(l, steps[..n]);
    assert steps[..n + 1][..n] == steps[..n];
    StepReplays(Run(l, steps[..n]), steps[n], v);
    SilentIffHides(Run(l, steps[..n]), steps[n], v);
  }

  lemma {:induction false} ExactUpTo(l: Ledger, steps: seq<Step>, n: nat, v: VariantId)
    requires Inv(l) && n <= |steps|
    requires forall k: nat {:trigger HidesAt(l, steps, k, v)} :: k < |steps| ==> !HidesAt(l, steps, k, v)
    ensures ExactAfter(l, steps, n, v)
  {
    if n == 0 {
      assert Run(l, steps[..0]) == l;
    } else {
      ExactUpTo(l, steps, n - 1, v);
      PrefixReplays(l, steps, n - 1, v);
    }
  }

  /**
   * A reader who adds up the deltas has the stock right all along a run exactly when no step of it hides a change:
   * deletes an order that still holds the variant, takes a released one back, or edits the catalogue's stock.
   */
  lemma ReplayIsExactIffNothingHides(l: Ledger, steps: seq<Step>, v: VariantId)
    requires Inv(l)
    ensures (forall n: nat {:trigger ExactAfter(l, steps, n, v)} :: n <= |steps| ==> ExactAfter(l, steps, n, v))
            <==> (forall n: nat {:trigger HidesAt(l, steps, n, v)} :: n < |steps| ==> !HidesAt(l, steps, n, v))
  {
    if forall n: nat {:trigger ExactAfter(l, steps, n, v)} :: n <= |steps| ==> ExactAfter(l, steps, n, v) {
      forall n: nat | n < |steps| ensures !HidesAt(l, steps, n, v) {
        assert ExactAfter(l, steps, n, v) && ExactAfter(l, steps, n + 1, v);
        PrefixReplays(l, steps, n, v);
      }
    }
    if forall n: nat {:trigger HidesAt(l, steps, n, v)} :: n < |steps| ==> !HidesAt(l, steps, n, v) {
      forall n: nat | n <= |steps| ensures ExactAfter(l, steps, n, v) { ExactUpTo(l, steps, n, v); }
    }
  }

  /** The steps that can change stock without reporting it. */
  predicate MayBeSilent(s: Step) {
    s.DeletePermanently? || s.RepairReleased? || s.AddVariant? || s.EditVariant? || s.RemoveVariant?
  }

  lemma ReportingStepIsNotSilent(l: Ledger, s: Step, v: VariantId)
    requires !MayBeSilent(s)
    ensures Silent(l, PlanOf(l, s).effect, v) == 0
  {
    var e := PlanOf(l, s).effect;
    assert !e.Retake? && !e.Drop? && !e.PutVariant? && !e.DropVariant?;
  }

  /** Without deletions, repairs of released orders and catalogue edits, the outbox tells the stock. */
  lemma {:induction false} OutboxTellsTheStock(l: Ledger, steps: seq<Step>, v: VariantId)
    requires Inv(l) && OnHandCurrent(l, v)
    requires forall i :: 0 <= i < |steps| ==> !MayBeSilent(steps[i])
    ensures var n := Run(l, steps);
            StockOf(n, v) - StockOf(l, v) == DeltaSum(n.events, v) - DeltaSum(l.events, v) && OnHandCurrent(n, v)
  {
    if steps != [] {
      var init := steps[..|steps| - 1];
      OutboxTellsTheStock(l, init, v);
      RunKeepsInv(l, init);
      StepReplays(Run(l, init), steps[|steps| - 1], v);
      ReportingStepIsNotSilent(Run(l, init), steps[|steps| - 1], v);
    }
  }

  /** Deleting an order that still holds its items says nothing, and each unit it held comes back unreported. */
  lemma DeletionSaysNothing(l: Ledger, id: OrderId, v: VariantId)
    requires Inv(l) && id in l.orders && HoldsStock(l.orders[id].status)
    ensures Next(l, DeletePermanently(id)).events == l.events
    ensures StockOf(Next(l, DeletePermanently(id)), v) == StockOf(l, v) + QuantityOf(l.orders[id].items, v)
  {
    assert OrderOk(l, l.orders[id]);
    ShiftedStock(l, l.orders[id].items, 1, v);
  }

  /** Deleting a pending order of two units: the stock rises by two and the outbox says nothing. */
  lemma DeletionIsSilent()
    ensures exists l, s, v ::
              Inv(l) && DeltaSum(Next(l, s).events, v) == DeltaSum(l.events, v)
              && StockOf(Next(l, s), v) == StockOf(l, v) + 2
  {
    var items := [Item(7, 2)];
    var amounts := Pricing.Amounts(200, 0, 0, 0, 200);
    var o := Order(Pending, PaymentPending, Cod, items, amounts, None, None, None, None, None);
    var l := Ledger(map[7 := Variant(100, 3, true, true)], map[], map[1 := o], {}, [], map[]);
    assert OrderOk(l, o);
    assert Inv(l);
    assert QuantityOf(items, 7) == 2 by { assert items[..0] == []; }
    DeletionSaysNothing(l, 1, 7);
  }
}
