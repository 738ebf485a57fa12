/** The outbox reports each Paymob transaction at most once, however often it is delivered or reconciled. */
module PaymentNotices {
  import opened Results
  import opened OrderModel
  import opened Ledger

  predicate Reports(e: Event, tx: TxId) {
    (e.PaymentSucceeded? || e.PaymentFailureReported?) && e.transaction == Some(tx)
  }

  function Notices(events: seq<Event>, tx: TxId): nat {
    if events == [] then 0
    else Notices(events[..|events| - 1], tx) + if Reports(events[|events| - 1], tx) then 1 else 0
  }

  lemma {:induction false} NoticesConcat(a: seq<Event>, b: seq<Event>, tx: TxId)
    ensures Notices(a + b, tx) == Notices(a, tx) + Notices(b, tx)
  {
    if b == [] {
      assert a + b == a;
    } else {
      assert (a + b)[..|a + b| - 1] == a + b[..|b| - 1];
      NoticesConcat(a, b[..|b| - 1], tx);
    }
  }

  ghost predicate Silent(events: seq<Event>, tx: TxId) {
    forall i :: 0 <= i < |events| ==> !Reports(events[i], tx)
  }

  lemma {:induction false} SilentHasNone(events: seq<Event>, tx: TxId)
    requires Silent(events, tx)
    ensures Notices(events, tx) == 0
  {
    if events != [] { SilentHasNone(events[..|events| - 1], tx); }
  }

  lemma {:induction false} StockEventsAreSilent(items: seq<Item>, after: map<VariantId, Variant>, sign: int,
                                                reason: StockReason, id: OrderId, tx: TxId)
    ensures Silent(StockEvents(items, after, sign, reason, id), tx)
  {
    if items != [] { StockEventsAreSilent(items[..|items| - 1], after, sign, reason, id, tx); }
  }

  lemma ReleaseIsSilent(l: Ledger, id: OrderId, before: Order, after: Order, actor: Actor, tx: TxId)
    ensures Silent(ReleaseEvents(l, id, before, after, actor), tx)
  {
    StockEventsAreSilent(after.items, ShiftStock(l.variants, after.items, 1), 1, Cancel, id, tx);
  }

  lemma CancelIsSilent(l: Ledger, id: OrderId, to: OrderStatus, lapsedAt: Option<nat>, actor: Actor, tx: TxId)
    ensures Silent(CancelPendingPlan(l, id, to, lapsedAt, actor).events, tx)
    ensures Silent(CancelCodPlan(l, id, to, actor).events, tx)
  {
    if id in l.orders { ReleaseIsSilent(l, id, l.orders[id], ReleasedRow(l.orders[id], to), actor, tx); }
  }

  lemma LastMayReport(events: seq<Event>, last: Event, tx: TxId)
    requires Silent(events, tx)
    ensures Notices(events + [last], tx) == Bit(Reports(last, tx))
  {
    NoticesConcat(events, [last], tx);
    SilentHasNone(events, tx);
    assert [last][..0] == [];
  }

  lemma SettleNotices(l: Ledger, id: OrderId, settled: TxId, tx: TxId)
    ensures var p := SettlePlan(l, id, settled); Notices(p.events, tx) == Bit(tx in p.marks)
  {
    var p := SettlePlan(l, id, settled);
    if p.effect.Move? {
      var paid := MarkPaidPlan(l, id, System);
      LastMayReport(paid.events, p.events[|p.events| - 1], tx);
      assert p.events == paid.events + [p.events[|p.events| - 1]];
    }
  }

  lemma WebhookNotices(l: Ledger, delivered: TxId, target: Option<OrderId>, success: bool, tx: TxId)
    ensures var p := WebhookPlan(l, delivered, target, success);
            Notices(p.events, tx) <= Bit(tx in p.marks && tx !in l.processed)
  {
    if delivered !in l.processed && target.Some? {
      var id := target.value;
      SettleNotices(l, id, delivered, tx);
      CancelIsSilent(l, id, Cancelled, None, System, tx);
      var cancelled := CancelPendingPlan(l, id, Cancelled, None, System);
      SilentHasNone(cancelled.events, tx);
      if id in l.orders {
        var report := PaymentFailureReported(ToOrderRef(id, l.orders[id]), Some(delivered));
        NoticesConcat([report], cancelled.events, tx);
        assert [report][..0] == [];
      } else {
        assert [] + cancelled.events == cancelled.events;
      }
    }
  }

  lemma RepairReleasedNotices(l: Ledger, id: OrderId, repaired: TxId, tx: TxId)
    ensures var p := RepairReleasedPlan(l, id, repaired);
            Notices(p.events, tx) <= Bit(tx in p.marks && tx !in l.processed)
  {
    var p := RepairReleasedPlan(l, id, repaired);
    if p.effect.Retake? {
      LastMayReport([p.events[0]], p.events[1], tx);
      assert p.events == [p.events[0]] + [p.events[1]];
    }
  }

  lemma TransitionIsSilent(l: Ledger, id: OrderId, next: OrderStatus, actor: Actor, tx: TxId)
    ensures Silent(TransitionPlan(l, id, next, actor).events, tx)
  {
    CancelIsSilent(l, id, next, None, actor, tx);
  }

  lemma CreateIsSilent(l: Ledger, id: OrderId, r: CheckoutRequest, x: CheckoutContext, tx: TxId)
    ensures Silent(CreatePlan(l, id, r, x).events, tx)
  {
    var p := CreatePlan(l, id, r, x);
    if p.effect.Admit? {
      StockEventsAreSilent(r.items, ShiftStock(l.variants, r.items, -1), -1, Sale, id, tx);
    }
  }

  /** What reports no transaction: everything but webhooks and repairs. */
  lemma OtherStepsAreSilent(l: Ledger, s: Step, tx: TxId)
    requires !s.Webhook? && !s.RepairPending? && !s.RepairReleased?
    ensures Silent(PlanOf(l, s).events, tx)
  {
    match s
    case Create(id, request, context) => CreateIsSilent(l, id, request, context, tx);
    case Transition(id, next, actor) => TransitionIsSilent(l, id, next, actor, tx);
    case CustomerCancel(id) => CancelIsSilent(l, id, Cancelled, None, Customer, tx);
    case Expire(id, now) => CancelIsSilent(l, id, Expired, Some(now), System, tx);
    case _ =>
  }

  /** A step reports a transaction at most once, and only together with a new marker. */
  lemma PlanNotices(l: Ledger, s: Step, tx: TxId)
    ensures var p := PlanOf(l, s); Notices(p.events, tx) <= Bit(tx in p.marks && tx !in l.processed)
  {
    match s
    case Webhook(delivered, target, success) => WebhookNotices(l, delivered, target, success, tx);
    case RepairPending(id, repaired) => SettleNotices(l, id, repaired, tx);
    case RepairReleased(id, repaired) => RepairReleasedNotices(l, id, repaired, tx);
    case _ =>
      OtherStepsAreSilent(l, s, tx);
      SilentHasNone(PlanOf(l, s).events, tx);
  }

  /** In every run each transaction is reported at most once, and only if it was processed. */
  lemma {:induction false} ReportedAtMostOnce(l: Ledger, steps: seq<Step>, tx: TxId)
    requires Notices(l.events, tx) <= Bit(tx in l.processed)
    ensures Notices(Run(l, steps).events, tx) <= Bit(tx in Run(l, steps).processed)
  {
    if steps != [] {
      var before, s := Run(l, steps[..|steps| - 1]), steps[|steps| - 1];
      ReportedAtMostOnce(l, steps[..|steps| - 1], tx);
      PlanNotices(before, s, tx);
      NoticesConcat(before.events, PlanOf(before, s).events, tx);
      assert Run(l, steps).processed == before.processed + PlanOf(before, s).marks;
    }
  }
}
