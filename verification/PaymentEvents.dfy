/** Payments: they only move forward, each Paymob event takes effect once, and a checkout key makes one order. */
module PaymentEvents {
  import opened Results
  import opened OrderModel
  import opened Ledger
  import opened LedgerInvariant
  import opened OrderLife

  // ---------------------------------------------------------------- payments move forward

  function PaymentRank(p: PaymentStatus): nat {
    match p
    case PaymentPending => 0
    case PaymentPaid => 1
    case PaymentFailed => 2
    case PaymentRefunded => 2
  }

  /** What any number of steps can do to an order row. */
  predicate Evolves(o: Order, o': Order) {
    o'.items == o.items && o'.paymentMethod == o.paymentMethod && o'.amounts == o.amounts && o'.userId == o.userId
    && o'.idempotencyKey == o.idempotencyKey && (o'.couponId == o.couponId || o'.couponId == None)
    && PaymentRank(o.payment) <= PaymentRank(o'.payment)
    && (o.transactionId.Some? ==> o'.transactionId.Some?)
  }

  lemma EffectEvolves(l: Ledger, e: Effect, id: OrderId)
    requires l.orders.Keys !! l.gone.Keys && EffectOk(l, e)
    ensures id in l.orders ==> Known(Affect(l, e), id) && Evolves(l.orders[id], Row(Affect(l, e), id))
    ensures id in l.gone ==>
              id in Affect(l, e).gone && id !in Affect(l, e).orders && Affect(l, e).gone[id] == l.gone[id]
  {
  }

  /**
   * In every run an order keeps its items, method, amounts and key; its payment only moves PENDING, PAID,
   * REFUNDED; a deleted order stays deleted; and the invariant ties payment, status, reservation and
   * transaction together at the end.
   */
  lemma {:induction false} PaymentsMoveForward(l: Ledger, steps: seq<Step>, id: OrderId)
    requires Inv(l) && Known(l, id)
    ensures Known(Run(l, steps), id) && Evolves(Row(l, id), Row(Run(l, steps), id))
    ensures id in l.gone ==> id !in Run(l, steps).orders
    ensures id in Run(l, steps).orders ==> PaymentsOk(Run(l, steps).orders[id])
  {
    RunKeepsInv(l, steps);
    if id in Run(l, steps).orders { assert OrderOk(Run(l, steps), Run(l, steps).orders[id]); }
    if steps != [] {
      var before, s := Run(l, steps[..|steps| - 1]), steps[|steps| - 1];
      PaymentsMoveForward(l, steps[..|steps| - 1], id);
      RunKeepsInv(l, steps[..|steps| - 1]);
      PlanIsSound(before, s);
      EffectEvolves(before, PlanOf(before, s).effect, id);
    }
  }

  ghost predicate TransactionMeansPaid(l: Ledger) {
    forall id :: id in l.orders && l.orders[id].transactionId.Some? ==> l.orders[id].payment != PaymentPending
  }

  lemma SettlingPays(l: Ledger, id: OrderId, tx: TxId)
    requires OrdersOk(l)
    ensures var e := SettlePlan(l, id, tx).effect;
            e.Keep? || (e.Move? && e.id in l.orders && e.row.payment == PaymentPaid)
  {
    if id in l.orders { assert OrderOk(l, l.orders[id]); }
  }

  /** Links no transaction to an order that stays unpaid. */
  predicate PaysWhatItLinks(l: Ledger, e: Effect) {
    (e.Move? || e.Release? || e.Retake?) && e.id in l.orders ==>
      e.row.transactionId == l.orders[e.id].transactionId || e.row.payment == PaymentPaid
  }

  lemma WebhookPaysWhatItLinks(l: Ledger, tx: TxId, target: Option<OrderId>, success: bool)
    requires OrdersOk(l)
    ensures PaysWhatItLinks(l, WebhookPlan(l, tx, target, success).effect)
  {
    if target.Some? { SettlingPays(l, target.value, tx); }
  }

  lemma CancellationLinksNothing(l: Ledger, id: OrderId, to: OrderStatus, lapsedAt: Option<nat>, actor: Actor)
    ensures PaysWhatItLinks(l, CancelPendingPlan(l, id, to, lapsedAt, actor).effect)
    ensures PaysWhatItLinks(l, CancelCodPlan(l, id, to, actor).effect)
  {
  }

  lemma PaymentLinksNothing(l: Ledger, id: OrderId, actor: Actor)
    ensures PaysWhatItLinks(l, MarkPaidPlan(l, id, actor).effect)
  {
  }

  lemma CollectionLinksNothing(l: Ledger, id: OrderId)
    ensures PaysWhatItLinks(l, CollectCodPlan(l, id).effect)
  {
  }

  lemma RefundLinksNothing(l: Ledger, id: OrderId, amount: nat, providerAccepts: bool)
    ensures PaysWhatItLinks(l, RefundPlan(l, id, amount, providerAccepts).effect)
  {
  }

  lemma TransitionLinksNothing(l: Ledger, id: OrderId, next: OrderStatus, actor: Actor)
    ensures PaysWhatItLinks(l, TransitionPlan(l, id, next, actor).effect)
  {
    if Released(next) {
      CancellationLinksNothing(l, id, next, None, actor);
    } else if next == Paid {
      PaymentLinksNothing(l, id, actor);
    }
  }

  lemma CustomerCancelLinksNothing(l: Ledger, id: OrderId)
    ensures PaysWhatItLinks(l, CustomerCancelPlan(l, id).effect)
  {
    CancellationLinksNothing(l, id, Cancelled, None, Customer);
  }

  lemma CatalogueLinksNothing(l: Ledger, s: Step)
    ensures PaysWhatItLinks(l, CataloguePlan(l, s).effect)
  {
    var e := CataloguePlan(l, s).effect;
    assert !e.Move? && !e.Release? && !e.Retake?;
  }

  lemma RepairPaysWhatItLinks(l: Ledger, id: OrderId, tx: TxId)
    requires OrdersOk(l)
    ensures PaysWhatItLinks(l, RepairPendingPlan(l, id, tx).effect)
    ensures PaysWhatItLinks(l, RepairReleasedPlan(l, id, tx).effect)
  {
    SettlingPays(l, id, tx);
  }

  lemma CheckoutLinksNothing(l: Ledger, id: OrderId, r: CheckoutRequest, x: CheckoutContext)
    ensures PaysWhatItLinks(l, CreatePlan(l, id, r, x).effect)
  {
    var e := CreatePlan(l, id, r, x).effect;
    assert e.Keep? || e.Admit?;
  }

  lemma PaymentStepPaysWhatItLinks(l: Ledger, s: Step)
    requires OrdersOk(l) && MovesMoney(s)
    ensures PaysWhatItLinks(l, PlanOf(l, s).effect)
  {
    match s
    case MarkPaid(id, actor) => PaymentLinksNothing(l, id, actor);
    case CollectCod(id) => CollectionLinksNothing(l, id);
    case Webhook(tx, target, success) => WebhookPaysWhatItLinks(l, tx, target, success);
    case Refund(id, amount, providerAccepts) => RefundLinksNothing(l, id, amount, providerAccepts);
    case RepairPending(id, tx) => RepairPaysWhatItLinks(l, id, tx);
    case RepairReleased(id, tx) => RepairPaysWhatItLinks(l, id, tx);
  }

  lemma NewTransactionIsPaid(l: Ledger, s: Step)
    requires OrdersOk(l) && !s.AttachTransaction?
    ensures PaysWhatItLinks(l, PlanOf(l, s).effect)
  {
    if MovesMoney(s) {
      PaymentStepPaysWhatItLinks(l, s);
    } else {
      OrderStepLinksNothing(l, s);
    }
  }

  lemma OrderStepLinksNothing(l: Ledger, s: Step)
    requires !MovesMoney(s) && !s.AttachTransaction?
    ensures PaysWhatItLinks(l, PlanOf(l, s).effect)
  {
    match s
    case Create(id, request, context) => CheckoutLinksNothing(l, id, request, context);
    case Transition(id, next, actor) => TransitionLinksNothing(l, id, next, actor);
    case CustomerCancel(id) => CustomerCancelLinksNothing(l, id);
    case Expire(id, now) => CancellationLinksNothing(l, id, Expired, Some(now), System);
    case DeletePermanently(id) =>
    case _ => CatalogueLinksNothing(l, s);
  }

  lemma EffectKeepsTransactionMeansPaid(l: Ledger, e: Effect)
    requires Inv(l) && EffectOk(l, e) && TransactionMeansPaid(l) && PaysWhatItLinks(l, e)
    ensures TransactionMeansPaid(Affect(l, e))
  {
    var a := Affect(l, e);
    forall id | id in a.orders && a.orders[id].transactionId.Some? ensures a.orders[id].payment != PaymentPending {
      if (e.Move? || e.Release? || e.Retake?) && e.id == id { assert RowStep(l, id, e.row); }
    }
  }

  lemma StepKeepsTransactionMeansPaid(l: Ledger, s: Step)
    requires Inv(l) && TransactionMeansPaid(l) && !s.AttachTransaction?
    ensures TransactionMeansPaid(Next(l, s))
  {
    var e := PlanOf(l, s).effect;
    assert EffectOk(l, e) by { PlanIsSound(l, s); }
    assert PaysWhatItLinks(l, e) by { NewTransactionIsPaid(l, s); }
    EffectKeepsTransactionMeansPaid(l, e);
    assert Next(l, s).orders == Affect(l, e).orders;
  }

  /** Unless something outside the services links one, a recorded transaction means a paid or refunded ONLINE order. */
  lemma {:induction false} RecordedTransactionIsPaid(l: Ledger, steps: seq<Step>)
    requires Inv(l) && TransactionMeansPaid(l)
    requires forall i :: 0 <= i < |steps| ==> !steps[i].AttachTransaction?
    ensures forall id :: id in Run(l, steps).orders && Run(l, steps).orders[id].transactionId.Some? ==>
              Run(l, steps).orders[id].paymentMethod == Online
              && Run(l, steps).orders[id].payment in {PaymentPaid, PaymentRefunded}
    ensures TransactionMeansPaid(Run(l, steps))
  {
    if steps != [] {
      RecordedTransactionIsPaid(l, steps[..|steps| - 1]);
      RunKeepsInv(l, steps[..|steps| - 1]);
      StepKeepsTransactionMeansPaid(Run(l, steps[..|steps| - 1]), steps[|steps| - 1]);
    }
    RunKeepsInv(l, steps);
    var n := Run(l, steps);
    forall id | id in n.orders && n.orders[id].transactionId.Some?
      ensures n.orders[id].paymentMethod == Online && n.orders[id].payment in {PaymentPaid, PaymentRefunded}
    {
      assert OrderOk(n, n.orders[id]);
    }
  }

  // ---------------------------------------------------------------- exactly once

  /** The steps that process a Paymob transaction. */
  predicate Carries(s: Step, tx: TxId) {
    (s.Webhook? || s.RepairPending? || s.RepairReleased?) && s.tx == tx
  }

  function Without(steps: seq<Step>, tx: TxId): seq<Step> {
    if steps == [] then []
    else Without(steps[..|steps| - 1], tx) + if Carries(steps[|steps| - 1], tx) then [] else [steps[|steps| - 1]]
  }

  lemma OnlyKeeps(l: Ledger, out: Outcome)
    ensures Commit(l, Only(out)) == l
  {
  }

  /** A transaction that does not commit leaves orders, stock, coupons, markers and outbox as they were. */
  lemma ThrowingLeavesNothing(l: Ledger, s: Step)
    requires PlanOf(l, s).outcome != Done && PlanOf(l, s).outcome != Ignored
    ensures Next(l, s) == l
  {
    OnlyKeeps(l, PlanOf(l, s).outcome);
    assert PlanOf(l, s) == Only(PlanOf(l, s).outcome);
  }

  lemma RedeliveryIsRefused(l: Ledger, s: Step, tx: TxId)
    requires tx in l.processed && Carries(s, tx)
    ensures Next(l, s) == l
  {
    var out := PlanOf(l, s).outcome;
    assert PlanOf(l, s) == Only(out);
    OnlyKeeps(l, out);
  }

  /**
   * A delivery of a new event either commits together with its marker, so that a redelivery is refused, or it
   * leaves no marker and nothing else, so that it can be delivered again. Markers come from nowhere else.
   */
  lemma MarkerIffCommitted(l: Ledger, s: Step, tx: TxId)
    ensures tx in l.processed ==> tx in Next(l, s).processed
    ensures tx !in l.processed ==>
              var out := PlanOf(l, s).outcome;
              (tx in Next(l, s).processed <==> Carries(s, tx) && (out == Done || (s.Webhook? && out == Ignored)))
  {
    var p := PlanOf(l, s);
    assert Next(l, s).processed == l.processed + p.marks;
    match s
    case Webhook(t, target, success) => WebhookMarks(l, t, target, success);
    case RepairPending(id, t) => RepairMarks(l, id, t);
    case RepairReleased(id, t) => RepairMarks(l, id, t);
    case _ => OtherStepsMarkNothing(l, s);
  }

  lemma SettlingMarks(l: Ledger, id: OrderId, tx: TxId)
    ensures var p := SettlePlan(l, id, tx); p.marks == (if p.outcome == Done then {tx} else {})
    ensures SettlePlan(l, id, tx).outcome != Ignored
  {
  }

  lemma WebhookMarks(l: Ledger, tx: TxId, target: Option<OrderId>, success: bool)
    ensures var p := WebhookPlan(l, tx, target, success);
            p.marks == (if p.outcome == Done || p.outcome == Ignored then {tx} else {})
  {
    if target.Some? { SettlingMarks(l, target.value, tx); }
  }

  lemma RepairMarks(l: Ledger, id: OrderId, tx: TxId)
    ensures var p := RepairPendingPlan(l, id, tx); p.marks == (if p.outcome == Done then {tx} else {})
    ensures var p := RepairReleasedPlan(l, id, tx); p.marks == (if p.outcome == Done then {tx} else {})
  {
    SettlingMarks(l, id, tx);
  }

  lemma OtherStepsMarkNothing(l: Ledger, s: Step)
    requires !s.Webhook? && !s.RepairPending? && !s.RepairReleased?
    ensures PlanOf(l, s).marks == {}
  {
  }

  lemma {:induction false} MarkersStay(l: Ledger, steps: seq<Step>, tx: TxId)
    requires tx in l.processed
    ensures tx in Run(l, steps).processed
  {
    if steps != [] {
      MarkersStay(l, steps[..|steps| - 1], tx);
      MarkerIffCommitted(Run(l, steps[..|steps| - 1]), steps[|steps| - 1], tx);
    }
  }

  /** Once an event is processed, every later delivery or repair carrying it can be removed from the run. */
  lemma {:induction false} RedeliveriesChangeNothing(l: Ledger, steps: seq<Step>, tx: TxId)
    requires tx in l.processed
    ensures Run(l, steps) == Run(l, Without(steps, tx))
  {
    if steps != [] {
      var init, s := steps[..|steps| - 1], steps[|steps| - 1];
      RedeliveriesChangeNothing(l, init, tx);
      if Carries(s, tx) {
        MarkersStay(l, init, tx);
        RedeliveryIsRefused(Run(l, init), s, tx);
        assert Without(steps, tx) == Without(init, tx);
      } else {
        var w := Without(steps, tx);
        assert w[..|w| - 1] == Without(init, tx);
      }
    }
  }

  /** The step carries a transaction that was already processed. */
  predicate Redelivers(l: Ledger, s: Step) {
    (s.Webhook? || s.RepairPending? || s.RepairReleased?) && s.tx in l.processed
  }

  /** The run without any redelivery, of whatever transaction. */
  ghost function FirstDeliveries(l: Ledger, steps: seq<Step>): seq<Step> {
    if steps == [] then []
    else
      var init, s := steps[..|steps| - 1], steps[|steps| - 1];
      FirstDeliveries(l, init) + if Redelivers(Run(l, init), s) then [] else [s]
  }

  /** A run equals the run with every later duplicate removed, for all transactions at once. */
  lemma {:induction false} ExactlyOnce(l: Ledger, steps: seq<Step>)
    ensures Run(l, steps) == Run(l, FirstDeliveries(l, steps))
  {
    if steps != [] {
      var init, s := steps[..|steps| - 1], steps[|steps| - 1];
      ExactlyOnce(l, init);
      var once := FirstDeliveries(l, steps);
      if Redelivers(Run(l, init), s) {
        RedeliveryIsRefused(Run(l, init), s, s.tx);
        assert once == FirstDeliveries(l, init);
      } else {
        assert once[..|once| - 1] == FirstDeliveries(l, init);
      }
    }
  }

  /** How many steps of a run commit with the marker of the transaction. */
  ghost function Commits(l: Ledger, steps: seq<Step>, tx: TxId): nat {
    if steps == [] then 0
    else
      var before := Run(l, steps[..|steps| - 1]);
      Commits(l, steps[..|steps| - 1], tx) + Bit(tx in PlanOf(before, steps[|steps| - 1]).marks)
  }

  /** In every run each transaction commits at most once, and exactly once if it is processed at the end. */
  lemma {:induction false} CommitsOnce(l: Ledger, steps: seq<Step>, tx: TxId)
    ensures Commits(l, steps, tx) + Bit(tx in l.processed) == Bit(tx in Run(l, steps).processed)
  {
    if steps != [] {
      var before, s := Run(l, steps[..|steps| - 1]), steps[|steps| - 1];
      CommitsOnce(l, steps[..|steps| - 1], tx);
      MarksAreNew(before, s, tx);
      assert Run(l, steps).processed == before.processed + PlanOf(before, s).marks;
    }
  }

  lemma MarksAreNew(l: Ledger, s: Step, tx: TxId)
    ensures tx in PlanOf(l, s).marks ==> tx !in l.processed
  {
    match s
    case Webhook(t, target, success) => WebhookMarks(l, t, target, success);
    case RepairPending(id, t) => RepairMarks(l, id, t);
    case RepairReleased(id, t) => RepairMarks(l, id, t);
    case _ => OtherStepsMarkNothing(l, s);
  }

  // ---------------------------------------------------------------- the first notice decides

  /** A notice that is not a success always leaves its marker. */
  lemma NoticeLeavesMarker(l: Ledger, tx: TxId, target: Option<OrderId>)
    ensures tx in Next(l, Webhook(tx, target, false)).processed
  {
    if tx !in l.processed { MarkerIffCommitted(l, Webhook(tx, target, false), tx); }
    assert WebhookPlan(l, tx, target, false).outcome in {AlreadyProcessed, Ignored, Done};
  }

  /**
   * A notice that is not a success, such as one of a payment still pending, counts as the notice of its
   * transaction: after it, in any continuation, neither a confirmation of the same transaction nor a repair with
   * it changes anything.
   */
  lemma NoticeBlocksConfirmation(l: Ledger, tx: TxId, target: Option<OrderId>, steps: seq<Step>, s: Step)
    requires Carries(s, tx)
    ensures var later := Run(Next(l, Webhook(tx, target, false)), steps); Next(later, s) == later
  {
    NoticeLeavesMarker(l, tx, target);
    MarkersStay(Next(l, Webhook(tx, target, false)), steps, tx);
    RedeliveryIsRefused(Run(Next(l, Webhook(tx, target, false)), steps), s, tx);
  }

  /** An unpaid order whose payment the status table allows, with the transaction recorded nowhere else. */
  predicate Payable(l: Ledger, id: OrderId, tx: TxId) {
    id in l.orders && l.orders[id].paymentMethod == Online && l.orders[id].payment == PaymentPending
    && l.orders[id].status != Paid && Paid in AllowedTransitions(l.orders[id].status) && !TakenByOther(l.orders, tx, id)
  }

  lemma ConfirmationPays(l: Ledger, id: OrderId, tx: TxId)
    requires Payable(l, id, tx)
    ensures var n := Next(l, Webhook(tx, Some(id), true));
            id in n.orders && (n.orders[id].payment == PaymentPaid <==> tx !in l.processed)
  {
    var p := WebhookPlan(l, tx, Some(id), true);
    if tx in l.processed {
      RedeliveryIsRefused(l, Webhook(tx, Some(id), true), tx);
    } else {
      assert p == SettlePlan(l, id, tx) && p.effect.Move? && p.effect.id == id;
      assert Next(l, Webhook(tx, Some(id), true)).orders == Affect(l, p.effect).orders;
    }
  }

  /** After any run, a confirmation pays a payable order exactly when no earlier step committed the transaction. */
  lemma ConfirmationPaysIffFirst(l: Ledger, steps: seq<Step>, id: OrderId, tx: TxId)
    requires tx !in l.processed && Payable(Run(l, steps), id, tx)
    ensures var n := Next(Run(l, steps), Webhook(tx, Some(id), true));
            id in n.orders && (n.orders[id].payment == PaymentPaid <==> Commits(l, steps, tx) == 0)
  {
    CommitsOnce(l, steps, tx);
    ConfirmationPays(Run(l, steps), id, tx);
  }

  // ---------------------------------------------------------------- checkout idempotency

  lemma OnlyDeletionDrops(l: Ledger, s: Step, id: OrderId)
    requires s != DeletePermanently(id)
    ensures PlanOf(l, s).effect != Drop(id)
  {
  }

  lemma EffectKeepsKey(l: Ledger, e: Effect, id: OrderId)
    requires EffectOk(l, e) && id in l.orders && e != Drop(id)
    ensures id in Affect(l, e).orders && Affect(l, e).orders[id].idempotencyKey == l.orders[id].idempotencyKey
  {
  }

  lemma KeyStays(l: Ledger, s: Step, id: OrderId)
    requires Inv(l) && id in l.orders && s != DeletePermanently(id)
    ensures id in Next(l, s).orders && Next(l, s).orders[id].idempotencyKey == l.orders[id].idempotencyKey
  {
    var e := PlanOf(l, s).effect;
    assert EffectOk(l, e) by { PlanIsSound(l, s); }
    OnlyDeletionDrops(l, s, id);
    EffectKeepsKey(l, e, id);
    assert Next(l, s).orders == Affect(l, e).orders;
  }

  lemma {:induction false} OrderWithKeyStays(l: Ledger, steps: seq<Step>, id: OrderId)
    requires Inv(l) && id in l.orders && DeletePermanently(id) !in steps
    ensures id in Run(l, steps).orders && Run(l, steps).orders[id].idempotencyKey == l.orders[id].idempotencyKey
  {
    if steps != [] {
      assert steps[|steps| - 1] in steps;
      OrderWithKeyStays(l, steps[..|steps| - 1], id);
      RunKeepsInv(l, steps[..|steps| - 1]);
      KeyStays(Run(l, steps[..|steps| - 1]), steps[|steps| - 1], id);
    }
  }

  /**
   * A checkout repeated with the key of an order that was not deleted in between answers with that very order and
   * changes nothing, whatever happened meanwhile and whatever else the repeated request says.
   */
  lemma CheckoutIsIdempotent(l: Ledger, id: OrderId, r: CheckoutRequest, x: CheckoutContext, steps: seq<Step>,
                             id': OrderId, r': CheckoutRequest, x': CheckoutContext)
    requires Inv(l) && PlanOf(l, Create(id, r, x)).outcome == Done && r.idempotencyKey.Some?
    requires r'.idempotencyKey == r.idempotencyKey && DeletePermanently(id) !in steps
    ensures var n := Run(Next(l, Create(id, r, x)), steps);
            PlanOf(n, Create(id', r', x')).outcome == Existing(id) && Next(n, Create(id', r', x')) == n
  {
    var created := Next(l, Create(id, r, x));
    StepKeepsInv(l, Create(id, r, x));
    assert id in created.orders && created.orders[id].idempotencyKey == r.idempotencyKey;
    OrderWithKeyStays(created, steps, id);
    RunKeepsInv(created, steps);
    var n := Run(created, steps);
    assert KeyUsed(n.orders, r'.idempotencyKey);
    assert KeyHolder(n.orders, r'.idempotencyKey) == id;
    ThrowingLeavesNothing(n, Create(id', r', x'));
  }
}
