/** Payment reconciliation: the batch loop over the provider's answers, its counters, and the repairs it makes. */
module Reconciliation {
  import opened Results
  import opened OrderModel
  import opened Ledger
  import opened LedgerInvariant
  import opened OrderStore
  import opened PaymentEvents

  /** An order as the selection read it. */
  datatype Candidate = Candidate(id: OrderId, order: Order, hasIntention: bool)

  datatype Currency = Missing | Egp | Foreign

  /** What came back for one transaction; None stands for a field that is absent or unusable. */
  datatype Reply =
    | Unreachable | HttpFailure | Unparseable
    | Answer(referenceMatches: bool, amount: Option<int>, currency: Currency, success: Option<bool>,
             pending: Option<bool>, voided: bool, refunded: bool)

  datatype Tally = Tally(
    checked: nat, repaired: nat, manualReview: nat, mismatchCount: nat, unlinked: nat, failed: nat, attempted: nat,
    mismatches: seq<OrderId>)

  datatype Verdict = Report(tally: Tally) | BadGateway

  const BATCH_SIZE := 5

  predicate CallFailed(r: Reply) {
    !r.Answer?
  }

  /** The provider confirms, for this very order, a payment of exactly its total in EGP, neither voided nor refunded. */
  predicate ConfirmsPayment(c: Candidate, r: Reply) {
    r.Answer? && r.success == Some(true) && r.pending == Some(false) && !r.voided && !r.refunded
    && r.referenceMatches && r.amount == Some(c.order.amounts.total) && r.currency == Egp
  }

  /**
   * The answer cannot be squared with the order. It lacks a matching reference, an amount or a currency; it is a
   * payment of another amount or currency; or it tells of a refund, a failure or an open payment that the order
   * does not have.
   */
  predicate Disagrees(c: Candidate, r: Reply) {
    r.Answer?
    && (!r.referenceMatches || r.amount.None? || r.currency == Missing
        || if r.refunded then c.order.payment != PaymentRefunded
           else if r.success == Some(true) && r.pending == Some(false) && !r.voided then
             r.amount != Some(c.order.amounts.total) || r.currency != Egp
           else if r.success == Some(false) && r.pending == Some(false) then c.order.payment != PaymentFailed
           else c.order.payment != PaymentPending)
  }

  /** The step a callback takes: with a confirmed payment, the repair of an order it read as pending or released. */
  function RepairOf(c: Candidate, r: Reply): seq<Step>
    requires c.order.transactionId.Some?
  {
    if !ConfirmsPayment(c, r) then []
    else if c.order.status == Pending then [RepairPending(c.id, c.order.transactionId.value)]
    else if Released(c.order.status) then [RepairReleased(c.id, c.order.transactionId.value)]
    else []
  }

  /** The repair of a released, unpaid order whose items cannot be reserved again, as the store is at that moment. */
  predicate CannotBeRetaken(l: Ledger, s: Step) {
    s.RepairReleased? && s.id in l.orders
    && var o := l.orders[s.id];
    o.paymentMethod != Cod && Released(o.status) && o.payment != PaymentPaid
    && !TakenByOther(l.orders, s.tx, s.id) && !CanTake(l.variants, o.items)
  }

  ghost predicate NeedsReview(l: Ledger, c: Candidate, r: Reply)
    requires c.order.transactionId.Some?
  {
    Disagrees(c, r) || (RepairOf(c, r) != [] && CannotBeRetaken(l, RepairOf(c, r)[0]))
  }

  ghost predicate AllLinked(visits: seq<Candidate>) {
    forall i :: 0 <= i < |visits| ==> visits[i].order.transactionId.Some?
  }

  /** The repairs of a run, in the order its callbacks finish. */
  function Repairs(visits: seq<Candidate>, ask: OrderId -> Reply): seq<Step> {
    if visits == [] then []
    else
      var c := visits[|visits| - 1];
      Repairs(visits[..|visits| - 1], ask) + if c.order.transactionId.Some? then RepairOf(c, ask(c.id)) else []
  }

  /** The orders a run puts up for review. */
  ghost function Reviewed(start: Ledger, visits: seq<Candidate>, ask: OrderId -> Reply): seq<OrderId> {
    if visits == [] then []
    else
      var init, c := visits[..|visits| - 1], visits[|visits| - 1];
      Reviewed(start, init, ask)
      + if c.order.transactionId.Some? && NeedsReview(Run(start, Repairs(init, ask)), c, ask(c.id)) then [c.id] else []
  }

  function WithTransaction(candidates: seq<Candidate>): seq<Candidate> {
    if candidates == [] then []
    else
      var c := candidates[|candidates| - 1];
      WithTransaction(candidates[..|candidates| - 1]) + if c.order.transactionId.Some? then [c] else []
  }

  function CountUnlinked(candidates: seq<Candidate>): nat {
    if candidates == [] then 0
    else
      var c := candidates[|candidates| - 1];
      CountUnlinked(candidates[..|candidates| - 1]) + if c.order.transactionId.None? && c.hasIntention then 1 else 0
  }

  function CountFailed(visits: seq<Candidate>, ask: OrderId -> Reply): nat {
    if visits == [] then 0
    else CountFailed(visits[..|visits| - 1], ask) + if CallFailed(ask(visits[|visits| - 1].id)) then 1 else 0
  }

  /** Every counter is accounted for. */
  predicate Balanced(t: Tally) {
    t.attempted == t.checked + t.failed
    && t.manualReview == t.mismatchCount == |t.mismatches|
    && t.repaired + t.manualReview <= t.checked
  }

  ghost function CommittedCount(l: Ledger, steps: seq<Step>): nat {
    if steps == [] then 0
    else
      var init := steps[..|steps| - 1];
      CommittedCount(l, init) + if PlanOf(Run(l, init), steps[|steps| - 1]).outcome == Done then 1 else 0
  }

  /** The step repairs an order of the selection whose payment the provider confirmed. */
  ghost predicate Justified(s: Step, candidates: seq<Candidate>, ask: OrderId -> Reply) {
    (s.RepairPending? || s.RepairReleased?)
    && exists c :: c in candidates && c.id == s.id && c.order.transactionId == Some(s.tx)
                   && ConfirmsPayment(c, ask(c.id))
  }

  ghost predicate NoCod(orders: map<OrderId, Order>, candidates: seq<Candidate>) {
    forall c :: c in candidates && c.id in orders ==> orders[c.id].paymentMethod != Cod
  }

  lemma RepairKeepsNoCod(l: Ledger, s: Step, candidates: seq<Candidate>)
    requires Inv(l) && NoCod(l.orders, candidates) && (s.RepairPending? || s.RepairReleased?)
    ensures Inv(Next(l, s)) && NoCod(Next(l, s).orders, candidates)
  {
    StepKeepsInv(l, s);
    PlanIsSound(l, s);
    var e := PlanOf(l, s).effect;
    assert e.Keep? || e.Move? || e.Retake?;
    forall c | c in candidates && c.id in Next(l, s).orders ensures Next(l, s).orders[c.id].paymentMethod != Cod {
      EffectEvolves(l, e, c.id);
      assert c.id in l.orders;
    }
  }

  lemma RunOnce(l: Ledger, s: Step)
    ensures Run(l, [s]) == Next(l, s)
    ensures CommittedCount(l, [s]) == if PlanOf(l, s).outcome == Done then 1 else 0
  {
    assert [s][..0] == [];
    assert Run(l, []) == l;
  }

  function RepairPlan(l: Ledger, s: Step): Plan
    requires s.RepairPending? || s.RepairReleased?
  {
    if s.RepairPending? then RepairPendingPlan(l, s.id, s.tx) else RepairReleasedPlan(l, s.id, s.tx)
  }

  /** One repair is a run of one step, and counts when it commits. */
  lemma RepairTaken(l: Ledger, s: Step)
    requires Inv(l) && (s.RepairPending? || s.RepairReleased?)
    ensures var p := RepairPlan(l, s);
            Inv(Commit(l, p)) && Commit(l, p) == Run(l, [s])
            && CommittedCount(l, [s]) == (if p.outcome == Done then 1 else 0)
            && (CannotBeRetaken(l, s) <==> s.RepairReleased? && p.outcome == OutOfStock)
    ensures ItemsSound(l)
  {
    RunOnce(l, s);
    assert RepairPlan(l, s) == PlanOf(l, s);
    StepKeepsInv(l, s);
    InvItems(l);
  }

  lemma {:induction false} CommittedConcat(l: Ledger, a: seq<Step>, b: seq<Step>)
    ensures CommittedCount(l, a + b) == CommittedCount(l, a) + CommittedCount(Run(l, a), b)
  {
    if b == [] {
      assert a + b == a;
    } else {
      var init := b[..|b| - 1];
      assert (a + b)[..|a + b| - 1] == a + init;
      CommittedConcat(l, a, init);
      RunSplit(l, a, init);
    }
  }

  /** One callback of the batch: ask, validate, then repair or report. `steps` are the ledger steps it took. */
  method CheckOrder(store: Store, c: Candidate, ask: OrderId -> Reply, t: Tally)
    returns (t': Tally, ghost steps: seq<Step>)
    requires Inv(store.View()) && NoCod(store.orders, [c]) && c.order.transactionId.Some? && Balanced(t)
    modifies store
    ensures Inv(store.View()) && Balanced(t')
    ensures store.View() == Run(old(store.View()), steps)
    ensures t'.repaired == t.repaired + CommittedCount(old(store.View()), steps)
    ensures t'.attempted == t.attempted + 1 && t'.unlinked == t.unlinked
    ensures t'.failed == t.failed + if CallFailed(ask(c.id)) then 1 else 0
    ensures ConfirmsPayment(c, ask(c.id)) && c.order.status == Pending ==>
              steps == [RepairPending(c.id, c.order.transactionId.value)]
    ensures ConfirmsPayment(c, ask(c.id)) && (c.order.status == Cancelled || c.order.status == Expired) ==>
              steps == [RepairReleased(c.id, c.order.transactionId.value)]
    ensures steps == RepairOf(c, ask(c.id))
    ensures t'.mismatches == t.mismatches + if NeedsReview(old(store.View()), c, ask(c.id)) then [c.id] else []
  {
    var txId, reply := c.order.transactionId.value, ask(c.id);
    t', steps := t.(attempted := t.attempted + 1), [];
    if CallFailed(reply) {
      t' := t'.(failed := t'.failed + 1);
      return;
    }
    t' := t'.(checked := t'.checked + 1);
    if !reply.referenceMatches || reply.amount.None? || reply.currency == Missing {
      t' := Flag(t', c.id);
      return;
    }
    var amountMatches, currencyMatches := reply.amount.value == c.order.amounts.total, reply.currency == Egp;
    var success := reply.success == Some(true) && reply.pending == Some(false) && !reply.voided && !reply.refunded;
    if success && amountMatches && currencyMatches {
      t', steps := RepairOrder(store, c, ask, t');
    } else {
      var expected := PaymentPending;
      if reply.refunded {
        expected := PaymentRefunded;
      } else if success {
        expected := PaymentPaid;
      } else if reply.success == Some(false) && reply.pending == Some(false) {
        expected := PaymentFailed;
      }
      if c.order.payment != expected || (!amountMatches && success) || (!currencyMatches && success) {
        t' := Flag(t', c.id);
      }
    }
  }

  /** The payment is confirmed: repairs an order that was read as pending or released. */
  method RepairOrder(store: Store, c: Candidate, ask: OrderId -> Reply, t: Tally)
    returns (t': Tally, ghost steps: seq<Step>)
    requires Inv(store.View()) && NoCod(store.orders, [c]) && c.order.transactionId.Some?
    requires ConfirmsPayment(c, ask(c.id))
    modifies store
    ensures Inv(store.View()) && store.View() == Run(old(store.View()), steps) && steps == RepairOf(c, ask(c.id))
    ensures var repairs := CommittedCount(old(store.View()), steps);
            var refused := if steps != [] && CannotBeRetaken(old(store.View()), steps[0]) then [c.id] else [];
            && repairs + |refused| <= 1
            && t' == t.(repaired := t.repaired + repairs, manualReview := t.manualReview + |refused|,
                        mismatchCount := t.mismatchCount + |refused|, mismatches := t.mismatches + refused)
  {
    var txId := c.order.transactionId.value;
    assert c in [c];
    t', steps := t, [];
    if c.order.status == Pending {
      RepairTaken(store.View(), RepairPending(c.id, txId));
      var out := store.RepairPendingOrder(c.id, txId);
      steps := [RepairPending(c.id, txId)];
      if out == Done { t' := t'.(repaired := t'.repaired + 1); }
    } else if Released(c.order.status) {
      RepairTaken(store.View(), RepairReleased(c.id, txId));
      var out := store.RepairReleasedOrder(c.id, txId);
      steps := [RepairReleased(c.id, txId)];
      if out == Done {
        t' := t'.(repaired := t'.repaired + 1);
      } else if out == OutOfStock {
        t' := Flag(t', c.id);
      }
    }
  }

  function Flag(t: Tally, id: OrderId): Tally {
    t.(manualReview := t.manualReview + 1, mismatchCount := t.mismatchCount + 1, mismatches := t.mismatches + [id])
  }

  /** The first loop: orders without a transaction are only counted. */
  method SplitCandidates(candidates: seq<Candidate>) returns (txOrders: seq<Candidate>, unlinked: nat)
    ensures txOrders == WithTransaction(candidates) && unlinked == CountUnlinked(candidates)
  {
    txOrders, unlinked := [], 0;
    for i := 0 to |candidates|
      invariant txOrders == WithTransaction(candidates[..i]) && unlinked == CountUnlinked(candidates[..i])
    {
      var c := candidates[i];
      assert candidates[..i + 1][..i] == candidates[..i];
      if c.order.transactionId.None? && c.hasIntention {
        unlinked := unlinked + 1;
      } else if c.order.transactionId.Some? {
        txOrders := txOrders + [c];
      }
    }
    assert candidates[..|candidates|] == candidates;
  }

  /** What the loop has established after visiting `visits`, from the ledger `start`. */
  ghost predicate Progress(start: Ledger, l: Ledger, steps: seq<Step>, t: Tally, visits: seq<Candidate>,
                           candidates: seq<Candidate>, ask: OrderId -> Reply)
  {
    Stored(start, l, steps, candidates) && Counted(start, steps, t, visits, ask)
  }

  ghost predicate Stored(start: Ledger, l: Ledger, steps: seq<Step>, candidates: seq<Candidate>) {
    Inv(l) && l == Run(start, steps) && NoCod(l.orders, candidates)
  }

  ghost predicate Counted(start: Ledger, steps: seq<Step>, t: Tally, visits: seq<Candidate>, ask: OrderId -> Reply) {
    Balanced(t) && t.attempted == |visits| && t.failed == CountFailed(visits, ask)
    && t.repaired == CommittedCount(start, steps)
    && AllLinked(visits) && steps == Repairs(visits, ask) && t.mismatches == Reviewed(start, visits, ask)
  }

  lemma StoredOn(start: Ledger, l: Ledger, steps: seq<Step>, c: Candidate, candidates: seq<Candidate>,
                 ask: OrderId -> Reply, more: seq<Step>)
    requires Stored(start, l, steps, candidates) && Inv(Run(l, more))
    requires c.order.transactionId.Some? && more == RepairOf(c, ask(c.id))
    ensures Stored(start, Run(l, more), steps + more, candidates)
  {
    RunSplit(start, steps, more);
    forall s | s in more ensures Justified(s, [c], ask) { assert c in [c]; }
    assert NoCod(Run(l, more).orders, candidates) by { JustifiedKeepNoCod(l, more, [c], candidates, ask); }
  }

  lemma CountedOn(start: Ledger, l: Ledger, steps: seq<Step>, t: Tally, visits: seq<Candidate>, c: Candidate,
                  ask: OrderId -> Reply, more: seq<Step>, t': Tally)
    requires Counted(start, steps, t, visits, ask) && l == Run(start, steps)
    requires c.order.transactionId.Some? && more == RepairOf(c, ask(c.id))
    requires Balanced(t') && t'.attempted == t.attempted + 1
    requires t'.failed == t.failed + (if CallFailed(ask(c.id)) then 1 else 0)
    requires t'.repaired == t.repaired + CommittedCount(l, more)
    requires t'.mismatches == t.mismatches + if NeedsReview(l, c, ask(c.id)) then [c.id] else []
    ensures Counted(start, steps + more, t', visits + [c], ask)
  {
    CommittedConcat(start, steps, more);
    OneMoreVisit(start, visits, c, ask);
  }

  lemma OneMoreVisit(start: Ledger, visits: seq<Candidate>, c: Candidate, ask: OrderId -> Reply)
    requires AllLinked(visits) && c.order.transactionId.Some?
    ensures AllLinked(visits + [c]) && Repairs(visits + [c], ask) == Repairs(visits, ask) + RepairOf(c, ask(c.id))
    ensures CountFailed(visits + [c], ask) == CountFailed(visits, ask) + if CallFailed(ask(c.id)) then 1 else 0
    ensures Reviewed(start, visits + [c], ask)
            == Reviewed(start, visits, ask)
               + if NeedsReview(Run(start, Repairs(visits, ask)), c, ask(c.id)) then [c.id] else []
  {
    assert (visits + [c])[..|visits|] == visits;
  }

  lemma {:induction false} JustifiedKeepNoCod(l: Ledger, more: seq<Step>, asked: seq<Candidate>,
                                              candidates: seq<Candidate>, ask: OrderId -> Reply)
    requires Inv(l) && NoCod(l.orders, candidates) && forall s :: s in more ==> Justified(s, asked, ask)
    ensures NoCod(Run(l, more).orders, candidates)
  {
    if more != [] {
      JustifiedKeepNoCod(l, more[..|more| - 1], asked, candidates, ask);
      RunKeepsInv(l, more[..|more| - 1]);
      assert more[|more| - 1] in more;
      RepairKeepsNoCod(Run(l, more[..|more| - 1]), more[|more| - 1], candidates);
    }
  }

  lemma {:induction false} TransactionsAreCandidates(candidates: seq<Candidate>)
    ensures forall c :: c in WithTransaction(candidates) <==> c in candidates && c.order.transactionId.Some?
  {
    if candidates != [] {
      TransactionsAreCandidates(candidates[..|candidates| - 1]);
      assert candidates == candidates[..|candidates| - 1] + [candidates[|candidates| - 1]];
    }
  }

  /** Every selected order with a transaction, as often as it was selected. */
  lemma {:induction false} TransactionsAreKept(candidates: seq<Candidate>, c: Candidate)
    ensures multiset(WithTransaction(candidates))[c]
            == if c.order.transactionId.Some? then multiset(candidates)[c] else 0
  {
    if candidates != [] {
      var init, last := candidates[..|candidates| - 1], candidates[|candidates| - 1];
      TransactionsAreKept(init, c);
      assert candidates == init + [last];
      assert multiset(candidates) == multiset(init) + multiset{last};
    }
  }

  /** Where the selected orders without a transaction stand for which a payment was begun. */
  function UnlinkedAt(candidates: seq<Candidate>): set<int> {
    set i | 0 <= i < |candidates| && candidates[i].order.transactionId == None && candidates[i].hasIntention
  }

  lemma {:induction false} UnlinkedAreCounted(candidates: seq<Candidate>)
    ensures CountUnlinked(candidates) == |UnlinkedAt(candidates)|
  {
    if candidates != [] {
      var n := |candidates| - 1;
      var last := candidates[n];
      UnlinkedAreCounted(candidates[..n]);
      assert UnlinkedAt(candidates)
          == UnlinkedAt(candidates[..n]) + if last.order.transactionId == None && last.hasIntention then {n} else {};
    }
  }

  /** Which calls got no answer: the provider could not be reached, refused, or sent something unreadable. */
  function FailedAt(visits: seq<Candidate>, ask: OrderId -> Reply): set<int> {
    set i | 0 <= i < |visits| && ask(visits[i].id) in {Unreachable, HttpFailure, Unparseable}
  }

  lemma {:induction false} FailuresAreCounted(visits: seq<Candidate>, ask: OrderId -> Reply)
    ensures CountFailed(visits, ask) == |FailedAt(visits, ask)|
  {
    if visits != [] {
      var n := |visits| - 1;
      FailuresAreCounted(visits[..n], ask);
      assert FailedAt(visits, ask) == FailedAt(visits[..n], ask) + if CallFailed(ask(visits[n].id)) then {n} else {};
    }
  }

  lemma TakeOut(waiting: seq<Candidate>, k: nat)
    requires k < |waiting|
    ensures var rest := waiting[..k] + waiting[k + 1..];
            multiset(waiting) == multiset(rest) + multiset([waiting[k]]) && forall d :: d in rest ==> d in waiting
  {
    assert waiting == waiting[..k] + [waiting[k]] + waiting[k + 1..];
  }

  /** One batch: its callbacks run concurrently, so any of those still waiting may be the next to finish. */
  method RunBatch(store: Store, batch: seq<Candidate>, ask: OrderId -> Reply, t: Tally, ghost start: Ledger,
                  ghost steps: seq<Step>, ghost visits: seq<Candidate>, ghost candidates: seq<Candidate>)
    returns (t': Tally, ghost steps': seq<Step>, ghost visits': seq<Candidate>)
    requires Progress(start, store.View(), steps, t, visits, candidates, ask)
    requires forall c :: c in batch ==> c in candidates && c.order.transactionId.Some?
    modifies store
    ensures Progress(start, store.View(), steps', t', visits', candidates, ask)
    ensures multiset(visits') == multiset(visits) + multiset(batch) && t'.unlinked == t.unlinked
  {
    t', steps', visits' := t, steps, visits;
    var waiting := batch;
    while waiting != []
      invariant Progress(start, store.View(), steps', t', visits', candidates, ask) && t'.unlinked == t.unlinked
      invariant multiset(visits') + multiset(waiting) == multiset(visits) + multiset(batch)
      invariant forall c :: c in waiting ==> c in candidates && c.order.transactionId.Some?
      decreases |waiting|
    {
      var k :| 0 <= k < |waiting|;
      var c := waiting[k];
      var rest := waiting[..k] + waiting[k + 1..];
      TakeOut(waiting, k);
      t', steps', visits' := Visit(store, c, ask, t', start, steps', visits', candidates);
      waiting := rest;
    }
  }

  method Visit(store: Store, c: Candidate, ask: OrderId -> Reply, t: Tally, ghost start: Ledger,
               ghost steps: seq<Step>, ghost visits: seq<Candidate>, ghost candidates: seq<Candidate>)
    returns (t': Tally, ghost steps': seq<Step>, ghost visits': seq<Candidate>)
    requires Progress(start, store.View(), steps, t, visits, candidates, ask)
    requires c in candidates && c.order.transactionId.Some?
    modifies store
    ensures Progress(start, store.View(), steps', t', visits', candidates, ask)
    ensures visits' == visits + [c] && t'.unlinked == t.unlinked
  {
    ghost var l := store.View();
    ghost var more;
    t', more := CheckOrder(store, c, ask, t);
    StoredOn(start, l, steps, c, candidates, ask, more);
    CountedOn(start, l, steps, t, visits, c, ask, more, t');
    visits', steps' := visits + [c], steps + more;
  }

  /**
   * The whole run. Whatever order the callbacks of a batch finish in: every order with a transaction is visited
   * exactly once and the counters balance; the orders whose payment is confirmed, and no others, get their repair,
   * counted when it commits; those that disagree, or cannot be retaken, and no others, are put up for review; and
   * the run fails exactly when more than half of a non-empty set of calls failed.
   */
  method ReconcilePayments(store: Store, candidates: seq<Candidate>, ask: OrderId -> Reply)
    returns (verdict: Verdict, ghost t: Tally, ghost visits: seq<Candidate>, ghost steps: seq<Step>)
    requires Inv(store.View()) && NoCod(store.orders, candidates)
    modifies store
    ensures Inv(store.View()) && store.View() == Run(old(store.View()), steps)
    ensures multiset(visits) == multiset(WithTransaction(candidates))
    ensures Balanced(t) && t.attempted == |WithTransaction(candidates)| && t.unlinked == CountUnlinked(candidates)
    ensures t.failed == CountFailed(visits, ask) && t.repaired == CommittedCount(old(store.View()), steps)
    ensures forall s :: s in steps ==> Justified(s, candidates, ask)
    ensures ConfirmedAreRepaired(candidates, ask, steps)
    ensures forall id :: id in t.mismatches
              <==> SomeDisagrees(candidates, ask, id) || SomeCannotBeRetaken(old(store.View()), steps, id)
    ensures steps == Repairs(visits, ask) && t.mismatches == Reviewed(old(store.View()), visits, ask)
    ensures verdict == if 2 * t.failed > t.attempted then BadGateway else Report(t)
  {
    var txOrders, unlinked := SplitCandidates(candidates);
    var tally := Tally(0, 0, 0, 0, unlinked, 0, 0, []);
    TransactionsAreCandidates(candidates);
    ghost var start := store.View();
    tally, steps, visits := VisitAll(store, txOrders, ask, tally, candidates);
    SameSize(visits, txOrders);
    SameMembers(visits, txOrders);
    RunIsExact(start, visits, candidates, ask);
    t := tally;
    if tally.attempted > 0 && 2 * tally.failed > tally.attempted {
      return BadGateway, t, visits, steps;
    }
    return Report(tally), t, visits, steps;
  }

  /** The loop over the batches. */
  method VisitAll(store: Store, txOrders: seq<Candidate>, ask: OrderId -> Reply, t: Tally,
                  ghost candidates: seq<Candidate>)
    returns (t': Tally, ghost steps: seq<Step>, ghost visits: seq<Candidate>)
    requires Inv(store.View()) && NoCod(store.orders, candidates)
    requires forall c :: c in txOrders ==> c in candidates && c.order.transactionId.Some?
    requires t == Tally(0, 0, 0, 0, t.unlinked, 0, 0, [])
    modifies store
    ensures Progress(old(store.View()), store.View(), steps, t', visits, candidates, ask) && t'.unlinked == t.unlinked
    ensures multiset(visits) == multiset(txOrders)
  {
    t', steps, visits := t, [], [];
    ghost var start := store.View();
    assert Run(start, steps) == start;
    var i := 0;
    while i < |txOrders|
      invariant 0 <= i
      invariant Progress(start, store.View(), steps, t', visits, candidates, ask) && t'.unlinked == t.unlinked
      invariant multiset(visits) == multiset(txOrders[..if i < |txOrders| then i else |txOrders|])
    {
      var end := if i + BATCH_SIZE < |txOrders| then i + BATCH_SIZE else |txOrders|;
      var batch := txOrders[i..end];
      NextBatch(txOrders, i, end);
      t', steps, visits := RunBatch(store, batch, ask, t', start, steps, visits, candidates);
      i := i + BATCH_SIZE;
    }
    assert txOrders[..|txOrders|] == txOrders;
  }

  lemma NextBatch(orders: seq<Candidate>, i: nat, end: nat)
    requires i <= end <= |orders|
    ensures multiset(orders[..end]) == multiset(orders[..i]) + multiset(orders[i..end])
    ensures forall c :: c in orders[i..end] ==> c in orders
  {
    assert orders[..end] == orders[..i] + orders[i..end];
  }

  lemma SameSize(a: seq<Candidate>, b: seq<Candidate>)
    requires multiset(a) == multiset(b)
    ensures |a| == |b|
  {
    assert |multiset(a)| == |a| && |multiset(b)| == |b|;
  }

  lemma SameMembers(a: seq<Candidate>, b: seq<Candidate>)
    requires multiset(a) == multiset(b)
    ensures forall c :: c in a <==> c in b
  {
    forall c ensures c in a <==> c in b { assert c in a <==> c in multiset(a); }
  }

  /** Every order of the selection whose payment is confirmed gets the repair that its status asks for. */
  ghost predicate ConfirmedAreRepaired(candidates: seq<Candidate>, ask: OrderId -> Reply, steps: seq<Step>) {
    forall c :: c in candidates && c.order.transactionId.Some? && ConfirmsPayment(c, ask(c.id)) ==>
      (c.order.status == Pending ==> RepairPending(c.id, c.order.transactionId.value) in steps)
      && (c.order.status == Cancelled || c.order.status == Expired ==>
            RepairReleased(c.id, c.order.transactionId.value) in steps)
  }

  /** What the visits amount to, told on the selection. */
  lemma RunIsExact(start: Ledger, visits: seq<Candidate>, candidates: seq<Candidate>, ask: OrderId -> Reply)
    requires forall c :: c in visits <==> c in candidates && c.order.transactionId.Some?
    ensures ConfirmedAreRepaired(candidates, ask, Repairs(visits, ask))
    ensures forall s :: s in Repairs(visits, ask) ==> Justified(s, candidates, ask)
    ensures forall id :: id in Reviewed(start, visits, ask)
              <==> SomeDisagrees(candidates, ask, id) || SomeCannotBeRetaken(start, Repairs(visits, ask), id)
  {
    RepairsAreJustified(visits, candidates, ask);
    RepairsAreComplete(visits, ask);
    VisitsDisagree(visits, candidates, ask);
    forall id ensures id in Reviewed(start, visits, ask)
        <==> SomeDisagrees(candidates, ask, id) || SomeCannotBeRetaken(start, Repairs(visits, ask), id)
    {
      ReviewsAreExact(start, visits, ask, id);
      DisagreeInIsSome(visits, ask, id);
      RefusedInIsSome(start, Repairs(visits, ask), id);
    }
  }

  /** Some order of the selection with a transaction disagrees with its answer. */
  ghost predicate SomeDisagrees(candidates: seq<Candidate>, ask: OrderId -> Reply, id: OrderId) {
    exists c :: c in candidates && c.id == id && c.order.transactionId.Some? && Disagrees(c, ask(c.id))
  }

  /** Some repair of a released order finds its items out of stock. */
  ghost predicate SomeCannotBeRetaken(start: Ledger, steps: seq<Step>, id: OrderId) {
    exists i :: 0 <= i < |steps| && CannotBeRetaken(Run(start, steps[..i]), steps[i]) && steps[i].id == id
  }

  lemma VisitsDisagree(visits: seq<Candidate>, candidates: seq<Candidate>, ask: OrderId -> Reply)
    requires forall c :: c in visits <==> c in candidates && c.order.transactionId.Some?
    ensures forall id :: SomeDisagrees(visits, ask, id) <==> SomeDisagrees(candidates, ask, id)
  {
  }

  lemma {:induction false} RepairsAreJustified(visits: seq<Candidate>, candidates: seq<Candidate>,
                                               ask: OrderId -> Reply)
    requires forall c :: c in visits ==> c in candidates
    ensures forall s :: s in Repairs(visits, ask) ==> Justified(s, candidates, ask)
  {
    if visits != [] {
      var c := visits[|visits| - 1];
      assert c in visits;
      RepairsAreJustified(visits[..|visits| - 1], candidates, ask);
    }
  }

  lemma {:induction false} RepairsAreComplete(visits: seq<Candidate>, ask: OrderId -> Reply)
    ensures forall c, s :: c in visits && c.order.transactionId.Some? && s in RepairOf(c, ask(c.id)) ==>
              s in Repairs(visits, ask)
  {
    if visits != [] {
      RepairsAreComplete(visits[..|visits| - 1], ask);
      assert visits == visits[..|visits| - 1] + [visits[|visits| - 1]];
    }
  }

  /** The same as SomeCannotBeRetaken, step by step. */
  ghost predicate RefusedIn(start: Ledger, steps: seq<Step>, id: OrderId) {
    if steps == [] then false
    else
      var init, s := steps[..|steps| - 1], steps[|steps| - 1];
      RefusedIn(start, init, id) || (CannotBeRetaken(Run(start, init), s) && s.id == id)
  }

  lemma {:induction false} RefusedInIsSome(start: Ledger, steps: seq<Step>, id: OrderId)
    ensures RefusedIn(start, steps, id) <==> SomeCannotBeRetaken(start, steps, id)
  {
    if steps != [] {
      var init := steps[..|steps| - 1];
      RefusedInIsSome(start, init, id);
      assert steps == init + [steps[|steps| - 1]];
      RetakingOfLast(start, init, [steps[|steps| - 1]], id);
    }
  }

  lemma RefusedInMore(start: Ledger, steps: seq<Step>, more: seq<Step>, id: OrderId)
    requires |more| <= 1
    ensures RefusedIn(start, steps + more, id)
            <==> RefusedIn(start, steps, id)
                 || (more != [] && CannotBeRetaken(Run(start, steps), more[0]) && more[0].id == id)
  {
    if more == [] { assert steps + more == steps; } else { assert (steps + more)[..|steps|] == steps; }
  }

  /** The orders with a disagreement, visit by visit. */
  function DisagreeIn(visits: seq<Candidate>, ask: OrderId -> Reply): seq<OrderId> {
    if visits == [] then []
    else
      var c := visits[|visits| - 1];
      DisagreeIn(visits[..|visits| - 1], ask)
      + if c.order.transactionId.Some? && Disagrees(c, ask(c.id)) then [c.id] else []
  }

  lemma {:induction false} DisagreeInIsSome(visits: seq<Candidate>, ask: OrderId -> Reply, id: OrderId)
    ensures id in DisagreeIn(visits, ask) <==> SomeDisagrees(visits, ask, id)
  {
    if visits != [] {
      var init, c := visits[..|visits| - 1], visits[|visits| - 1];
      DisagreeInIsSome(init, ask, id);
      assert visits == init + [c];
      DisagreementOfLast(init, c, ask, id);
    }
  }

  lemma {:induction false} ReviewsAreExact(start: Ledger, visits: seq<Candidate>, ask: OrderId -> Reply, id: OrderId)
    ensures id in Reviewed(start, visits, ask)
            <==> id in DisagreeIn(visits, ask) || RefusedIn(start, Repairs(visits, ask), id)
  {
    if visits != [] {
      var init, c := visits[..|visits| - 1], visits[|visits| - 1];
      var more := if c.order.transactionId.Some? then RepairOf(c, ask(c.id)) else [];
      ReviewsAreExact(start, init, ask, id);
      RefusedInMore(start, Repairs(init, ask), more, id);
      ReviewOfLast(Run(start, Repairs(init, ask)), c, ask(c.id), id);
      assert Repairs(visits, ask) == Repairs(init, ask) + more;
    }
  }

  lemma ReviewOfLast(l: Ledger, c: Candidate, r: Reply, id: OrderId)
    ensures c.order.transactionId.Some? ==>
              var more := RepairOf(c, r);
              (NeedsReview(l, c, r) && c.id == id
               <==> (c.id == id && Disagrees(c, r))
                    || (more != [] && CannotBeRetaken(l, more[0]) && more[0].id == id))
  {
  }

  lemma DisagreementOfLast(init: seq<Candidate>, c: Candidate, ask: OrderId -> Reply, id: OrderId)
    ensures SomeDisagrees(init + [c], ask, id)
            <==> SomeDisagrees(init, ask, id) || (c.id == id && c.order.transactionId.Some? && Disagrees(c, ask(c.id)))
  {
    if SomeDisagrees(init, ask, id) {
      var d :| d in init && d.id == id && d.order.transactionId.Some? && Disagrees(d, ask(d.id));
      assert d in init + [c];
    }
    assert c in init + [c];
  }

  lemma RetakingOfLast(start: Ledger, steps: seq<Step>, more: seq<Step>, id: OrderId)
    requires |more| <= 1
    ensures SomeCannotBeRetaken(start, steps + more, id)
            <==> SomeCannotBeRetaken(start, steps, id)
                 || (more != [] && CannotBeRetaken(Run(start, steps), more[0]) && more[0].id == id)
  {
    var all := steps + more;
    assert forall i :: 0 <= i <= |steps| ==> all[..i] == steps[..i];
    assert steps[..|steps|] == steps;
    if i :| 0 <= i < |steps| && CannotBeRetaken(Run(start, steps[..i]), steps[i]) && steps[i].id == id {
      assert all[i] == steps[i] && all[..i] == steps[..i];
    }
    if more != [] { assert all[|steps|] == more[0] && all[..|steps|] == steps; }
  }
}
