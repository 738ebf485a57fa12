/**
 * The life of an order: its events replay its status, and although the status table has a cycle
 * (PAID, CONFIRMED, PAID) an order changes status at most 8 times.
 */
module OrderLife {
  import opened OrderModel
  import opened Ledger
  import opened LedgerInvariant

  /** The status a reader of the outbox arrives at. */
  function Replayed(links: seq<Link>, id: OrderId): OrderStatus {
    if links == [] then Pending
    else if links[|links| - 1].order == id then links[|links| - 1].after
    else Replayed(links[..|links| - 1], id)
  }

  function CountOf(links: seq<Link>, id: OrderId): nat {
    if links == [] then 0
    else CountOf(links[..|links| - 1], id) + if links[|links| - 1].order == id then 1 else 0
  }

  function CountEntering(links: seq<Link>, id: OrderId, s: OrderStatus): nat {
    if links == [] then 0
    else CountEntering(links[..|links| - 1], id, s)
         + if links[|links| - 1].order == id && links[|links| - 1].after == s then 1 else 0
  }

  /** Each link starts where the replay of the earlier ones stands, and is one the services can make. */
  ghost predicate Chained(links: seq<Link>) {
    forall i :: 0 <= i < |links| ==>
      links[i].before == Replayed(links[..i], links[i].order) && Linked(links[i].before, links[i].after)
  }

  ghost predicate Known(l: Ledger, id: OrderId) {
    id in l.orders || id in l.gone
  }

  function Row(l: Ledger, id: OrderId): Order
    requires id in l.orders || id in l.gone
  {
    if id in l.orders then l.orders[id] else l.gone[id]
  }

  /** The events use the agent's status names for the same links. */
  ghost predicate ContractNames(l: Ledger, k: Link) {
    Known(l, k.order)
    && k.contractBefore == ToContractStatus(k.before, Row(l, k.order).paymentMethod)
    && k.contractAfter == ToContractStatus(k.after, Row(l, k.order).paymentMethod)
  }

  /** How many status changes an order can still make. */
  function Remaining(o: Order): nat {
    match o.status
    case Pending => 8
    case Confirmed => if o.payment == PaymentPending then 7 else 4
    case Processing => if o.payment == PaymentPending then 6 else 3
    case Paid => 5
    case Shipped => 2
    case Delivered => 1
    case Refunded => 0
    case Cancelled => if o.paymentMethod == Online && o.payment == PaymentPending then 6 else 0
    case Expired => if o.paymentMethod == Online && o.payment == PaymentPending then 6 else 0
  }

  ghost predicate RowTrail(links: seq<Link>, id: OrderId, o: Order) {
    Replayed(links, id) == o.status
    && CountOf(links, id) + Remaining(o) <= 8
    && CountEntering(links, id, Paid) <= (if o.payment == PaymentPending then 0 else 1)
    && CountEntering(links, id, Pending) == 0
  }

  /** The orders of `l` are where `links` lead. */
  ghost predicate TrailOn(l: Ledger, links: seq<Link>) {
    Chained(links)
    && (forall i :: 0 <= i < |links| ==> ContractNames(l, links[i]))
    && (forall id :: Known(l, id) ==> RowTrail(links, id, Row(l, id)))
  }

  ghost predicate TrailOk(l: Ledger) {
    TrailOn(l, Links(l.events))
  }

  lemma {:induction false} NoLinks(links: seq<Link>, id: OrderId)
    requires forall i :: 0 <= i < |links| ==> links[i].order != id
    ensures Replayed(links, id) == Pending && CountOf(links, id) == 0
    ensures forall s :: CountEntering(links, id, s) == 0
  {
    if links != [] { NoLinks(links[..|links| - 1], id); }
  }

  lemma ChainedAppend(links: seq<Link>, k: Link)
    requires Chained(links) && k.before == Replayed(links, k.order) && Linked(k.before, k.after)
    ensures Chained(links + [k])
  {
    var all := links + [k];
    forall i | 0 <= i < |all|
      ensures all[i].before == Replayed(all[..i], all[i].order) && Linked(all[i].before, all[i].after)
    {
      assert all[..i] == links[..i];
      if i == |links| { assert links[..i] == links; }
    }
  }

  lemma AppendOne(links: seq<Link>, k: Link, id: OrderId, s: OrderStatus)
    ensures Replayed(links + [k], id) == if k.order == id then k.after else Replayed(links, id)
    ensures CountOf(links + [k], id) == CountOf(links, id) + if k.order == id then 1 else 0
    ensures CountEntering(links + [k], id, s)
            == CountEntering(links, id, s) + if k.order == id && k.after == s then 1 else 0
  {
    assert (links + [k])[..|links|] == links;
  }

  /** The effect rewrites the row of the order. */
  predicate Rewrites(e: Effect, id: OrderId) {
    (e.Move? || e.Release? || e.Retake?) && e.id == id
  }

  /** A status change uses up at least one of the remaining ones; nothing gives one back. */
  lemma RemainingFalls(l: Ledger, e: Effect)
    requires EffectOk(l, e) && (e.Move? || e.Release? || e.Retake?) && PaymentsOkAt(l, e.id)
    ensures var o := l.orders[e.id];
            Remaining(e.row) + (if o.status != e.row.status then 1 else 0) <= Remaining(o)
  {
  }

  lemma RowAfter(l: Ledger, e: Effect, id: OrderId)
    requires l.orders.Keys !! l.gone.Keys && EffectOk(l, e) && Known(Affect(l, e), id)
    ensures Known(l, id) || (e.Admit? && e.id == id)
    ensures (e.Admit? || e.Move? || e.Release? || e.Retake?) && e.id == id ==> Row(Affect(l, e), id) == e.row
    ensures Known(l, id) && !Rewrites(e, id) ==>
              var o, o' := Row(l, id), Row(Affect(l, e), id);
              o'.status == o.status && o'.payment == o.payment && o'.paymentMethod == o.paymentMethod
  {
  }

  lemma NamesKept(l: Ledger, e: Effect, k: Link)
    requires l.orders.Keys !! l.gone.Keys && EffectOk(l, e) && ContractNames(l, k)
    ensures ContractNames(Affect(l, e), k)
  {
    assert Known(Affect(l, e), k.order);
    RowAfter(l, e, k.order);
    if Rewrites(e, k.order) { assert SameFacts(l.orders[e.id], e.row); }
  }

  /** One more link for the order uses up one of its remaining changes; a link of another order is not its own. */
  lemma TrailGrows(links: seq<Link>, k: Link, id: OrderId, o: Order, o': Order)
    requires RowTrail(links, id, o) && k.order == id && k.after == o'.status && o'.status != Pending
    requires Remaining(o') + 1 <= Remaining(o) && (o.payment != PaymentPending ==> o'.payment != PaymentPending)
    requires o'.status == Paid ==> o.payment == PaymentPending && o'.payment != PaymentPending
    ensures RowTrail(links + [k], id, o')
  {
    AppendOne(links, k, id, Paid);
    AppendOne(links, k, id, Pending);
  }

  lemma TrailOfOthers(links: seq<Link>, k: Link, id: OrderId, o: Order)
    requires RowTrail(links, id, o) && k.order != id
    ensures RowTrail(links + [k], id, o)
  {
    AppendOne(links, k, id, Paid);
    AppendOne(links, k, id, Pending);
  }

  lemma NewTrail(l: Ledger, links: seq<Link>, id: OrderId, o: Order)
    requires (forall i :: 0 <= i < |links| ==> ContractNames(l, links[i])) && !Known(l, id) && o.status == Pending
    ensures RowTrail(links, id, o)
  {
    forall i | 0 <= i < |links| ensures links[i].order != id { assert ContractNames(l, links[i]); }
    NoLinks(links, id);
  }

  lemma RewrittenRowTrail(l: Ledger, e: Effect, id: OrderId, links: seq<Link>)
    requires EffectOk(l, e) && Rewrites(e, id) && PaymentsOkAt(l, id) && RowTrail(links, id, l.orders[id])
    ensures RowTrail(links + LinkMade(l, e), id, e.row)
  {
    var o := l.orders[id];
    RemainingFalls(l, e);
    assert RowStep(l, id, e.row);
    if o.status == e.row.status {
      assert links + LinkMade(l, e) == links;
    } else {
      TrailGrows(links, LinkMade(l, e)[0], id, o, e.row);
    }
  }

  lemma OtherRowTrail(l: Ledger, e: Effect, id: OrderId, links: seq<Link>, o: Order)
    requires !Rewrites(e, id) && RowTrail(links, id, o)
    ensures RowTrail(links + LinkMade(l, e), id, o)
  {
    var made := LinkMade(l, e);
    if made == [] {
      assert links + made == links;
    } else {
      TrailOfOthers(links, made[0], id, o);
    }
  }

  /** A row that was neither rewritten nor inserted keeps what its trail speaks of. */
  lemma UntouchedRowTrail(l: Ledger, e: Effect, id: OrderId, links: seq<Link>)
    requires l.orders.Keys !! l.gone.Keys && EffectOk(l, e) && Known(l, id) && !Rewrites(e, id)
    requires Known(Affect(l, e), id) && RowTrail(links, id, Row(l, id))
    ensures RowTrail(links, id, Row(Affect(l, e), id))
  {
    RowAfter(l, e, id);
  }

  lemma RowTrailKept(l: Ledger, e: Effect, id: OrderId, links: seq<Link>)
    requires Inv(l) && EffectOk(l, e) && TrailOn(l, links) && Known(Affect(l, e), id)
    ensures RowTrail(links + LinkMade(l, e), id, Row(Affect(l, e), id))
  {
    if !Known(l, id) {
      RowAfter(l, e, id);
      NewTrail(l, links, id, e.row);
      OtherRowTrail(l, e, id, links, e.row);
    } else if Rewrites(e, id) {
      RowAfter(l, e, id);
      InvAt(l, id);
      RewrittenRowTrail(l, e, id, links);
    } else {
      UntouchedRowTrail(l, e, id, links);
      OtherRowTrail(l, e, id, links, Row(Affect(l, e), id));
    }
  }

  lemma ChainKept(l: Ledger, e: Effect, links: seq<Link>)
    requires EffectOk(l, e) && TrailOn(l, links)
    ensures Chained(links + LinkMade(l, e))
    ensures forall i :: 0 <= i < |LinkMade(l, e)| ==> ContractNames(Affect(l, e), LinkMade(l, e)[i])
  {
    var made := LinkMade(l, e);
    if made == [] {
      assert links + made == links;
    } else {
      assert Known(l, e.id) && RowTrail(links, e.id, Row(l, e.id));
      ChainedAppend(links, made[0]);
    }
  }

  lemma EffectKeepsTrail(l: Ledger, e: Effect, links: seq<Link>)
    requires Inv(l) && EffectOk(l, e) && TrailOn(l, links)
    ensures TrailOn(Affect(l, e), links + LinkMade(l, e))
  {
    var a, all := Affect(l, e), links + LinkMade(l, e);
    ChainKept(l, e, links);
    forall i | 0 <= i < |all| ensures ContractNames(a, all[i]) {
      if i < |links| { NamesKept(l, e, links[i]); }
    }
    forall id | Known(a, id) ensures RowTrail(all, id, Row(a, id)) {
      RowTrailKept(l, e, id, links);
    }
  }

  /** Markers and events do not matter to where the orders are. */
  lemma TrailOfSameOrders(a: Ledger, n: Ledger, links: seq<Link>)
    requires TrailOn(a, links) && n.orders == a.orders && n.gone == a.gone
    ensures TrailOn(n, links)
  {
    forall i | 0 <= i < |links| ensures ContractNames(n, links[i]) { assert ContractNames(a, links[i]); }
    forall id | Known(n, id) ensures RowTrail(links, id, Row(n, id)) { assert Known(a, id); }
  }

  lemma StepKeepsTrail(l: Ledger, s: Step)
    requires Inv(l) && TrailOk(l)
    ensures TrailOk(Next(l, s))
  {
    var p, links := PlanOf(l, s), Links(l.events);
    assert PlanOk(l, p) by { PlanIsSound(l, s); }
    EffectKeepsTrail(l, p.effect, links);
    LinksConcat(l.events, p.events);
    TrailOfSameOrders(Affect(l, p.effect), Next(l, s), links + LinkMade(l, p.effect));
  }

  /**
   * In every run from a store whose outbox is consistent (such as an empty one), the status events of each order
   * form a chain from PENDING to its current status; every link is in the table or is a repair; the order never
   * re-enters PENDING, enters PAID at most once, and changes status at most 8 times.
   */
  lemma {:induction false} StatusReplay(l: Ledger, steps: seq<Step>)
    requires Inv(l) && TrailOk(l)
    ensures TrailOk(Run(l, steps))
  {
    if steps != [] {
      StatusReplay(l, steps[..|steps| - 1]);
      RunKeepsInv(l, steps[..|steps| - 1]);
      StepKeepsTrail(Run(l, steps[..|steps| - 1]), steps[|steps| - 1]);
    }
  }

  lemma StatusChangesBounded(l: Ledger, steps: seq<Step>, id: OrderId)
    requires Inv(l) && l.orders == map[] && l.gone == map[] && l.events == []
    requires Known(Run(l, steps), id)
    ensures var links := Links(Run(l, steps).events);
            CountOf(links, id) <= 8 && CountEntering(links, id, Paid) <= 1 && CountEntering(links, id, Pending) == 0
            && Replayed(links, id) == Row(Run(l, steps), id).status
  {
    assert Links(l.events) == [];
    StatusReplay(l, steps);
    assert RowTrail(Links(Run(l, steps).events), id, Row(Run(l, steps), id));
  }

  // ---------------------------------------------------------------- the bound is reached

  /** An admin transition that touches neither stock nor payment. */
  lemma PlainTransition(l: Ledger, id: OrderId, next: OrderStatus)
    requires Inv(l) && id in l.orders && next in AllowedTransitions(l.orders[id].status)
    requires !Released(next) && (next == Paid ==> l.orders[id].payment == PaymentPending)
    ensures var l' := Next(l, Transition(id, next, Admin));
            && Inv(l') && id in l'.orders && l'.orders[id].status == next
            && l'.orders[id].payment == (if next == Paid then PaymentPaid else l.orders[id].payment)
            && CountOf(Links(l'.events), id) == CountOf(Links(l.events), id) + 1
  {
    var s := Transition(id, next, Admin);
    var p, l' := PlanOf(l, s), Next(l, s);
    assert Inv(l') by { StepKeepsInv(l, s); }
    PlainTransitionPlan(l, id, next);
    assert CountOf(Links(l'.events), id) == CountOf(Links(l.events), id) + 1 by {
      assert Links(p.events) == LinkMade(l, p.effect) by { PlanIsSound(l, s); }
      LinksConcat(l.events, p.events);
      AppendOne(Links(l.events), LinkMade(l, p.effect)[0], id, next);
    }
  }

  lemma PlainTransitionPlan(l: Ledger, id: OrderId, next: OrderStatus)
    requires id in l.orders && next in AllowedTransitions(l.orders[id].status)
    requires !Released(next) && (next == Paid ==> l.orders[id].payment == PaymentPending)
    ensures PlanOf(l, Transition(id, next, Admin)).effect
            == Move(id, if next == Paid then PaidRow(l.orders[id]) else l.orders[id].(status := next))
    ensures l.orders[id].status != next
  {
  }

  function LongestLife(n: nat): OrderStatus {
    match n
    case 0 => Pending
    case 1 => Confirmed
    case 2 => Processing
    case 3 => Paid
    case 4 => Confirmed
    case 5 => Processing
    case 6 => Shipped
    case 7 => Delivered
    case _ => Refunded
  }

  ghost predicate LifeAt(l: Ledger, l': Ledger, id: OrderId, n: nat) {
    && Inv(l') && id in l'.orders
    && l'.orders[id].status == LongestLife(n)
    && l'.orders[id].payment == (if n <= 2 then PaymentPending else PaymentPaid)
    && CountOf(Links(l'.events), id) == CountOf(Links(l.events), id) + n
  }

  lemma LifeGoesOn(l: Ledger, l': Ledger, id: OrderId, n: nat)
    requires 0 < n <= 8 && LifeAt(l, l', id, n - 1)
    ensures LifeAt(l, Next(l', Transition(id, LongestLife(n), Admin)), id, n)
  {
    LifeIsAllowed(n);
    PlainTransition(l', id, LongestLife(n));
  }

  ghost predicate LifeReached(l: Ledger, id: OrderId, n: nat) {
    exists steps :: LifeAt(l, Run(l, steps), id, n)
  }

  lemma LifeStarts(l: Ledger, id: OrderId)
    requires Inv(l) && id in l.orders && l.orders[id].status == Pending
    ensures LifeReached(l, id, 0)
  {
    assert OrderOk(l, l.orders[id]);
    assert Run(l, []) == l;
    assert LifeAt(l, Run(l, []), id, 0);
  }

  lemma LifeStep(l: Ledger, id: OrderId, n: nat)
    requires 0 < n <= 8 && LifeReached(l, id, n - 1)
    ensures LifeReached(l, id, n)
  {
    var steps :| LifeAt(l, Run(l, steps), id, n - 1);
    var s := Transition(id, LongestLife(n), Admin);
    LifeGoesOn(l, Run(l, steps), id, n);
    RunOneMore(l, steps, s);
  }

  lemma FourSteps(l: Ledger, id: OrderId, n: nat)
    requires n <= 4 && LifeReached(l, id, n)
    ensures LifeReached(l, id, n + 4)
  {
    LifeStep(l, id, n + 1);
    LifeStep(l, id, n + 2);
    LifeStep(l, id, n + 3);
    LifeStep(l, id, n + 4);
  }

  lemma WholeLife(l: Ledger, id: OrderId)
    requires Inv(l) && id in l.orders && l.orders[id].status == Pending
    ensures LifeReached(l, id, 8)
  {
    LifeStarts(l, id);
    FourSteps(l, id, 0);
    FourSteps(l, id, 4);
  }

  lemma RunOneMore(l: Ledger, steps: seq<Step>, s: Step)
    ensures Run(l, steps + [s]) == Next(Run(l, steps), s)
  {
    assert (steps + [s])[..|steps|] == steps;
  }

  lemma LifeIsAllowed(n: nat)
    requires 0 < n <= 8
    ensures LongestLife(n) in AllowedTransitions(LongestLife(n - 1)) && !Released(LongestLife(n))
    ensures LongestLife(n) == Paid <==> n == 3
  {
  }

  /** Eight is exact: any pending order can be walked through eight status changes. */
  lemma EightChangesArePossible(l: Ledger, id: OrderId)
    requires Inv(l) && id in l.orders && l.orders[id].status == Pending
    ensures exists steps :: id in Run(l, steps).orders
                            && CountOf(Links(Run(l, steps).events), id) == CountOf(Links(l.events), id) + 8
  {
    WholeLife(l, id);
    var steps :| LifeAt(l, Run(l, steps), id, 8);
    assert id in Run(l, steps).orders;
  }
}
