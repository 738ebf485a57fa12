/** Stock and coupon uses are conserved by every run, across all the paths that touch the counters. */
module Conservation {
  import opened Results
  import opened OrderModel
  import opened Ledger
  import opened LedgerInvariant
  import opened Totals

  // ---------------------------------------------------------------- stock

  function StockOf(l: Ledger, v: VariantId): int {
    if v in l.variants then l.variants[v].stock else 0
  }

  /** Stock, plus what orders hold or have consumed, plus what deleted orders had consumed. */
  ghost function Accounted(l: Ledger, v: VariantId): int {
    StockOf(l, v) + Total(l.orders, LiveQuantity(v)) + Total(l.gone, SpentQuantity(v))
  }

  /** Only the administration of the catalogue changes the accounted quantity. */
  function Adjustment(l: Ledger, e: Effect, v: VariantId): int {
    if e.PutVariant? && e.variant == v then e.variantRow.stock - StockOf(l, v)
    else if e.DropVariant? && e.variant == v then -StockOf(l, v)
    else 0
  }

  ghost function Adjustments(l: Ledger, steps: seq<Step>, v: VariantId): int {
    if steps == [] then 0
    else
      var before := Run(l, steps[..|steps| - 1]);
      Adjustments(l, steps[..|steps| - 1], v) + Adjustment(before, PlanOf(before, steps[|steps| - 1]).effect, v)
  }

  lemma UnknownVariantNotHeld(l: Ledger, items: seq<Item>, v: VariantId)
    requires ItemsKnown(items, l.variants) && v !in l.variants
    ensures QuantityOf(items, v) == 0
  {
    QuantityAbsent(items, v);
  }

  lemma ShiftedStock(l: Ledger, items: seq<Item>, sign: int, v: VariantId)
    requires ItemsKnown(items, l.variants) && (sign == 1 || sign == -1)
    ensures StockOf(l.(variants := ShiftStock(l.variants, items, sign)), v)
            == StockOf(l, v) + sign * QuantityOf(items, v)
  {
    if v !in l.variants { UnknownVariantNotHeld(l, items, v); }
  }

  /** Writing an order row while shifting stock by `sign` balances when the row's weight moves the other way. */
  lemma RowConservesStock(l: Ledger, l': Ledger, id: OrderId, row: Order, sign: int, v: VariantId)
    requires ItemsKnown(row.items, l.variants) && l'.gone == l.gone && l'.orders == l.orders[id := row]
    requires if sign == 0 then l'.variants == l.variants
             else (sign == 1 || sign == -1) && l'.variants == ShiftStock(l.variants, row.items, sign)
    requires Weight(row, LiveQuantity(v))
             == (if id in l.orders then Weight(l.orders[id], LiveQuantity(v)) else 0) - sign * QuantityOf(row.items, v)
    ensures Accounted(l', v) == Accounted(l, v)
  {
    TotalPut(l.orders, id, row, LiveQuantity(v));
    if sign != 0 { ShiftedStock(l, row.items, sign, v); }
  }

  lemma DropConservesStock(l: Ledger, id: OrderId, v: VariantId)
    requires id in l.orders && id !in l.gone && ItemsKnown(l.orders[id].items, l.variants)
    ensures Accounted(Affect(l, Drop(id)), v) == Accounted(l, v)
  {
    var o := l.orders[id];
    TotalWithout(l.orders, id, LiveQuantity(v));
    TotalPut(l.gone, id, o, SpentQuantity(v));
    if HoldsStock(o.status) { ShiftedStock(l, o.items, 1, v); }
  }

  lemma RowEffectConservesStock(l: Ledger, e: Effect, v: VariantId)
    requires EffectOk(l, e) && (e.Admit? || e.Move? || e.Release? || e.Retake?)
    requires e.id in l.orders ==> ItemsKnown(l.orders[e.id].items, l.variants)
    ensures Accounted(Affect(l, e), v) == Accounted(l, v)
  {
    var row, l' := e.row, Affect(l, e);
    if e.Move? {
      RowConservesStock(l, l', e.id, row, 0, v);
    } else if e.Release? {
      RowConservesStock(l, l', e.id, row, 1, v);
    } else {
      assert forall i :: 0 <= i < |row.items| ==> row.items[i] in row.items;
      RowConservesStock(l, l', e.id, row, -1, v);
    }
  }

  lemma EffectConservesStock(l: Ledger, e: Effect, v: VariantId)
    requires Inv(l) && EffectOk(l, e)
    ensures Accounted(Affect(l, e), v) == Accounted(l, v) + Adjustment(l, e, v)
  {
    if e.Admit? || e.Move? || e.Release? || e.Retake? {
      if e.id in l.orders { assert OrderOk(l, l.orders[e.id]); }
      RowEffectConservesStock(l, e, v);
    } else if e.Drop? {
      assert OrderOk(l, l.orders[e.id]);
      DropConservesStock(l, e.id, v);
    } else if e.DropCoupon? {
      TotalSame(l.orders, ForgetCoupon(l.orders, e.coupon), LiveQuantity(v));
    }
  }

  lemma StepConservesStock(l: Ledger, s: Step, v: VariantId)
    requires Inv(l)
    ensures Accounted(Next(l, s), v) == Accounted(l, v) + Adjustment(l, PlanOf(l, s).effect, v)
  {
    var e := PlanOf(l, s).effect;
    assert EffectOk(l, e) by { PlanIsSound(l, s); }
    EffectConservesStock(l, e, v);
    assert Accounted(Next(l, s), v) == Accounted(Affect(l, e), v);
  }

  /** Every unit is in stock, with an order, or left with a deleted shipped order; admin edits are the only source. */
  lemma {:induction false} StockConserved(l: Ledger, steps: seq<Step>, v: VariantId)
    requires Inv(l)
    ensures Accounted(Run(l, steps), v) == Accounted(l, v) + Adjustments(l, steps, v)
    ensures StockOf(Run(l, steps), v) >= 0
  {
    if steps != [] {
      var init := steps[..|steps| - 1];
      StockConserved(l, init, v);
      RunKeepsInv(l, init);
      StepConservesStock(Run(l, init), steps[|steps| - 1], v);
    }
    assert StockOk(Run(l, steps)) by { RunKeepsInv(l, steps); }
  }

  /** No overselling: the units held by live orders never exceed what was ever put in stock. */
  lemma NeverOversold(l: Ledger, steps: seq<Step>, v: VariantId)
    requires Inv(l) && l.orders == map[] && l.gone == map[]
    ensures Total(Run(l, steps).orders, LiveQuantity(v)) <= StockOf(l, v) + Adjustments(l, steps, v)
  {
    StockConserved(l, steps, v);
  }

  // ---------------------------------------------------------------- coupons

  ghost function Uses(l: Ledger, c: CouponId): nat {
    Total(l.orders, LiveUse(c)) + Total(l.gone, SpentUse(c))
  }

  /** Uses the counter does not know about. */
  ghost function Excess(l: Ledger, c: CouponId): int
    requires c in l.coupons
  {
    Uses(l, c) - l.coupons[c].usageCount
  }

  predicate OverLimitRepair(e: Effect, c: CouponId) {
    e.Retake? && e.overLimit && e.row.couponId == Some(c)
  }

  /** A release that finds the counter at 0 and cannot decrement it. */
  predicate Clamped(l: Ledger, e: Effect, c: CouponId) {
    c in l.coupons && l.coupons[c].usageCount <= 0
    && ((e.Release? && e.row.couponId == Some(c))
        || (e.Drop? && e.id in l.orders && HoldsStock(l.orders[e.id].status) && l.orders[e.id].couponId == Some(c)))
  }

  /** The counter moves with the row's use, except for over-limit repairs and clamped releases. */
  lemma RowMovesCounter(l: Ledger, e: Effect, c: CouponId)
    requires EffectOk(l, e) && c in l.coupons && l.coupons[c].usageCount >= 0
             && (e.Admit? || e.Move? || e.Release? || e.Retake?)
    ensures c in Affect(l, e).coupons
    ensures Affect(l, e).coupons[c].usageCount == l.coupons[c].usageCount
              + Weight(e.row, LiveUse(c)) - (if e.id in l.orders then Weight(l.orders[e.id], LiveUse(c)) else 0)
              - Bit(OverLimitRepair(e, c)) + Bit(Clamped(l, e, c))
  {
  }

  lemma RowOnCoupon(l: Ledger, e: Effect, c: CouponId)
    requires Inv(l) && EffectOk(l, e) && c in l.coupons && (e.Admit? || e.Move? || e.Release? || e.Retake?)
    ensures c in Affect(l, e).coupons
    ensures Excess(Affect(l, e), c) == Excess(l, c) + Bit(OverLimitRepair(e, c)) - Bit(Clamped(l, e, c))
    ensures Clamped(l, e, c) ==> Excess(l, c) >= 1
  {
    assert l.coupons[c].usageCount >= 0 by { assert CouponOk(l.coupons[c]); }
    RowMovesCounter(l, e, c);
    RowMovesUses(l, Affect(l, e), e.id, e.row, c);
    if Clamped(l, e, c) { LiveUseIsCounted(l, e.id, c); }
  }

  lemma RowMovesUses(l: Ledger, l': Ledger, id: OrderId, row: Order, c: CouponId)
    requires l'.orders == l.orders[id := row] && l'.gone == l.gone
    ensures Uses(l', c) == Uses(l, c) + Weight(row, LiveUse(c))
                           - (if id in l.orders then Weight(l.orders[id], LiveUse(c)) else 0)
  {
    TotalPut(l.orders, id, row, LiveUse(c));
  }

  lemma LiveUseIsCounted(l: Ledger, id: OrderId, c: CouponId)
    requires id in l.orders && l.orders[id].couponId == Some(c) && !Released(l.orders[id].status)
    ensures Uses(l, c) >= 1
  {
    TotalAtLeast(l.orders, id, LiveUse(c));
  }

  lemma DropMovesUses(l: Ledger, id: OrderId, c: CouponId)
    requires id in l.orders && id !in l.gone
    ensures var o := l.orders[id]; var l' := l.(orders := l.orders - {id}, gone := l.gone[id := o]);
            Uses(l', c) == Uses(l, c) - Bit(HoldsStock(o.status) && o.couponId == Some(c))
  {
    TotalWithout(l.orders, id, LiveUse(c));
    TotalPut(l.gone, id, l.orders[id], SpentUse(c));
  }

  lemma DropMovesCounter(l: Ledger, id: OrderId, c: CouponId)
    requires id in l.orders && c in l.coupons && l.coupons[c].usageCount >= 0
    ensures c in Affect(l, Drop(id)).coupons
    ensures Affect(l, Drop(id)).coupons[c].usageCount == l.coupons[c].usageCount
              - Bit(HoldsStock(l.orders[id].status) && l.orders[id].couponId == Some(c)) + Bit(Clamped(l, Drop(id), c))
  {
  }

  lemma DropOnCoupon(l: Ledger, id: OrderId, c: CouponId)
    requires Inv(l) && id in l.orders && c in l.coupons
    ensures c in Affect(l, Drop(id)).coupons
    ensures Excess(Affect(l, Drop(id)), c) == Excess(l, c) - Bit(Clamped(l, Drop(id), c))
    ensures Clamped(l, Drop(id), c) ==> Excess(l, c) >= 1
  {
    assert l.coupons[c].usageCount >= 0 by { assert CouponOk(l.coupons[c]); }
    DropMovesUses(l, id, c);
    DropMovesCounter(l, id, c);
    if Clamped(l, Drop(id), c) { LiveUseIsCounted(l, id, c); }
  }

  lemma EffectOnCoupon(l: Ledger, e: Effect, c: CouponId)
    requires Inv(l) && EffectOk(l, e) && c in l.coupons && e != DropCoupon(c)
    ensures c in Affect(l, e).coupons
    ensures Excess(Affect(l, e), c) == Excess(l, c) + Bit(OverLimitRepair(e, c)) - Bit(Clamped(l, e, c))
    ensures Clamped(l, e, c) ==> Excess(l, c) >= 1
  {
    if e.Admit? || e.Move? || e.Release? || e.Retake? {
      RowOnCoupon(l, e, c);
    } else if e.Drop? {
      DropOnCoupon(l, e.id, c);
    } else if e.DropCoupon? {
      TotalSame(l.orders, ForgetCoupon(l.orders, e.coupon), LiveUse(c));
    }
  }

  ghost function OverLimitRepairs(l: Ledger, steps: seq<Step>, c: CouponId): nat {
    if steps == [] then 0
    else
      var before := Run(l, steps[..|steps| - 1]);
      OverLimitRepairs(l, steps[..|steps| - 1], c)
      + Bit(OverLimitRepair(PlanOf(before, steps[|steps| - 1]).effect, c))
  }

  ghost function Clamps(l: Ledger, steps: seq<Step>, c: CouponId): nat {
    if steps == [] then 0
    else
      var before := Run(l, steps[..|steps| - 1]);
      Clamps(l, steps[..|steps| - 1], c) + Bit(Clamped(before, PlanOf(before, steps[|steps| - 1]).effect, c))
  }

  /** The exact account of a coupon: the counter misses one use per over-limit repair, less the clamped releases. */
  lemma {:induction false} CouponLedger(l: Ledger, steps: seq<Step>, c: CouponId)
    requires Inv(l) && c in l.coupons && RemoveCoupon(c) !in steps
    requires Excess(l, c) >= 0
    ensures c in Run(l, steps).coupons
    ensures Excess(Run(l, steps), c) == Excess(l, c) + OverLimitRepairs(l, steps, c) - Clamps(l, steps, c) >= 0
  {
    if steps != [] {
      var init, last := steps[..|steps| - 1], steps[|steps| - 1];
      var before := Run(l, init);
      CouponLedger(l, init, c);
      RunKeepsInv(l, init);
      PlanIsSound(before, last);
      assert last in steps;
      var e := PlanOf(before, last).effect;
      OnlyRemovalDrops(before, last, c);
      EffectOnCoupon(before, e, c);
      assert Run(l, steps).coupons == Affect(before, e).coupons && Run(l, steps).orders == Affect(before, e).orders;
    }
  }

  lemma OnlyRemovalDrops(l: Ledger, s: Step, c: CouponId)
    requires s != RemoveCoupon(c)
    ensures PlanOf(l, s).effect != DropCoupon(c)
  {
  }

  /**
   * A counter that starts exact never goes negative. It stays exact as long as no repair goes over the limit; in
   * general the over-limit repairs bound what it misses, and a release is only clamped after one of them.
   */
  lemma CouponCounterIsExact(l: Ledger, steps: seq<Step>, c: CouponId)
    requires Inv(l) && c in l.coupons && RemoveCoupon(c) !in steps && Excess(l, c) == 0
    ensures c in Run(l, steps).coupons
    ensures var n := Run(l, steps).coupons[c];
            0 <= n.usageCount <= Uses(Run(l, steps), c) <= n.usageCount + OverLimitRepairs(l, steps, c)
    ensures OverLimitRepairs(l, steps, c) == 0 ==>
              Run(l, steps).coupons[c].usageCount == Uses(Run(l, steps), c) && Clamps(l, steps, c) == 0
  {
    CouponLedger(l, steps, c);
    assert CouponsOk(Run(l, steps)) by { RunKeepsInv(l, steps); }
    assert CouponOk(Run(l, steps).coupons[c]);
  }

  // ---------------------------------------------------------------- the usage limit

  predicate WithinLimit(l: Ledger, c: CouponId) {
    c in l.coupons && (l.coupons[c].usageLimit.Some? ==> l.coupons[c].usageCount <= l.coupons[c].usageLimit.value)
  }

  /** An administrator sets the limit below what was already used. */
  predicate LowersBelow(l: Ledger, s: Step, c: CouponId) {
    s.EditCoupon? && s.coupon == c && c in l.coupons
    && s.couponRow.usageLimit.Some? && s.couponRow.usageLimit.value < l.coupons[c].usageCount
  }

  lemma EffectKeepsLimit(l: Ledger, e: Effect, c: CouponId)
    requires EffectOk(l, e) && WithinLimit(l, c) && !((e.PutCoupon? || e.DropCoupon?) && e.coupon == c)
    ensures WithinLimit(Affect(l, e), c)
  {
  }

  lemma OnlyEditsPut(l: Ledger, s: Step, c: CouponId)
    requires c in l.coupons && !(s.EditCoupon? && s.coupon == c)
    ensures var e := PlanOf(l, s).effect; !(e.PutCoupon? && e.coupon == c)
  {
  }

  lemma StepKeepsLimit(l: Ledger, s: Step, c: CouponId)
    requires Inv(l) && WithinLimit(l, c) && s != RemoveCoupon(c)
    ensures WithinLimit(Next(l, s), c) <==> !LowersBelow(l, s, c)
  {
    if !(s.EditCoupon? && s.coupon == c) {
      var e := PlanOf(l, s).effect;
      assert EffectOk(l, e) by { PlanIsSound(l, s); }
      OnlyRemovalDrops(l, s, c);
      OnlyEditsPut(l, s, c);
      EffectKeepsLimit(l, e, c);
      assert Next(l, s).coupons == Affect(l, e).coupons;
    }
  }

  /** After the first `n` steps. */
  ghost predicate WithinAfter(l: Ledger, steps: seq<Step>, n: nat, c: CouponId)
    requires n <= |steps|
  {
    WithinLimit(Run(l, steps[..n]), c)
  }

  /** Step `n` is an edit that lowers the limit below the counter it finds. */
  ghost predicate LowersAt(l: Ledger, steps: seq<Step>, n: nat, c: CouponId)
    requires n < |steps|
  {
    LowersBelow(Run(l, steps[..n]), steps[n], c)
  }

  ghost predicate LimitHolds(l: Ledger, steps: seq<Step>, c: CouponId) {
    forall n: nat {:trigger WithinAfter(l, steps, n, c)} :: n <= |steps| ==> WithinAfter(l, steps, n, c)
  }

  ghost predicate NeverLowered(l: Ledger, steps: seq<Step>, c: CouponId) {
    forall n: nat {:trigger LowersAt(l, steps, n, c)} :: n < |steps| ==> !LowersAt(l, steps, n, c)
  }

  /** The counter is within the limit all along a run exactly when no edit sets the limit below the counter. */
  lemma LimitHoldsIffNeverLowered(l: Ledger, steps: seq<Step>, c: CouponId)
    requires Inv(l) && WithinLimit(l, c) && RemoveCoupon(c) !in steps
    ensures LimitHolds(l, steps, c) <==> NeverLowered(l, steps, c)
  {
    if LimitHolds(l, steps, c) {
      forall n: nat | n < |steps| ensures !LowersAt(l, steps, n, c) {
        assert WithinAfter(l, steps, n, c) && WithinAfter(l, steps, n + 1, c);
        PrefixKeepsLimit(l, steps, n, c);
      }
    }
    if NeverLowered(l, steps, c) {
      forall n: nat | n <= |steps| ensures WithinAfter(l, steps, n, c) { LimitHoldsAfter(l, steps, n, c); }
    }
  }

  lemma PrefixKeepsLimit(l: Ledger, steps: seq<Step>, n: nat, c: CouponId)
    requires Inv(l) && n < |steps| && RemoveCoupon(c) !in steps && WithinAfter(l, steps, n, c)
    ensures WithinAfter(l, steps, n + 1, c) <==> !LowersAt(l, steps, n, c)
  {
    RunKeepsInv(l, steps[..n]);
    assert steps[..n + 1][..n] == steps[..n] && steps[n] in steps;
    StepKeepsLimit(Run(l, steps[..n]), steps[n], c);
  }

  lemma {:induction false} LimitHoldsAfter(l: Ledger, steps: seq<Step>, n: nat, c: CouponId)
    requires Inv(l) && WithinLimit(l, c) && RemoveCoupon(c) !in steps && NeverLowered(l, steps, c) && n <= |steps|
    ensures WithinAfter(l, steps, n, c)
  {
    if n > 0 {
      LimitHoldsAfter(l, steps, n - 1, c);
      PrefixKeepsLimit(l, steps, n - 1, c);
    }
  }
}
