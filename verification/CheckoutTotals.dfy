/** The amounts of an order that a checkout commits, and what its events say about them. */
module CheckoutTotals {
  import opened Results
  import opened Pricing
  import opened OrderModel
  import opened Ledger

  // ---------------------------------------------------------------- the charged lines

  /** What each line costs: price times quantity. */
  function Lines(variants: map<VariantId, Variant>, items: seq<Item>): seq<nat>
    requires ItemsKnown(items, variants)
  {
    seq(|items|, i requires 0 <= i < |items| => variants[items[i].variant].price * items[i].quantity)
  }

  function Sum(amounts: seq<nat>): nat {
    if amounts == [] then 0 else amounts[0] + Sum(amounts[1..])
  }

  lemma {:induction false} SumSnoc(amounts: seq<nat>, last: nat)
    ensures Sum(amounts + [last]) == Sum(amounts) + last
  {
    if amounts != [] {
      assert (amounts + [last])[1..] == amounts[1..] + [last];
      SumSnoc(amounts[1..], last);
    } else {
      assert [last][1..] == [];
    }
  }

  /** The subtotal is the sum of the lines. */
  lemma {:induction false} SubtotalIsSumOfLines(variants: map<VariantId, Variant>, items: seq<Item>)
    requires ItemsKnown(items, variants)
    ensures Subtotal(variants, items) == Sum(Lines(variants, items))
  {
    if items != [] {
      var init, it := items[..|items| - 1], items[|items| - 1];
      SubtotalIsSumOfLines(variants, init);
      SumSnoc(Lines(variants, init), variants[it.variant].price * it.quantity);
      assert Lines(variants, items) == Lines(variants, init) + [variants[it.variant].price * it.quantity];
    }
  }

  // ---------------------------------------------------------------- the committed amounts

  /** The exact discount a committed checkout granted, in units. */
  function Granted(l: Ledger, r: CheckoutRequest): nat {
    if r.couponCode.Some? && r.couponCode.value in l.coupons
    then Discount(l.coupons[r.couponCode.value], Subtotal(l.variants, r.items)) else 0
  }

  /** What is stored as the discount: nothing, the fixed value up to the subtotal, or the rounded share. */
  function StoredDiscount(l: Ledger, c: Option<CouponId>, subtotal: nat): nat {
    if c.None? || c.value !in l.coupons then 0
    else
      var row := l.coupons[c.value];
      match row.kind
      case Fixed => if row.value <= subtotal then row.value else subtotal
      case Percentage => (subtotal * row.value + 5_000) / 10_000
  }

  lemma DiscountIsStored(l: Ledger, r: CheckoutRequest)
    ensures ToPiasters(Granted(l, r)) == StoredDiscount(l, r.couponCode, Subtotal(l.variants, r.items))
  {
    if r.couponCode.Some? && r.couponCode.value in l.coupons {
      var row := l.coupons[r.couponCode.value];
      match row.kind
      case Fixed => FixedDiscount(row, Subtotal(l.variants, r.items));
      case Percentage => PercentageDiscount(row, Subtotal(l.variants, r.items));
    }
  }

  /** The number of uses that count against the customer of a checkout; a guest has none to count. */
  function UsesSoFar(l: Ledger, r: CheckoutRequest): Option<nat> {
    if r.userId.Some? && r.couponCode.Some? then Some(|UsesOf(l.orders, r.userId.value, r.couponCode.value)|) else None
  }

  function CouponRow(l: Ledger, r: CheckoutRequest): Option<Coupon> {
    if r.couponCode.Some? && r.couponCode.value in l.coupons then Some(l.coupons[r.couponCode.value]) else None
  }

  /** Too expensive for cash on delivery; shipping is free from the threshold on. */
  predicate OverCodLimit(subtotal: nat, granted: nat, r: CheckoutRequest, x: CheckoutContext, fee: nat) {
    r.paymentMethod == Cod && x.settings.codMaxAmount > 0
    && 10_000 * (subtotal + fee) - granted > 10_000 * x.settings.codMaxAmount
  }

  function Shipping(subtotal: nat, granted: nat, settings: SiteSettings, zonePrice: nat): nat {
    if settings.freeShippingThreshold > 0 && 10_000 * subtotal - granted >= 10_000 * settings.freeShippingThreshold
    then 0 else zonePrice
  }

  /** When the amounts of a checkout can be charged. Every refusal is a bad request. */
  lemma ChargedIff(l: Ledger, r: CheckoutRequest, x: CheckoutContext)
    ensures var subtotal, granted := Subtotal(l.variants, r.items), Granted(l, r);
            Charge(l, r, x).Ok?
            <==> subtotal >= x.settings.minimumOrderAmount
                 && (r.couponCode.Some? ==> IsUsable(CouponRow(l, r), subtotal, x.now, UsesSoFar(l, r)))
                 && r.hasCity && x.zonePrice.Some?
                 && !OverCodLimit(subtotal, granted, r, x, Shipping(subtotal, granted, x.settings, x.zonePrice.value))
    ensures Charge(l, r, x).Err? ==> Charge(l, r, x).error == BadRequest
  {
    var subtotal, granted := Subtotal(l.variants, r.items), Granted(l, r);
    CouponIsAccepted(CouponRow(l, r), subtotal, x.now, UsesSoFar(l, r));
    if x.zonePrice.Some? { QuotedFees(subtotal, granted, x.settings, x.zonePrice.value, r.paymentMethod == Cod); }
  }

  /**
   * For every committed checkout: the subtotal is the sum of price times quantity; the coupon was one the cart
   * preview would have accepted, with the same discount; shipping and the COD fee are those of the zone, the
   * threshold and the method; the total covers the COD fee; and when the coupon is fixed or at most 100 percent, the
   * stored discount is within the subtotal and the stored parts miss the total by one piaster exactly when the
   * discount is a half piaster.
   */
  lemma CommittedAmounts(l: Ledger, id: OrderId, r: CheckoutRequest, x: CheckoutContext)
    requires PlanOf(l, Create(id, r, x)).outcome == Done
    ensures id in Next(l, Create(id, r, x)).orders && ItemsKnown(r.items, l.variants) && x.zonePrice.Some?
    ensures var a, granted := Next(l, Create(id, r, x)).orders[id].amounts, Granted(l, r);
            && a.subtotal == Sum(Lines(l.variants, r.items)) && a.total >= a.codFee
            && a.discount == ToPiasters(granted) == StoredDiscount(l, r.couponCode, a.subtotal)
            && a.shippingFee == Shipping(a.subtotal, granted, x.settings, x.zonePrice.value)
            && a.codFee == (if r.paymentMethod == Cod then x.settings.codFee else 0)
            && (r.couponCode.Some? ==>
                  r.couponCode.value in l.coupons
                  && ValidateCoupon(Some(l.coupons[r.couponCode.value]), a.subtotal, x.now) == Ok(granted))
            && (granted <= UNIT * a.subtotal ==>
                  a.discount <= a.subtotal
                  && a.total - (a.subtotal - a.discount + a.shippingFee + a.codFee)
                     == if granted % UNIT == UNIT / 2 then 1 else 0)
  {
    var subtotal, granted := Subtotal(l.variants, r.items), Granted(l, r);
    CommittedItems(l, id, r, x);
    CommittedRow(l, id, r, x);
    ChargedAmounts(l, r, x);
    AmountsOfQuote(subtotal, granted, x.settings, x.zonePrice.value, r.paymentMethod == Cod);
    QuotedFees(subtotal, granted, x.settings, x.zonePrice.value, r.paymentMethod == Cod);
    SubtotalIsSumOfLines(l.variants, r.items);
    DiscountIsStored(l, r);
  }

  lemma CommittedItems(l: Ledger, id: OrderId, r: CheckoutRequest, x: CheckoutContext)
    requires PlanOf(l, Create(id, r, x)).outcome == Done
    ensures ItemsKnown(r.items, l.variants)
  {
    assert CanTake(l.variants, r.items);
    assert forall i :: 0 <= i < |r.items| ==> r.items[i] in r.items;
  }

  lemma CommittedRow(l: Ledger, id: OrderId, r: CheckoutRequest, x: CheckoutContext)
    requires PlanOf(l, Create(id, r, x)).outcome == Done
    ensures Charge(l, r, x).Ok?
    ensures id in Next(l, Create(id, r, x)).orders
            && Next(l, Create(id, r, x)).orders[id].amounts == Charge(l, r, x).value
  {
  }

  lemma AmountsOfQuote(subtotal: nat, granted: nat, settings: SiteSettings, zonePrice: nat, isCod: bool)
    requires Quote(subtotal, granted, settings, zonePrice, isCod).Ok?
    ensures var a := Quote(subtotal, granted, settings, zonePrice, isCod).value;
            a.subtotal == subtotal && a.discount == ToPiasters(granted) && a.total >= a.codFee
            && (granted <= UNIT * a.subtotal ==>
                  a.discount <= a.subtotal
                  && a.total - (a.subtotal - a.discount + a.shippingFee + a.codFee)
                     == if granted % UNIT == UNIT / 2 then 1 else 0)
  {
    TotalDrift(subtotal, granted, settings, zonePrice, isCod);
    if granted <= UNIT * subtotal { RoundingKeepsOrder(granted, subtotal); }
  }

  lemma ChargedAmounts(l: Ledger, r: CheckoutRequest, x: CheckoutContext)
    requires Charge(l, r, x).Ok?
    ensures x.zonePrice.Some?
    ensures Charge(l, r, x)
            == Quote(Subtotal(l.variants, r.items), Granted(l, r), x.settings, x.zonePrice.value,
                     r.paymentMethod == Cod)
    ensures r.couponCode.Some? ==>
              r.couponCode.value in l.coupons
              && ValidateCoupon(Some(l.coupons[r.couponCode.value]), Subtotal(l.variants, r.items), x.now)
                 == Ok(Granted(l, r))
  {
  }

  lemma RoundingKeepsOrder(units: nat, whole: nat)
    requires units <= UNIT * whole
    ensures ToPiasters(units) <= whole
  {
  }

  /** The amounts in an order's events are the stored ones: rounding again changes nothing. */
  lemma EventsCarryStoredTotal(id: OrderId, o: Order)
    ensures ToOrderRef(id, o).totalPiasters == o.amounts.total
  {
    RoundingIsNearest(0, o.amounts.total);
  }
}
