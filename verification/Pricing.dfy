/**
 * Order arithmetic. Prices, fees and thresholds are whole piasters, as in the Decimal(10,2) columns.
 * A percentage discount is not: it is kept exactly, in units of 1/UNIT piaster, until a column or an
 * event rounds it.
 */
module Pricing {
  import opened Results

  const UNIT := 10_000

  datatype CouponType = Percentage | Fixed

  /** `value` has two decimals: hundredths of a percent, or piasters. */
  datatype Coupon = Coupon(
    kind: CouponType, value: nat, expiresAt: Option<nat>, usageLimit: Option<nat>, usageCount: int,
    usagePerCustomer: Option<nat>, minOrderAmount: Option<nat>, isActive: bool)

  /** Missing settings read as COD enabled and zeros; a zero threshold is the same as none. */
  datatype SiteSettings = SiteSettings(
    codEnabled: bool, minimumOrderAmount: nat, freeShippingThreshold: nat, codMaxAmount: nat, codFee: nat)

  /** What is stored on the order row, in piasters. */
  datatype Amounts = Amounts(subtotal: nat, discount: nat, shippingFee: nat, codFee: nat, total: nat)

  /** Rounds units to piasters, halves away from zero: the money columns and toPiasters both do this. */
  function ToPiasters(units: nat): nat {
    (units + UNIT / 2) / UNIT
  }

  /** The exact discount of a coupon on a subtotal, in units. */
  function Discount(c: Coupon, subtotal: nat): nat {
    match c.kind
    case Percentage => subtotal * c.value
    case Fixed => UNIT * (if c.value < subtotal then c.value else subtotal)
  }

  /** The coupon part of a checkout, without the counter update. `userUses` is None for a guest. */
  function ApplyCoupon(coupon: Option<Coupon>, subtotal: nat, now: nat, userUses: Option<nat>): Result<nat> {
    if coupon.None? || !coupon.value.isActive then Err(BadRequest)
    else
      var c := coupon.value;
      if c.expiresAt.Some? && c.expiresAt.value < now then Err(BadRequest)
      else if c.minOrderAmount.Some? && subtotal < c.minOrderAmount.value then Err(BadRequest)
      else if c.usagePerCustomer.Some? && userUses.Some? && userUses.value >= c.usagePerCustomer.value then
        Err(BadRequest)
      else if c.usageLimit.Some? && c.usageCount >= c.usageLimit.value then Err(BadRequest)
      else Ok(Discount(c, subtotal))
  }

  /** The preview shown in the cart. */
  function ValidateCoupon(coupon: Option<Coupon>, subtotal: nat, now: nat): Result<nat> {
    if coupon.None? || !coupon.value.isActive then Err(BadRequest)
    else
      var c := coupon.value;
      if c.expiresAt.Some? && c.expiresAt.value < now then Err(BadRequest)
      else if c.usageLimit.Some? && c.usageCount >= c.usageLimit.value then Err(BadRequest)
      else if c.minOrderAmount.Some? && subtotal < c.minOrderAmount.value then Err(BadRequest)
      else Ok(Discount(c, subtotal))
  }

  function ShippingFee(subtotal: nat, discount: nat, settings: SiteSettings, zonePrice: nat): nat {
    if settings.freeShippingThreshold > 0 && UNIT * subtotal - discount >= UNIT * settings.freeShippingThreshold
    then 0 else zonePrice
  }

  /** The total before the COD fee, in units, never below zero. */
  function TotalBeforeCodFee(subtotal: nat, discount: nat, shippingFee: nat): nat {
    var exact := UNIT * (subtotal + shippingFee) - discount;
    if exact < 0 then 0 else exact
  }

  /** Shipping, COD limit, COD fee and total of a checkout; `discount` is in units. */
  function Quote(subtotal: nat, discount: nat, settings: SiteSettings, zonePrice: nat, isCod: bool): Result<Amounts> {
    var fee := ShippingFee(subtotal, discount, settings, zonePrice);
    var before := TotalBeforeCodFee(subtotal, discount, fee);
    if isCod && settings.codMaxAmount > 0 && before > UNIT * settings.codMaxAmount then Err(BadRequest)
    else
      var codFee := if isCod then settings.codFee else 0;
      Ok(Amounts(subtotal, ToPiasters(discount), fee, codFee, ToPiasters(before + UNIT * codFee)))
  }

  // ---------------------------------------------------------------- properties

  /** An amount that is already whole is unchanged, and any other is moved by at most half a piaster. */
  lemma RoundingIsNearest(units: nat, whole: nat)
    ensures ToPiasters(UNIT * whole) == whole
    ensures -(UNIT / 2) < UNIT * ToPiasters(units) - units <= UNIT / 2
    ensures UNIT * ToPiasters(units) - units == UNIT / 2 <==> units % UNIT == UNIT / 2
  {
  }

  /** A discount stays within the subtotal exactly for fixed coupons and for percentages up to 100. */
  lemma DiscountWithinSubtotal(c: Coupon, subtotal: nat)
    ensures Discount(c, subtotal) <= UNIT * subtotal
            <==> c.kind == Fixed || c.value <= 10_000 || subtotal == 0
  {
    if c.kind == Percentage {
      ProductOrder(subtotal, c.value, 10_000);
    }
  }

  lemma ProductOrder(a: nat, x: nat, y: nat)
    ensures a * x <= a * y <==> x <= y || a == 0
  {
    assert a * (y - x) == a * y - a * x;
  }

  /**
   * The published total against the published parts. As long as nothing is clamped, they differ by 0 or by
   * 1 piaster, and by 1 exactly when the discount falls on a half piaster: the discount and the total are then
   * both rounded up. When the discount exceeds what there is to discount, only the COD fee is left.
   */
  lemma TotalDrift(subtotal: nat, discount: nat, settings: SiteSettings, zonePrice: nat, isCod: bool)
    requires Quote(subtotal, discount, settings, zonePrice, isCod).Ok?
    ensures var a := Quote(subtotal, discount, settings, zonePrice, isCod).value;
            && a.total >= a.codFee
            && (discount <= UNIT * (subtotal + a.shippingFee) ==>
                  a.total - (a.subtotal - a.discount + a.shippingFee + a.codFee)
                  == if discount % UNIT == UNIT / 2 then 1 else 0)
            && (discount > UNIT * (subtotal + a.shippingFee) ==> a.total == a.codFee)
  {
    var a := Quote(subtotal, discount, settings, zonePrice, isCod).value;
    var before := TotalBeforeCodFee(subtotal, discount, a.shippingFee);
    assert before + UNIT * a.codFee >= UNIT * a.codFee;
    if discount <= UNIT * (subtotal + a.shippingFee) {
      var whole := subtotal + a.shippingFee + a.codFee;
      assert before + UNIT * a.codFee == UNIT * whole - discount;
      NegatedRounding(whole, discount);
    }
  }

  lemma NegatedRounding(whole: nat, discount: nat)
    requires discount <= UNIT * whole
    ensures ToPiasters(UNIT * whole - discount) + ToPiasters(discount) - whole
            == if discount % UNIT == UNIT / 2 then 1 else 0
  {
    var q, r := discount / UNIT, discount % UNIT;
    assert discount == UNIT * q + r;
  }

  /** A fixed coupon takes its value off, in whole piasters, and never more than the subtotal. */
  lemma FixedDiscount(c: Coupon, subtotal: nat)
    requires c.kind == Fixed
    ensures Discount(c, subtotal) == 10_000 * if c.value <= subtotal then c.value else subtotal
    ensures ToPiasters(Discount(c, subtotal)) == if c.value <= subtotal then c.value else subtotal
  {
  }

  /** A percentage coupon takes that share of the subtotal off, rounded to the nearest piaster when it is stored. */
  lemma PercentageDiscount(c: Coupon, subtotal: nat)
    requires c.kind == Percentage
    ensures ToPiasters(Discount(c, subtotal)) == (subtotal * c.value + 5_000) / 10_000
    ensures c.value == 10_000 ==> Discount(c, subtotal) == 10_000 * subtotal
  {
  }

  /** What a checkout asks of a coupon. */
  predicate IsUsable(coupon: Option<Coupon>, subtotal: nat, now: nat, userUses: Option<nat>) {
    coupon.Some? && coupon.value.isActive
    && var c := coupon.value;
       && (c.expiresAt.Some? ==> now <= c.expiresAt.value)
       && (c.minOrderAmount.Some? ==> c.minOrderAmount.value <= subtotal)
       && (c.usageLimit.Some? ==> c.usageCount < c.usageLimit.value)
       && (c.usagePerCustomer.Some? && userUses.Some? ==> userUses.value < c.usagePerCustomer.value)
  }

  lemma CouponIsAccepted(coupon: Option<Coupon>, subtotal: nat, now: nat, userUses: Option<nat>)
    ensures ApplyCoupon(coupon, subtotal, now, userUses)
            == if IsUsable(coupon, subtotal, now, userUses)
               then Ok(Discount(coupon.value, subtotal)) else Err(BadRequest)
  {
  }

  /**
   * Shipping costs the price of the zone, or nothing from the threshold on, where there is one. COD orders pay the
   * COD fee, others none. Only a COD order can be too expensive, above the limit, where there is one.
   */
  lemma QuotedFees(subtotal: nat, discount: nat, settings: SiteSettings, zonePrice: nat, isCod: bool)
    ensures var fee := if settings.freeShippingThreshold > 0
                          && 10_000 * subtotal - discount >= 10_000 * settings.freeShippingThreshold
                       then 0 else zonePrice;
            var q := Quote(subtotal, discount, settings, zonePrice, isCod);
            var tooMuch := isCod && settings.codMaxAmount > 0
                           && 10_000 * (subtotal + fee) - discount > 10_000 * settings.codMaxAmount;
            if tooMuch then q == Err(BadRequest)
            else q.Ok? && q.value.subtotal == subtotal && q.value.discount == ToPiasters(discount)
                 && q.value.shippingFee == fee && q.value.codFee == (if isCod then settings.codFee else 0)
  {
  }

  /**
   * The preview and the checkout agree: for the same row, subtotal and time the checkout accepts the coupon
   * exactly when the preview does and the customer has uses left, and then grants the previewed discount.
   */
  lemma PreviewAgreesWithCheckout(coupon: Option<Coupon>, subtotal: nat, now: nat, userUses: Option<nat>)
    ensures var preview, applied := ValidateCoupon(coupon, subtotal, now), ApplyCoupon(coupon, subtotal, now, userUses);
            && (applied.Ok? <==> preview.Ok? && !CustomerExhausted(coupon, userUses))
            && (applied.Ok? ==> applied == preview)
  {
  }

  predicate CustomerExhausted(coupon: Option<Coupon>, userUses: Option<nat>) {
    coupon.Some? && coupon.value.usagePerCustomer.Some? && userUses.Some?
    && userUses.value >= coupon.value.usagePerCustomer.value
  }
}
