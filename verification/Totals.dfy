/** Sums over the order table, the accounts the conservation laws are stated in. */
module Totals {
  import opened Results
  import opened OrderModel

  /** What an order counts for: live orders hold items and coupon uses; a deleted order counts once it was shipped. */
  datatype Account =
    | LiveQuantity(variant: VariantId)
    | SpentQuantity(variant: VariantId)
    | LiveUse(coupon: CouponId)
    | SpentUse(coupon: CouponId)

  predicate Spent(s: OrderStatus) {
    s == Shipped || s == Delivered || s == Refunded
  }

  function Weight(o: Order, a: Account): nat {
    match a
    case LiveQuantity(v) => if Released(o.status) then 0 else QuantityOf(o.items, v)
    case SpentQuantity(v) => if Spent(o.status) then QuantityOf(o.items, v) else 0
    case LiveUse(c) => if !Released(o.status) && o.couponId == Some(c) then 1 else 0
    case SpentUse(c) => if Spent(o.status) && o.couponId == Some(c) then 1 else 0
  }

  ghost function AnyKey(m: map<OrderId, Order>): OrderId
    requires m != map[]
    ensures AnyKey(m) in m
  {
    var k :| k in m; k
  }

  ghost function Total(m: map<OrderId, Order>, a: Account): nat
    decreases |m|
  {
    if m == map[] then 0 else var k := AnyKey(m); Weight(m[k], a) + Total(m - {k}, a)
  }

  lemma {:induction false} TotalWithout(m: map<OrderId, Order>, k: OrderId, a: Account)
    requires k in m
    ensures Total(m, a) == Weight(m[k], a) + Total(m - {k}, a)
    decreases |m|
  {
    var j := AnyKey(m);
    if j != k {
      TotalWithout(m - {j}, k, a);
      TotalWithout(m - {k}, j, a);
      assert m - {j} - {k} == m - {k} - {j};
    }
  }

  lemma TotalPut(m: map<OrderId, Order>, k: OrderId, row: Order, a: Account)
    ensures Total(m[k := row], a) == Total(m, a) + Weight(row, a) - if k in m then Weight(m[k], a) else 0
  {
    TotalWithout(m[k := row], k, a);
    assert m[k := row] - {k} == m - {k};
    if k in m { TotalWithout(m, k, a); } else { assert m - {k} == m; }
  }

  lemma {:induction false} TotalSame(m: map<OrderId, Order>, n: map<OrderId, Order>, a: Account)
    requires m.Keys == n.Keys && forall k :: k in m ==> Weight(m[k], a) == Weight(n[k], a)
    ensures Total(m, a) == Total(n, a)
    decreases |m|
  {
    if m != map[] {
      var k := AnyKey(m);
      TotalWithout(n, k, a);
      TotalSame(m - {k}, n - {k}, a);
    } else {
      assert n == map[];
    }
  }

  lemma TotalAtLeast(m: map<OrderId, Order>, k: OrderId, a: Account)
    requires k in m
    ensures Total(m, a) >= Weight(m[k], a)
  {
    TotalWithout(m, k, a);
  }
}
