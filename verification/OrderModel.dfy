/** The rows the order services work on, the status table, and the event payloads written to the outbox. */
module OrderModel {
  import opened Results
  import Pricing

  type OrderId = nat
  type VariantId = nat
  type CouponId = nat
  type UserId = nat
  type TxId = nat

  datatype OrderStatus =
    | Pending | Confirmed | Processing | Paid | Shipped | Delivered | Cancelled | Refunded | Expired

  datatype PaymentStatus = PaymentPending | PaymentPaid | PaymentFailed | PaymentRefunded

  datatype PaymentMethod = Online | Cod

  datatype Item = Item(variant: VariantId, quantity: nat)

  datatype Order = Order(
    status: OrderStatus, payment: PaymentStatus, paymentMethod: PaymentMethod, items: seq<Item>,
    amounts: Pricing.Amounts, couponId: Option<CouponId>, userId: Option<UserId>, idempotencyKey: Option<nat>,
    reservation: Option<nat>, transactionId: Option<TxId>)

  datatype Variant = Variant(price: nat, stock: int, isAvailable: bool, productActive: bool)

  function AllowedTransitions(s: OrderStatus): set<OrderStatus> {
    match s
    case Pending => {Confirmed, Paid, Cancelled, Expired}
    case Confirmed => {Processing, Paid, Cancelled}
    case Processing => {Shipped, Paid, Cancelled}
    case Paid => {Confirmed, Processing, Shipped, Refunded}
    case Shipped => {Delivered, Refunded}
    case Delivered => {Refunded}
    case Cancelled => {}
    case Refunded => {}
    case Expired => {}
  }

  /** The order's items have gone back to stock. */
  predicate Released(s: OrderStatus) {
    s == Cancelled || s == Expired
  }

  /** Still deducted from stock and not shipped. */
  predicate HoldsStock(s: OrderStatus) {
    s == Pending || s == Confirmed || s == Processing || s == Paid
  }

  // ---------------------------------------------------------------- items

  function QuantityOf(items: seq<Item>, v: VariantId): nat {
    if items == [] then 0
    else
      var it := items[|items| - 1];
      QuantityOf(items[..|items| - 1], v) + if it.variant == v then it.quantity else 0
  }

  ghost predicate DistinctVariants(items: seq<Item>) {
    forall i, j :: 0 <= i < j < |items| ==> items[i].variant != items[j].variant
  }

  ghost predicate ItemsKnown(items: seq<Item>, variants: map<VariantId, Variant>) {
    forall i :: 0 <= i < |items| ==> items[i].variant in variants
  }

  lemma {:induction false} QuantityAbsent(items: seq<Item>, v: VariantId)
    requires forall i :: 0 <= i < |items| ==> items[i].variant != v
    ensures QuantityOf(items, v) == 0
  {
    if items != [] { QuantityAbsent(items[..|items| - 1], v); }
  }

  /** With distinct variants, a variant's quantity is the quantity of its only item. */
  lemma {:induction false} QuantityAt(items: seq<Item>, i: nat)
    requires DistinctVariants(items) && i < |items|
    ensures QuantityOf(items, items[i].variant) == items[i].quantity
  {
    var init := items[..|items| - 1];
    if i == |items| - 1 {
      QuantityAbsent(init, items[i].variant);
    } else {
      QuantityAt(init, i);
    }
  }

  // ---------------------------------------------------------------- events

  datatype ContractStatus =
    | AwaitingPayment | AwaitingConfirmation | ContractConfirmed | ReadyToShip | ContractPaid | ContractShipped
    | ContractDelivered | ContractCancelled | ContractRefunded

  function ToContractStatus(s: OrderStatus, m: PaymentMethod): ContractStatus {
    match s
    case Pending => if m == Cod then AwaitingConfirmation else AwaitingPayment
    case Confirmed => ContractConfirmed
    case Processing => ReadyToShip
    case Paid => ContractPaid
    case Shipped => ContractShipped
    case Delivered => ContractDelivered
    case Refunded => ContractRefunded
    case Cancelled => ContractCancelled
    case Expired => ContractCancelled
  }

  /** The agent's names: COD and ONLINE orders wait for different things, and an expired order is a cancelled one. */
  lemma ContractNames(m: PaymentMethod)
    ensures ToContractStatus(Pending, Cod) == AwaitingConfirmation
            && ToContractStatus(Pending, Online) == AwaitingPayment
    ensures ToContractStatus(Confirmed, m) == ContractConfirmed && ToContractStatus(Processing, m) == ReadyToShip
    ensures ToContractStatus(Paid, m) == ContractPaid && ToContractStatus(Shipped, m) == ContractShipped
    ensures ToContractStatus(Delivered, m) == ContractDelivered && ToContractStatus(Refunded, m) == ContractRefunded
    ensures ToContractStatus(Cancelled, m) == ToContractStatus(Expired, m) == ContractCancelled
  {
  }

  datatype Actor = Customer | Admin | System

  datatype StockReason = Sale | Cancel

  datatype OrderRef = OrderRef(id: OrderId, status: ContractStatus, backendStatus: OrderStatus, totalPiasters: nat)

  function ToOrderRef(id: OrderId, o: Order): OrderRef {
    OrderRef(id, ToContractStatus(o.status, o.paymentMethod), o.status,
             Pricing.ToPiasters(Pricing.UNIT * o.amounts.total))
  }

  datatype Event =
    | OrderCreated(order: OrderRef)
    | StatusChanged(order: OrderRef, contractFrom: ContractStatus, backendFrom: OrderStatus, actor: Actor)
    | OrderCancelled(order: OrderRef, actor: Actor, wasPaid: bool)
    | StockChanged(variant: VariantId, onHand: int, delta: int, reason: StockReason, forOrder: OrderId)
    | PaymentSucceeded(order: OrderRef, transaction: Option<TxId>)
    | PaymentFailureReported(order: OrderRef, transaction: Option<TxId>)
    | PaymentRefundIssued(order: OrderRef, amountPiasters: nat, partial: bool)
}
