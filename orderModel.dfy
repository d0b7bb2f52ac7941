/**
 * The order document: its items (each with its own seller), the price
 * fields, the payment fields, the order status and the independent
 * delivery status with their timestamps, and the enumerations the schema
 * checks on save. Money is exact: line prices and shipping are whole units,
 * taxes and the order total may be fractional.
 */
module OrderModel {
  import opened Base

  const OrderStatuses: set<string> := {"pending", "Approved", "shipping", "completed", "delivered", "cancelled", "returned", "damaged"}
  const DeliveryStatuses: set<string> := {"unassigned", "assigned", "picked_up", "in_transit", "delivered"}
  const PaymentMethods: set<string> := {"cash on delivery", "online payment", "Paymob"}

  datatype OrderItem = OrderItem(
    product: Id,
    quantity: int,
    color: Option<string>,
    size: Option<string>,
    price: int,
    variationId: Option<Id>,
    seller: Option<Id>)

  /** A stored order. `status` is `None` once a handler has assigned `undefined` to it. */
  datatype OrderDoc = OrderDoc(
    id: Id,
    customer: Id,
    items: seq<OrderItem>,
    cartPrice: int,
    taxes: real,
    shipping: int,
    totalOrderPrice: real,
    paymentMethod: string,
    isPaid: bool,
    paidAt: Option<Time>,
    status: Option<string>,
    deliveryGuy: Option<Id>,
    deliveryStatus: string,
    assignedAt: Option<Time>,
    pickedUpAt: Option<Time>,
    deliveredAt: Option<Time>,
    deliveryNotes: Option<string>)

  /** The schema's validators: the three enumerations and the 500-character limit on the notes. */
  predicate OrderValid(d: OrderDoc) {
    && d.paymentMethod in PaymentMethods
    && (d.status.Some? ==> d.status.value in OrderStatuses)
    && d.deliveryStatus in DeliveryStatuses
    && (d.deliveryNotes.Some? ==> |d.deliveryNotes.value| <= 500)
  }

  /**
   * `orderModel.create({ customer, items, cartPrice, taxes, shipping,
   * totalOrderPrice, status })` with the schema defaults for every other
   * field: cash on delivery, unpaid, unassigned, no timestamps.
   */
  function NewOrder(id: Id, customer: Id, items: seq<OrderItem>, cartPrice: int, taxes: real, shipping: int, total: real, status: string): (r: OrderDoc)
    requires status in OrderStatuses
    ensures OrderValid(r)
    ensures r.paymentMethod == "cash on delivery" && !r.isPaid && r.paidAt.None?
    ensures r.deliveryStatus == "unassigned" && r.deliveryGuy.None? && r.deliveredAt.None?
  {
    OrderDoc(id, customer, items, cartPrice, taxes, shipping, total, "cash on delivery", false, None, Some(status),
      None, "unassigned", None, None, None, None)
  }

  /** The sum of `totalOrderPrice` over the orders, in order. */
  function RealSum(orders: seq<OrderDoc>): real {
    if |orders| == 0 then 0.0 else RealSum(orders[..|orders| - 1]) + orders[|orders| - 1].totalOrderPrice
  }
}
