/**
 * The order endpoints: the cash order made from a cart, the paid order made
 * when the payment provider's webhook reports a paid transaction, the price
 * arithmetic of the checkout session, the admin status update, and the
 * seller's view and update of orders holding their items.
 *
 * Both order paths copy the cart lines into order items, lower each line's
 * product stock and raise its sold count with a `bulkWrite` (no
 * availability check, no validation), and delete the cart. The tax
 * percentage and the shipping fee come from the settings, which are
 * parameters here.
 */
module OrderController {
  import opened Base
  import opened Listing
  import opened ProductModel
  import opened CartModel
  import opened CartController
  import opened OrderModel

  /** The orders collection and the ObjectId generator for new orders. */
  datatype OrderState = OrderState(orders: map<Id, OrderDoc>, nextId: Id)

  function LinePrice(l: CartLine): int {
    l.price
  }

  /** `cart.cartItems.reduce((current, next) => current + next.price, 0)`: unit prices only. */
  function CashCartPrice(lines: seq<CartLine>): (r: int)
    ensures (forall j :: 0 <= j < |lines| ==> lines[j].quantity == 1) ==> r == LinesTotal(lines)
  {
    UnitQuantitySum(lines);
    Sum(lines, LinePrice)
  }

  /** With every quantity at one, the unit prices add up to the line total. */
  lemma {:induction false} UnitQuantitySum(lines: seq<CartLine>)
    ensures (forall j :: 0 <= j < |lines| ==> lines[j].quantity == 1) ==> Sum(lines, LinePrice) == LinesTotal(lines)
  {
    if |lines| > 0 && forall j :: 0 <= j < |lines| ==> lines[j].quantity == 1 {
      UnitQuantitySum(lines[..|lines| - 1]);
    }
  }

  /**
   * The cash order's cart price ignores quantities: at quantities of one or
   * more and non-negative prices it never exceeds the line total
   * `Σ price · quantity`, and it falls short of it as soon as one priced line
   * has a quantity above one.
   */
  lemma {:induction false} CashCartPriceAtMostTotal(lines: seq<CartLine>)
    requires forall j :: 0 <= j < |lines| ==> lines[j].quantity >= 1 && lines[j].price >= 0
    ensures CashCartPrice(lines) <= LinesTotal(lines)
    ensures (exists j :: 0 <= j < |lines| && lines[j].quantity > 1 && lines[j].price > 0) ==> CashCartPrice(lines) < LinesTotal(lines)
  {
    if |lines| > 0 {
      var init := lines[..|lines| - 1];
      var l := lines[|lines| - 1];
      CashCartPriceAtMostTotal(init);
      assert l.price <= l.price * l.quantity;
      if exists j :: 0 <= j < |lines| && lines[j].quantity > 1 && lines[j].price > 0 {
        var j :| 0 <= j < |lines| && lines[j].quantity > 1 && lines[j].price > 0;
        if j < |lines| - 1 {
          assert init[j] == lines[j];
        } else {
          assert l.price < l.price * l.quantity;
        }
      }
    }
  }

  /** `cartModel.findById(id)`. */
  function CartById(carts: seq<CartDoc>, id: Id): (r: Option<nat>)
    ensures r.None? <==> forall k :: 0 <= k < |carts| ==> carts[k].id != id
    ensures r.Some? ==> r.value < |carts| && carts[r.value].id == id
  {
    FirstIndex(carts, (c: CartDoc) => c.id == id)
  }

  /** Every line's product still exists, so that populating `cartItems.product` finds it. */
  predicate ProductsFound(lines: seq<CartLine>, docs: map<Id, ProductDoc>) {
    forall j :: 0 <= j < |lines| ==> lines[j].product in docs
  }

  /**
   * The item copied from a cart line: product, quantity and price, the
   * line's `color` (never set on a stored line) and the product's current
   * seller. Size and variation id are not copied.
   */
  function ItemOf(l: CartLine, docs: map<Id, ProductDoc>): OrderItem
    requires l.product in docs
  {
    OrderItem(l.product, l.quantity, None, None, l.price, None, docs[l.product].seller)
  }

  /** `cart.cartItems.map(...)`: one item per line, in order. */
  function ItemsOf(lines: seq<CartLine>, docs: map<Id, ProductDoc>): (r: seq<OrderItem>)
    requires ProductsFound(lines, docs)
    ensures |r| == |lines|
    ensures forall j :: 0 <= j < |lines| ==> (r[j].product == lines[j].product && r[j].quantity == lines[j].quantity &&
      r[j].price == lines[j].price && r[j].seller == docs[lines[j].product].seller)
  {
    seq(|lines|, j requires 0 <= j < |lines| => ItemOf(lines[j], docs))
  }

  /** The `bulkWrite` after an order: each line lowers its product's quantity and raises its sold count by the line quantity. */
  function SellAll(docs: map<Id, ProductDoc>, lines: seq<CartLine>): map<Id, ProductDoc> {
    if |lines| == 0 then docs
    else
      var l := lines[|lines| - 1];
      Incremented(SellAll(docs, lines[..|lines| - 1]), l.product, -l.quantity, l.quantity)
  }

  lemma SellAllNext(docs: map<Id, ProductDoc>, lines: seq<CartLine>, i: nat)
    requires i < |lines|
    ensures SellAll(docs, lines[..i + 1]) == Incremented(SellAll(docs, lines[..i]), lines[i].product, -lines[i].quantity, lines[i].quantity)
  {
    assert lines[..i + 1][..i] == lines[..i];
  }

  /** The total quantity the lines order of one product. */
  function QuantityOf(lines: seq<CartLine>, id: Id): int {
    if |lines| == 0 then 0
    else QuantityOf(lines[..|lines| - 1], id) + (if lines[|lines| - 1].product == id then lines[|lines| - 1].quantity else 0)
  }

  /**
   * After the `bulkWrite` every product has lost on-hand stock and gained
   * sales equal to the total quantity ordered of it, and is otherwise
   * unchanged; nothing checks that the stock was available, so the
   * quantity may fall below the reserved stock or below zero.
   */
  lemma {:induction false} SellAllEffect(docs: map<Id, ProductDoc>, lines: seq<CartLine>, id: Id)
    ensures SellAll(docs, lines).Keys == docs.Keys
    ensures id in docs ==> (SellAll(docs, lines)[id] ==
      docs[id].(quantity := docs[id].quantity - QuantityOf(lines, id), sold := docs[id].sold + QuantityOf(lines, id)))
  {
    if |lines| > 0 {
      SellAllEffect(docs, lines[..|lines| - 1], id);
    }
  }

  /** Selling keeps every stored record under its own id. */
  lemma {:induction false} SellAllIds(docs: map<Id, ProductDoc>, lines: seq<CartLine>)
    requires forall id :: id in docs ==> docs[id].id == id
    ensures forall id :: id in SellAll(docs, lines) ==> SellAll(docs, lines)[id].id == id
  {
    if |lines| > 0 {
      SellAllIds(docs, lines[..|lines| - 1]);
    }
  }

  /** The orders collection. */
  class OrderStore {
    var orders: map<Id, OrderDoc>
    var nextId: Id

    function State(): OrderState
      reads this
    {
      OrderState(orders, nextId)
    }

    /** Every order is stored under its own id below the generator, and passes the schema (every write validates). */
    ghost predicate Valid()
      reads this
    {
      forall id :: id in orders ==> orders[id].id == id && id < nextId && OrderValid(orders[id])
    }

    constructor ()
      ensures State() == OrderState(map[], 0) && Valid()
    {
      orders, nextId := map[], 0;
    }

    /** `orderModel.create(d)` of a document taking the next id. */
    method Create(d: OrderDoc)
      requires Valid() && d.id == nextId && OrderValid(d)
      modifies this
      ensures Valid()
      ensures State() == OrderState(old(orders)[d.id := d], old(nextId) + 1)
      ensures d.id !in old(orders)
    {
      orders := orders[d.id := d];
      nextId := nextId + 1;
    }

    /** `findById`. */
    method Load(id: Id) returns (o: Order?)
      ensures o == null <==> id !in orders
      ensures o != null ==> fresh(o) && o.Doc() == orders[id]
    {
      if id !in orders {
        return null;
      }
      o := new Order.FromDoc(orders[id]);
    }

    /** `findByIdAndUpdate(id, update, { runValidators: true })` of an update the schema accepts. */
    method Replace(d: OrderDoc)
      requires Valid() && d.id in orders && OrderValid(d)
      modifies this
      ensures Valid()
      ensures State() == old(State()).(orders := old(orders)[d.id := d])
    {
      orders := orders[d.id := d];
    }

    /** `save()`: a document the schema rejects leaves the stored record as it was. */
    method Save(o: Order) returns (r: Outcome)
      requires Valid() && o.id in orders
      modifies this
      ensures Valid()
      ensures r.Done? <==> OrderValid(o.Doc())
      ensures r.Done? ==> State() == old(State()).(orders := old(orders)[o.id := o.Doc()])
      ensures r.Failed? ==> r.failure == Invalid && State() == old(State())
    {
      if !OrderValid(o.Doc()) {
        return Failed(Invalid);
      }
      orders := orders[o.id := o.Doc()];
      r := Done;
    }
  }

  /** An order document being changed by a handler. */
  class Order {
    var id: Id
    var customer: Id
    var items: seq<OrderItem>
    var cartPrice: int
    var taxes: real
    var shipping: int
    var totalOrderPrice: real
    var paymentMethod: string
    var isPaid: bool
    var paidAt: Option<Time>
    var status: Option<string>
    var deliveryGuy: Option<Id>
    var deliveryStatus: string
    var assignedAt: Option<Time>
    var pickedUpAt: Option<Time>
    var deliveredAt: Option<Time>
    var deliveryNotes: Option<string>

    function Doc(): OrderDoc
      reads this
    {
      OrderDoc(id, customer, items, cartPrice, taxes, shipping, totalOrderPrice, paymentMethod,
        isPaid, paidAt, status, deliveryGuy, deliveryStatus, assignedAt, pickedUpAt, deliveredAt, deliveryNotes)
    }

    constructor FromDoc(d: OrderDoc)
      ensures Doc() == d
    {
      id, customer, items := d.id, d.customer, d.items;
      cartPrice, taxes, shipping, totalOrderPrice, paymentMethod := d.cartPrice, d.taxes, d.shipping, d.totalOrderPrice, d.paymentMethod;
      isPaid, paidAt, status := d.isPaid, d.paidAt, d.status;
      deliveryGuy, deliveryStatus, assignedAt, pickedUpAt, deliveredAt, deliveryNotes :=
        d.deliveryGuy, d.deliveryStatus, d.assignedAt, d.pickedUpAt, d.deliveredAt, d.deliveryNotes;
    }

    /** `order.isPaid = paid; order.paidAt = at`. */
    method SetPayment(paid: bool, at: Option<Time>)
      modifies this
      ensures Doc() == old(Doc()).(isPaid := paid, paidAt := at)
    {
      isPaid, paidAt := paid, at;
    }

    /** `order.status = s` (`None` for `undefined`). */
    method SetStatus(s: Option<string>)
      modifies this
      ensures Doc() == old(Doc()).(status := s)
    {
      status := s;
    }

    /** `order.deliveredAt = t`. */
    method SetDeliveredAt(t: Time)
      modifies this
      ensures Doc() == old(Doc()).(deliveredAt := Some(t))
    {
      deliveredAt := Some(t);
    }

    /** `order.paymentMethod = m`. */
    method SetPaymentMethod(m: string)
      modifies this
      ensures Doc() == old(Doc()).(paymentMethod := m)
    {
      paymentMethod := m;
    }
  }

  /**
   * How an order-creating path ends: a refused request changes no
   * collection; otherwise the order is stored under a fresh id, the cart it
   * came from (at index k) is deleted and its lines are sold.
   */
  predicate Placed(c0: CartState, c1: CartState, p0: map<Id, ProductDoc>, p1: map<Id, ProductDoc>,
                   o0: OrderState, o1: OrderState, k: Option<nat>, req: Result<OrderDoc>, r: Result<OrderDoc>) {
    if req.Fail? then r == req && c1 == c0 && p1 == p0 && o1 == o0
    else
      && k.Some? && k.value < |c0.carts| && r == req
      && o1 == OrderState(o0.orders[req.value.id := req.value], o0.nextId + 1)
      && c1 == c0.(carts := c0.carts[..k.value] + c0.carts[k.value + 1..])
      && p1 == SellAll(p0, c0.carts[k.value].cartItems)
  }

  /** `(cartPrice * taxes) / 100` for a percentage `pct`. */
  function Taxes(cartPrice: int, pct: int): (r: real)
    ensures pct == 0 || cartPrice == 0 ==> r == 0.0
    ensures cartPrice >= 0 && 0 <= pct <= 100 ==> 0.0 <= r <= cartPrice as real
  {
    assert cartPrice >= 0 && 0 <= pct <= 100 ==> 0 <= cartPrice * pct <= cartPrice * 100 by {
      if cartPrice >= 0 && 0 <= pct <= 100 {
        MulMono(0, pct, cartPrice);
        MulMono(pct, 100, cartPrice);
      }
    }
    (cartPrice * pct) as real / 100.0
  }

  /**
   * createCashOrder: the cart is found by id (404 otherwise), whoever owns
   * it; a line whose product is gone makes the item copy throw. The order
   * is pending, priced at the sum of unit prices plus taxes and shipping,
   * and made for the caller.
   */
  function CashOrderRequest(carts: seq<CartDoc>, docs: map<Id, ProductDoc>, user: Id, cartId: Id, pct: int, shipping: int, orderId: Id): (r: Result<OrderDoc>)
    ensures r == Fail(NotFound) <==> CartById(carts, cartId).None?
    ensures r == Fail(ServerError) <==> CartById(carts, cartId).Some? && !ProductsFound(carts[CartById(carts, cartId).value].cartItems, docs)
    ensures r.Ok? ==> OrderValid(r.value) && r.value.id == orderId && r.value.customer == user && r.value.status == Some("pending")
  {
    match CartById(carts, cartId)
    case None => Fail(NotFound)
    case Some(k) =>
      var lines := carts[k].cartItems;
      if !ProductsFound(lines, docs) then Fail(ServerError)
      else
        var cartPrice := CashCartPrice(lines);
        var taxes := Taxes(cartPrice, pct);
        Ok(NewOrder(orderId, user, ItemsOf(lines, docs), cartPrice, taxes, shipping, cartPrice as real + taxes + shipping as real, "pending"))
  }

  /** The `bulkWrite` loop: one `$inc` per cart line, in order. */
  method SellLines(products: ProductStore, lines: seq<CartLine>)
    requires products.Valid()
    modifies products
    ensures products.Valid()
    ensures products.docs == SellAll(old(products.docs), lines)
  {
    ghost var docs0 := products.docs;
    var i := 0;
    while i < |lines|
      invariant 0 <= i <= |lines|
      invariant products.Valid()
      invariant products.docs == SellAll(docs0, lines[..i])
    {
      SellAllNext(docs0, lines, i);
      products.IncStock(lines[i].product, -lines[i].quantity, lines[i].quantity);
      i := i + 1;
    }
    assert lines[..i] == lines;
  }

  /** Stores the order, sells the cart's lines and deletes the cart: the common tail of both order paths. */
  method PlaceOrder(carts: CartStore, orders: OrderStore, products: ProductStore, k: nat, order: OrderDoc)
    requires orders.Valid() && products.Valid()
    requires k < |carts.carts| && order.id == orders.nextId && OrderValid(order)
    modifies carts, orders, products
    ensures orders.Valid() && products.Valid()
    ensures Placed(old(carts.State()), carts.State(), old(products.docs), products.docs,
      old(orders.State()), orders.State(), Some(k), Ok(order), Ok(order))
  {
    var lines := carts.carts[k].cartItems;
    orders.Create(order);
    SellLines(products, lines);
    carts.Delete(k);
  }

  method CreateCashOrder(carts: CartStore, orders: OrderStore, products: ProductStore, user: Id, cartId: Id, pct: int, shipping: int)
    returns (r: Result<OrderDoc>)
    requires orders.Valid() && products.Valid()
    modifies carts, orders, products
    ensures orders.Valid() && products.Valid()
    ensures Placed(old(carts.State()), carts.State(), old(products.docs), products.docs, old(orders.State()), orders.State(),
      CartById(old(carts.carts), cartId), CashOrderRequest(old(carts.carts), old(products.docs), user, cartId, pct, shipping, old(orders.nextId)), r)
  {
    var found := CartById(carts.carts, cartId);
    if found.None? {
      return Fail(NotFound);
    }
    var lines := carts.carts[found.value].cartItems;
    if !ProductsFound(lines, products.docs) {
      return Fail(ServerError);
    }
    var cartPrice := CashCartPrice(lines);
    var taxes := Taxes(cartPrice, pct);
    var order := NewOrder(orders.nextId, user, ItemsOf(lines, products.docs), cartPrice, taxes, shipping,
      cartPrice as real + taxes + shipping as real, "pending");
    PlaceOrder(carts, orders, products, found.value, order);
    r := Ok(order);
  }

  /**
   * A cash order mirrors its cart line by line, is pending, unpaid and paid
   * on delivery, and its total is its cart price plus taxes plus shipping.
   */
  lemma CashOrderShape(carts: seq<CartDoc>, docs: map<Id, ProductDoc>, user: Id, cartId: Id, pct: int, shipping: int, orderId: Id)
    requires CashOrderRequest(carts, docs, user, cartId, pct, shipping, orderId).Ok?
    ensures var o := CashOrderRequest(carts, docs, user, cartId, pct, shipping, orderId).value;
      var lines := carts[CartById(carts, cartId).value].cartItems;
      && o.id == orderId && o.customer == user
      && |o.items| == |lines|
      && (forall j :: 0 <= j < |lines| ==> o.items[j].product == lines[j].product && o.items[j].quantity == lines[j].quantity && o.items[j].price == lines[j].price)
      && o.status == Some("pending") && !o.isPaid && o.paymentMethod == "cash on delivery"
      && o.cartPrice == CashCartPrice(lines)
      && o.totalOrderPrice == o.cartPrice as real + o.taxes + o.shipping as real
      && o.taxes * 100.0 == (o.cartPrice * pct) as real
  {
  }

  /**
   * The payment provider's order data: its order id, the email it carries
   * and the amount in cents. The shipping address the handler also builds
   * from it is not a path of the order schema, so strict mode drops it.
   */
  datatype PaymentData = PaymentData(paymobOrderId: string, email: string, amountCents: int)

  /** `cart.totalPriceAfterDiscount || cart.totalPrice`. */
  function ChargedPrice(c: CartDoc): (r: int)
    ensures c.totalPriceAfterDiscount.Some? && c.totalPriceAfterDiscount.value != 0 ==> r == c.totalPriceAfterDiscount.value
    ensures c.totalPriceAfterDiscount.None? || c.totalPriceAfterDiscount.value == 0 ==> r == c.totalPrice
  {
    NumOr(c.totalPriceAfterDiscount, c.totalPrice)
  }

  /**
   * createCreditOrder: the cart is found by the provider's order id and the
   * customer by the payment's email (`customer` is that lookup), each throwing
   * when absent. The order is approved, paid now through "Paymob", priced at
   * the discounted total if set, and its total is the amount paid.
   */
  function CreditOrderRequest(carts: seq<CartDoc>, docs: map<Id, ProductDoc>, data: PaymentData, customer: Option<Id>,
                              pct: int, shipping: int, now: Time, orderId: Id): (r: Result<OrderDoc>)
    ensures r.Fail? ==> r == Fail(ServerError)
    ensures r.Ok? <==> (PaymobCart(carts, data.paymobOrderId).Some? && customer.Some? &&
      ProductsFound(carts[PaymobCart(carts, data.paymobOrderId).value].cartItems, docs))
    ensures r.Ok? ==> (OrderValid(r.value) && r.value.id == orderId && r.value.customer == customer.value &&
      r.value.status == Some("Approved") && r.value.paymentMethod == "Paymob" && r.value.isPaid && r.value.paidAt == Some(now) &&
      r.value.totalOrderPrice == data.amountCents as real / 100.0 && r.value.deliveryStatus == "unassigned")
  {
    match PaymobCart(carts, data.paymobOrderId)
    case None => Fail(ServerError)
    case Some(k) =>
      if customer.None? then Fail(ServerError)
      else
        var lines := carts[k].cartItems;
        if !ProductsFound(lines, docs) then Fail(ServerError)
        else
          var cartPrice := ChargedPrice(carts[k]);
          var base := NewOrder(orderId, customer.value, ItemsOf(lines, docs), cartPrice, Taxes(cartPrice, pct), shipping,
            data.amountCents as real / 100.0, "Approved");
          Ok(base.(paymentMethod := "Paymob", isPaid := true, paidAt := Some(now)))
  }

  method CreateCreditOrder(carts: CartStore, orders: OrderStore, products: ProductStore, data: PaymentData, customer: Option<Id>,
                           pct: int, shipping: int, now: Time) returns (r: Result<OrderDoc>)
    requires orders.Valid() && products.Valid()
    modifies carts, orders, products
    ensures orders.Valid() && products.Valid()
    ensures Placed(old(carts.State()), carts.State(), old(products.docs), products.docs, old(orders.State()), orders.State(),
      PaymobCart(old(carts.carts), data.paymobOrderId),
      CreditOrderRequest(old(carts.carts), old(products.docs), data, customer, pct, shipping, now, old(orders.nextId)), r)
  {
    var found := PaymobCart(carts.carts, data.paymobOrderId);
    if found.None? || customer.None? {
      return Fail(ServerError);
    }
    var cart := carts.carts[found.value];
    if !ProductsFound(cart.cartItems, products.docs) {
      return Fail(ServerError);
    }
    var cartPrice := ChargedPrice(cart);
    var base := NewOrder(orders.nextId, customer.value, ItemsOf(cart.cartItems, products.docs), cartPrice, Taxes(cartPrice, pct), shipping,
      data.amountCents as real / 100.0, "Approved");
    var order := base.(paymentMethod := "Paymob", isPaid := true, paidAt := Some(now));
    PlaceOrder(carts, orders, products, found.value, order);
    r := Ok(order);
  }

  /** A webhook event: its type, whether `obj.success === true`, and `obj.order.payment_status`. */
  datatype Event = Event(kind: string, success: bool, paymentStatus: Option<string>, data: PaymentData)

  predicate PaidTransaction(e: Event) {
    e.kind == "TRANSACTION" && e.success && e.paymentStatus == Some("PAID")
  }

  /**
   * webhookCheckout: only a successful paid transaction creates an order;
   * a failure there answers 500, everything else 200.
   */
  method WebhookCheckout(carts: CartStore, orders: OrderStore, products: ProductStore, e: Event, customer: Option<Id>,
                         pct: int, shipping: int, now: Time) returns (r: Outcome)
    requires orders.Valid() && products.Valid()
    modifies carts, orders, products
    ensures orders.Valid() && products.Valid()
    ensures !PaidTransaction(e) ==> (r == Done && carts.State() == old(carts.State()) &&
      orders.State() == old(orders.State()) && products.docs == old(products.docs))
    ensures PaidTransaction(e) ==>
      var req := CreditOrderRequest(old(carts.carts), old(products.docs), e.data, customer, pct, shipping, now, old(orders.nextId));
      (r.Done? <==> req.Ok?) && (r.Failed? ==> r.failure == ServerError) &&
      exists res :: Placed(old(carts.State()), carts.State(), old(products.docs), products.docs, old(orders.State()), orders.State(),
        PaymobCart(old(carts.carts), e.data.paymobOrderId), req, res)
  {
    if !PaidTransaction(e) {
      return Done;
    }
    var created := CreateCreditOrder(carts, orders, products, e.data, customer, pct, shipping, now);
    r := if created.Ok? then Done else Failed(ServerError);
  }

  /**
   * Delivering the same paid webhook twice creates one order: the first
   * delivery deletes the cart, so the second (with no other cart carrying
   * the provider order id) finds none and fails without creating another.
   */
  lemma RedeliveredWebhookFails(c0: CartState, docs: map<Id, ProductDoc>, o0: OrderState, data: PaymentData, customer: Option<Id>,
                                pct: int, shipping: int, now: Time, c1: CartState, p1: map<Id, ProductDoc>, o1: OrderState, r: Result<OrderDoc>)
    requires var k := PaymobCart(c0.carts, data.paymobOrderId);
      k.Some? && forall j :: 0 <= j < |c0.carts| && j != k.value ==> c0.carts[j].paymobOrderId != Some(data.paymobOrderId)
    requires var req := CreditOrderRequest(c0.carts, docs, data, customer, pct, shipping, now, o0.nextId);
      req.Ok? && Placed(c0, c1, docs, p1, o0, o1, PaymobCart(c0.carts, data.paymobOrderId), req, r)
    ensures CreditOrderRequest(c1.carts, p1, data, customer, pct, shipping, now, o1.nextId) == Fail(ServerError)
  {
    var k := PaymobCart(c0.carts, data.paymobOrderId).value;
    forall j | 0 <= j < |c1.carts|
      ensures c1.carts[j].paymobOrderId != Some(data.paymobOrderId)
    {
      if j < k {
        assert c1.carts[j] == c0.carts[j];
      } else {
        assert c1.carts[j] == c0.carts[j + 1];
      }
    }
  }

  /**
   * The checkout session's amount: the charged cart price, the tax
   * `Math.round(cartPrice * pct / 100)` and the shipping fee. It is what a
   * paid order records as its total when the provider reports it back.
   */
  function SessionTotal(c: CartDoc, pct: int, shipping: int): (r: int)
    ensures var exact := ChargedPrice(c) as real + (ChargedPrice(c) * pct) as real / 100.0 + shipping as real;
      exact - 0.5 < r as real <= exact + 0.5
  {
    ChargedPrice(c) + shipping + Round((ChargedPrice(c) * pct) as real / 100.0)
  }

  /**
   * The paid order stores the unrounded tax but the rounded amount paid, so
   * its total need not equal cart price plus taxes plus shipping: a charged
   * price of 35 at 14 % gives a tax of 4.9 and a total of 35 + 0 + 5.
   */
  lemma PaidTotalDiffersFromSum(carts: seq<CartDoc>, docs: map<Id, ProductDoc>, data: PaymentData, customer: Id, now: Time, orderId: Id)
    requires PaymobCart(carts, data.paymobOrderId).Some?
    requires var c := carts[PaymobCart(carts, data.paymobOrderId).value];
      ChargedPrice(c) == 35 && ProductsFound(c.cartItems, docs) && data.amountCents == SessionTotal(c, 14, 0) * 100
    ensures var o := CreditOrderRequest(carts, docs, data, Some(customer), 14, 0, now, orderId);
      o.Ok? && o.value.taxes == 4.9 && o.value.totalOrderPrice == 40.0 &&
      o.value.totalOrderPrice != o.value.cartPrice as real + o.value.taxes + o.value.shipping as real
  {
    var c := carts[PaymobCart(carts, data.paymobOrderId).value];
    assert Round(4.9) == 5;
    assert SessionTotal(c, 14, 0) == 40;
  }

  /** How a handler that saves one order ends. */
  predicate OrderSaved(before: OrderState, after: OrderState, id: Id, req: Result<OrderDoc>, r: Result<OrderDoc>) {
    if req.Fail? then r == req && after == before
    else if !OrderValid(req.value) then r == Fail(Invalid) && after == before
    else after == before.(orders := before.orders[id := req.value]) && r == req
  }

  /** `await order.save()` closing a handler whose request resolved to `req`. */
  method CommitOrder(orders: OrderStore, o: Order, ghost req: Result<OrderDoc>) returns (r: Result<OrderDoc>)
    requires orders.Valid() && o.id in orders.orders && req == Ok(o.Doc())
    modifies orders
    ensures orders.Valid()
    ensures OrderSaved(old(orders.State()), orders.State(), o.id, req, r)
  {
    var saved := orders.Save(o);
    if saved.Failed? {
      return Fail(Invalid);
    }
    r := Ok(o.Doc());
  }

  /**
   * The admin update: a truthy isPaid marks the order paid now, "delivered"
   * stamps deliveredAt, and the status is always overwritten by the
   * requested one (`None`, an absent status, unsets it).
   */
  function AdminUpdate(d: OrderDoc, isPaid: bool, status: Option<string>, now: Time): (u: OrderDoc)
    ensures u.id == d.id && u.customer == d.customer && u.items == d.items && u.totalOrderPrice == d.totalOrderPrice
    ensures u.paymentMethod == d.paymentMethod && u.deliveryGuy == d.deliveryGuy
  {
    var paid := if isPaid then d.(isPaid := true, paidAt := Some(now)) else d;
    var stamped := if status == Some("delivered") then paid.(deliveredAt := Some(now)) else paid;
    stamped.(status := status)
  }

  function AdminUpdateRequest(orders: map<Id, OrderDoc>, id: Id, isPaid: bool, status: Option<string>, now: Time): (r: Result<OrderDoc>)
    ensures r.Fail? <==> id !in orders
    ensures r.Fail? ==> r.failure == NotFound
    ensures r.Ok? ==> (r.value.id == orders[id].id && r.value.items == orders[id].items && r.value.customer == orders[id].customer &&
      r.value.status == status && (isPaid ==> r.value.isPaid && r.value.paidAt == Some(now)))
  {
    if id !in orders then Fail(NotFound) else Ok(AdminUpdate(orders[id], isPaid, status, now))
  }

  method UpdateOrderStatus(orders: OrderStore, id: Id, isPaid: bool, status: Option<string>, now: Time) returns (r: Result<OrderDoc>)
    requires orders.Valid()
    modifies orders
    ensures orders.Valid()
    ensures OrderSaved(old(orders.State()), orders.State(), id, AdminUpdateRequest(old(orders.orders), id, isPaid, status, now), r)
  {
    var o := orders.Load(id);
    if o == null {
      return Fail(NotFound);
    }
    ghost var req := AdminUpdateRequest(orders.orders, id, isPaid, status, now);
    if isPaid {
      o.SetPayment(true, Some(now));
    }
    if status == Some("delivered") {
      o.SetStatus(Some("delivered"));
      o.SetDeliveredAt(now);
    }
    o.SetStatus(status);
    r := CommitOrder(orders, o, req);
  }

  /**
   * The admin update leaves the items, prices and delivery fields alone:
   * the status becomes the requested one, deliveredAt is stamped only for
   * "delivered", and the order is paid afterwards if it was or isPaid is
   * truthy. The save succeeds on a valid order exactly when the status is
   * absent or in the enumeration.
   */
  lemma AdminUpdateMeaning(d: OrderDoc, isPaid: bool, status: Option<string>, now: Time)
    requires OrderValid(d)
    ensures var u := AdminUpdate(d, isPaid, status, now);
      && u.status == status
      && u.deliveredAt == (if status == Some("delivered") then Some(now) else d.deliveredAt)
      && u.isPaid == (d.isPaid || isPaid)
      && u.(status := d.status, deliveredAt := d.deliveredAt, isPaid := d.isPaid, paidAt := d.paidAt) == d
      && (OrderValid(u) <==> status.None? || status.value in OrderStatuses)
  {
  }

  /**
   * The string forms `ensureSellerOwnsOrder` compares: `p._id.toString()`
   * of a bare id, and `item.product.toString()` of an item whose product the
   * order schema's `pre(/^find/)` hook has populated, which renders the whole
   * product document rather than its id.
   */
  datatype Rendered = IdText(id: Id) | DocText(id: Id)

  /** `productIds`: the rendered ids of the seller's products. */
  function SellerProductIds(docs: map<Id, ProductDoc>, seller: Id): (r: set<Rendered>)
    ensures forall x :: x in r <==> x.IdText? && Owned(docs, x.id, seller)
  {
    set p | p in docs && docs[p].seller == Some(seller) :: IdText(p)
  }

  /**
   * `order.items.some((item) => productIds.includes(item.product.toString()))`
   * on the populated order, as written: a product that no longer exists
   * populates as `null`, whose `toString()` throws.
   */
  function WrittenOwnsOrder(productIds: set<Rendered>, docs: map<Id, ProductDoc>, items: seq<OrderItem>): (r: Result<bool>)
    ensures r.Fail? ==> r == Fail(ServerError) && exists j :: 0 <= j < |items| && items[j].product !in docs
    ensures r == Ok(true) ==> exists j :: 0 <= j < |items| && DocText(items[j].product) in productIds
  {
    if |items| == 0 then Ok(false)
    else if items[0].product !in docs then Fail(ServerError)
    else if DocText(items[0].product) in productIds then Ok(true)
    else
      var r := WrittenOwnsOrder(productIds, docs, items[1..]);
      assert r.Fail? ==> exists j :: 0 <= j < |items| && items[j].product !in docs by {
        if r.Fail? {
          var j :| 0 <= j < |items[1..]| && items[1..][j].product !in docs;
          assert items[j + 1] == items[1..][j];
        }
      }
      assert r == Ok(true) ==> exists j :: 0 <= j < |items| && DocText(items[j].product) in productIds by {
        if r == Ok(true) {
          var j :| 0 <= j < |items[1..]| && DocText(items[1..][j].product) in productIds;
          assert items[j + 1] == items[1..][j];
        }
      }
      r
  }

  /**
   * As written, the ownership check never holds: with every product present
   * it answers false, and with one missing it throws.
   */
  lemma {:induction false} WrittenOwnsOrderNeverHolds(docs: map<Id, ProductDoc>, seller: Id, items: seq<OrderItem>)
    ensures var r := WrittenOwnsOrder(SellerProductIds(docs, seller), docs, items);
      r != Ok(true) &&
      (r == Fail(ServerError) <==> exists j :: 0 <= j < |items| && items[j].product !in docs) &&
      (r.Fail? ==> r == Fail(ServerError))
  {
    if |items| > 0 && items[0].product in docs {
      WrittenOwnsOrderNeverHolds(docs, seller, items[1..]);
      if exists j :: 0 <= j < |items| && items[j].product !in docs {
        var j :| 0 <= j < |items| && items[j].product !in docs;
        assert items[1..][j - 1] == items[j];
      }
      forall j | 0 <= j < |items| - 1
        ensures items[1..][j] == items[j + 1]
      {
      }
    }
  }

  /** updateSellerOrder as written: the same 404s, then the populated ownership check. */
  function WrittenSellerUpdateRequest(orders: map<Id, OrderDoc>, docs: map<Id, ProductDoc>, seller: Option<Id>, id: Id,
                                      isPaid: Option<bool>, status: Option<string>, paymentMethod: Option<string>, now: Time): (r: Result<OrderDoc>)
    ensures seller.None? || id !in orders ==> r == Fail(NotFound)
  {
    if seller.None? then Fail(NotFound)
    else if id !in orders then Fail(NotFound)
    else match WrittenOwnsOrder(SellerProductIds(docs, seller.value), docs, orders[id].items)
      case Fail(e) => Fail(e)
      case Ok(owns) =>
        if !owns then Fail(Forbidden)
        else Ok(SellerUpdate(orders[id], isPaid, status, paymentMethod, now))
  }

  /**
   * As written, no seller update is ever applied: an order whose products all
   * exist is refused with 403, even one made only of the seller's own
   * products, and one with a deleted product fails with 500.
   */
  lemma WrittenSellerUpdateNeverApplies(orders: map<Id, OrderDoc>, docs: map<Id, ProductDoc>, seller: Id, id: Id,
                                        isPaid: Option<bool>, status: Option<string>, paymentMethod: Option<string>, now: Time)
    requires id in orders
    ensures var r := WrittenSellerUpdateRequest(orders, docs, Some(seller), id, isPaid, status, paymentMethod, now);
      r == (if exists j :: 0 <= j < |orders[id].items| && orders[id].items[j].product !in docs then Fail(ServerError) else Fail(Forbidden))
  {
    WrittenOwnsOrderNeverHolds(docs, seller, orders[id].items);
  }

  /**
   * The input that shows it: an order of one of the seller's own products is
   * refused as written, and updated under the id comparison.
   */
  lemma OwnOrderRefusedAsWritten(d: OrderDoc, docs: map<Id, ProductDoc>, seller: Id, now: Time)
    requires |d.items| == 1 && Owned(docs, d.items[0].product, seller)
    ensures WrittenSellerUpdateRequest(map[d.id := d], docs, Some(seller), d.id, Some(true), None, None, now) == Fail(Forbidden)
    ensures SellerUpdateRequest(map[d.id := d], docs, Some(seller), d.id, Some(true), None, None, now).Ok?
  {
    WrittenSellerUpdateNeverApplies(map[d.id := d], docs, seller, d.id, Some(true), None, None, now);
  }

  /**
   * `ensureSellerOwnsOrder` as evidently intended: some item's product id is
   * one of the seller's product ids.
   */
  predicate OwnsOrder(docs: map<Id, ProductDoc>, seller: Id, d: OrderDoc)
    ensures OwnsOrder(docs, seller, d) <==> exists j :: 0 <= j < |d.items| && IdText(d.items[j].product) in SellerProductIds(docs, seller)
  {
    exists j :: 0 <= j < |d.items| && Owned(docs, d.items[j].product, seller)
  }

  /**
   * The seller update: a boolean isPaid sets isPaid and sets or clears
   * paidAt; a truthy status is stored and "completed" or "delivered" stamps
   * deliveredAt; a truthy payment method is stored.
   */
  function SellerUpdate(d: OrderDoc, isPaid: Option<bool>, status: Option<string>, paymentMethod: Option<string>, now: Time): (u: OrderDoc)
    ensures u.id == d.id && u.customer == d.customer && u.items == d.items && u.totalOrderPrice == d.totalOrderPrice
    ensures u.deliveryGuy == d.deliveryGuy && u.deliveryStatus == d.deliveryStatus
  {
    var paid := if isPaid.Some? then d.(isPaid := isPaid.value, paidAt := if isPaid.value then Some(now) else None) else d;
    var moved :=
      if Truthy(status) then
        paid.(status := status, deliveredAt := if status.value == "completed" || status.value == "delivered" then Some(now) else paid.deliveredAt)
      else paid;
    if Truthy(paymentMethod) then moved.(paymentMethod := paymentMethod.value) else moved
  }

  /**
   * The seller update changes only the status, the delivery stamp, the
   * payment method and the payment fields: a truthy status replaces the
   * old one and, when it is "completed" or "delivered", stamps deliveredAt
   * with now; a truthy payment method replaces the old one; a given isPaid
   * is stored, paidAt becoming now when it is true and cleared when false.
   * Absent or empty values leave their fields as they were.
   */
  lemma SellerUpdateMeaning(d: OrderDoc, isPaid: Option<bool>, status: Option<string>, paymentMethod: Option<string>, now: Time)
    ensures var u := SellerUpdate(d, isPaid, status, paymentMethod, now);
      && u.status == (if Truthy(status) then status else d.status)
      && u.deliveredAt == (if Truthy(status) && (status.value == "completed" || status.value == "delivered") then Some(now) else d.deliveredAt)
      && u.paymentMethod == (if Truthy(paymentMethod) then paymentMethod.value else d.paymentMethod)
      && u.isPaid == (if isPaid.Some? then isPaid.value else d.isPaid)
      && u.paidAt == (if isPaid == Some(true) then Some(now) else if isPaid == Some(false) then None else d.paidAt)
      && u.(status := d.status, deliveredAt := d.deliveredAt, paymentMethod := d.paymentMethod, isPaid := d.isPaid, paidAt := d.paidAt) == d
  {
  }

  /** The statuses and payment methods the seller update's validator lets through. */
  const SellerStatuses: set<string> := {"pending", "Approved", "shipping", "completed", "delivered", "cancelled"}

  predicate SellerBodyAccepted(status: Option<string>, paymentMethod: Option<string>) {
    && (status.Some? ==> status.value in SellerStatuses)
    && (paymentMethod.Some? ==> paymentMethod.value in PaymentMethods)
  }

  /** A valid order stays valid under any update the validator lets through, so the seller's save never fails. */
  lemma SellerUpdateKeepsValid(d: OrderDoc, isPaid: Option<bool>, status: Option<string>, paymentMethod: Option<string>, now: Time)
    requires OrderValid(d) && SellerBodyAccepted(status, paymentMethod)
    ensures OrderValid(SellerUpdate(d, isPaid, status, paymentMethod, now))
  {
  }

  /** updateSellerOrder: no seller profile and an unknown order are 404, an order without the seller's products 403. */
  function SellerUpdateRequest(orders: map<Id, OrderDoc>, docs: map<Id, ProductDoc>, seller: Option<Id>, id: Id,
                               isPaid: Option<bool>, status: Option<string>, paymentMethod: Option<string>, now: Time): (r: Result<OrderDoc>)
    ensures seller.None? || id !in orders ==> r == Fail(NotFound)
    ensures r.Fail? ==> r == Fail(NotFound) || r == Fail(Forbidden)
    ensures r.Ok? ==> seller.Some? && id in orders && OwnsOrder(docs, seller.value, orders[id])
    ensures r.Ok? ==> (
      && r.value.status == (if Truthy(status) then status else orders[id].status)
      && r.value.paymentMethod == (if Truthy(paymentMethod) then paymentMethod.value else orders[id].paymentMethod)
      && (Truthy(status) && (status.value == "completed" || status.value == "delivered") ==> r.value.deliveredAt == Some(now))
      && (isPaid == Some(false) ==> !r.value.isPaid && r.value.paidAt.None?))
  {
    if seller.None? then Fail(NotFound)
    else if id !in orders then Fail(NotFound)
    else if !OwnsOrder(docs, seller.value, orders[id]) then Fail(Forbidden)
    else Ok(SellerUpdate(orders[id], isPaid, status, paymentMethod, now))
  }

  method UpdateSellerOrder(orders: OrderStore, docs: map<Id, ProductDoc>, seller: Option<Id>, id: Id,
                           isPaid: Option<bool>, status: Option<string>, paymentMethod: Option<string>, now: Time) returns (r: Result<OrderDoc>)
    requires orders.Valid() && SellerBodyAccepted(status, paymentMethod)
    modifies orders
    ensures orders.Valid()
    ensures r != Fail(Invalid)
    ensures OrderSaved(old(orders.State()), orders.State(), id,
      SellerUpdateRequest(old(orders.orders), docs, seller, id, isPaid, status, paymentMethod, now), r)
  {
    if seller.None? {
      return Fail(NotFound);
    }
    var o := orders.Load(id);
    if o == null {
      return Fail(NotFound);
    }
    if !OwnsOrder(docs, seller.value, o.Doc()) {
      return Fail(Forbidden);
    }
    ghost var req := SellerUpdateRequest(orders.orders, docs, seller, id, isPaid, status, paymentMethod, now);
    SellerUpdateKeepsValid(o.Doc(), isPaid, status, paymentMethod, now);
    ApplySellerUpdate(o, isPaid, status, paymentMethod, now);
    r := CommitOrder(orders, o, req);
  }

  /** The field assignments of updateSellerOrder, in the handler's order. */
  method ApplySellerUpdate(o: Order, isPaid: Option<bool>, status: Option<string>, paymentMethod: Option<string>, now: Time)
    modifies o
    ensures o.Doc() == SellerUpdate(old(o.Doc()), isPaid, status, paymentMethod, now)
  {
    if isPaid.Some? {
      o.SetPayment(isPaid.value, if isPaid.value then Some(now) else None);
    }
    if Truthy(status) {
      o.SetStatus(status);
      if status.value == "completed" || status.value == "delivered" {
        o.SetDeliveredAt(now);
      }
    }
    if Truthy(paymentMethod) {
      o.SetPaymentMethod(paymentMethod.value);
    }
  }

  /** A seller may update an order only if it holds one of their products; otherwise it stays as it was. */
  lemma SellerUpdateNeedsOwnership(orders: map<Id, OrderDoc>, docs: map<Id, ProductDoc>, seller: Id, id: Id,
                                   isPaid: Option<bool>, status: Option<string>, paymentMethod: Option<string>, now: Time)
    requires id in orders
    ensures var r := SellerUpdateRequest(orders, docs, Some(seller), id, isPaid, status, paymentMethod, now);
      (r == Fail(Forbidden) <==> forall j :: 0 <= j < |orders[id].items| ==> !Owned(docs, orders[id].items[j].product, seller)) &&
      (r.Ok? ==> (r.value.items == orders[id].items && r.value.customer == orders[id].customer &&
        (isPaid.Some? ==> r.value.isPaid == isPaid.value && (r.value.paidAt.Some? <==> isPaid.value))))
  {
  }

  /** The seller's share of an order: their items, their subtotal `Σ price · quantity`, their share of the taxes and their total. */
  datatype SellerView = SellerView(order: OrderDoc, sellerCartPrice: int, sellerTaxes: real, sellerTotal: real)

  function ItemAmount(i: OrderItem): int {
    i.price * i.quantity
  }

  function SellerItems(items: seq<OrderItem>, seller: Id): (r: seq<OrderItem>)
    ensures forall i :: i in r <==> i in items && i.seller == Some(seller)
  {
    Filter(items, (i: OrderItem) => i.seller == Some(seller))
  }

  /** The taxes in proportion to the seller's subtotal, or 0 for an order with no cart price. */
  function SellerTaxes(d: OrderDoc, sellerCartPrice: int): real {
    if d.cartPrice > 0 then sellerCartPrice as real * (d.taxes / d.cartPrice as real) else 0.0
  }

  function ViewFor(d: OrderDoc, seller: Id): SellerView {
    var items := SellerItems(d.items, seller);
    var subtotal := Sum(items, ItemAmount);
    var taxes := SellerTaxes(d, subtotal);
    SellerView(d.(items := items), subtotal, taxes, subtotal as real + taxes)
  }

  /** getSellerOrders after paging: each order narrowed to the seller's items, orders left with none dropped. */
  function SellerOrders(orders: seq<OrderDoc>, seller: Id): (r: seq<SellerView>)
    ensures |r| <= |orders|
  {
    if |orders| == 0 then []
    else
      var v := ViewFor(orders[|orders| - 1], seller);
      SellerOrders(orders[..|orders| - 1], seller) + (if |v.order.items| > 0 then [v] else [])
  }

  /**
   * Every listed view holds only the seller's items and at least one, its
   * total is subtotal plus taxes, and an order is listed exactly when one of
   * its items is the seller's.
   */
  lemma {:induction false} SellerOrdersMeaning(orders: seq<OrderDoc>, seller: Id)
    ensures forall v :: v in SellerOrders(orders, seller) ==>
      |v.order.items| > 0 && (forall i :: i in v.order.items ==> i.seller == Some(seller)) &&
      v.sellerTotal == v.sellerCartPrice as real + v.sellerTaxes
    ensures forall d :: d in orders ==> ((exists i :: i in d.items && i.seller == Some(seller)) <==> ViewFor(d, seller) in SellerOrders(orders, seller))
  {
    if |orders| > 0 {
      var init := orders[..|orders| - 1];
      SellerOrdersMeaning(init, seller);
      forall d | d in orders
        ensures (exists i :: i in d.items && i.seller == Some(seller)) <==> ViewFor(d, seller) in SellerOrders(orders, seller)
      {
        ViewForInjective(d, orders, seller);
        if (exists i :: i in d.items && i.seller == Some(seller)) {
          var i :| i in d.items && i.seller == Some(seller);
          assert i in ViewFor(d, seller).order.items;
          if d != orders[|orders| - 1] {
            assert d in init;
          }
        }
      }
    }
  }

  /** A view determines the order it came from, so it can be listed only for that order. */
  lemma ViewForInjective(d: OrderDoc, orders: seq<OrderDoc>, seller: Id)
    requires d in orders
    ensures ViewFor(d, seller) in SellerOrders(orders, seller) ==> exists i :: i in d.items && i.seller == Some(seller)
  {
    if ViewFor(d, seller) in SellerOrders(orders, seller) {
      SellerOrdersFrom(orders, seller, ViewFor(d, seller));
      var e :| e in orders && ViewFor(e, seller) == ViewFor(d, seller) && |ViewFor(e, seller).order.items| > 0;
      var i := ViewFor(d, seller).order.items[0];
      assert i in SellerItems(d.items, seller);
    }
  }

  lemma {:induction false} SellerOrdersFrom(orders: seq<OrderDoc>, seller: Id, v: SellerView)
    requires v in SellerOrders(orders, seller)
    ensures exists e :: e in orders && ViewFor(e, seller) == v && |v.order.items| > 0
  {
    var init := orders[..|orders| - 1];
    var last := ViewFor(orders[|orders| - 1], seller);
    if v in SellerOrders(init, seller) {
      SellerOrdersFrom(init, seller, v);
      var e :| e in init && ViewFor(e, seller) == v && |v.order.items| > 0;
      assert e in orders;
    } else {
      assert v == last;
    }
  }

  /**
   * getSellerOrderDetails: a missing seller profile or an unknown order is a 404 and an order without
   * the seller's items a 403; otherwise the seller's view.
   */
  function SellerOrderDetails(orders: map<Id, OrderDoc>, seller: Option<Id>, id: Id): (r: Result<SellerView>)
    ensures seller.None? || id !in orders ==> r == Fail(NotFound)
    ensures seller.Some? && id in orders ==>
      (r == Fail(Forbidden) <==> forall i :: i in orders[id].items ==> i.seller != Some(seller.value))
    ensures r.Fail? ==> r.failure == NotFound || r.failure == Forbidden
    ensures r.Ok? ==>
      && seller.Some? && id in orders && |r.value.order.items| > 0
      && (forall i :: i in r.value.order.items <==> i in orders[id].items && i.seller == Some(seller.value))
      && r.value.sellerCartPrice == Sum(r.value.order.items, ItemAmount)
      && r.value.sellerTotal == r.value.sellerCartPrice as real + r.value.sellerTaxes
  {
    if seller.None? then Fail(NotFound)
    else if id !in orders then Fail(NotFound)
    else
      var v := ViewFor(orders[id], seller.value);
      if |v.order.items| == 0 then Fail(Forbidden) else Ok(v)
  }

  /**
   * When the order's taxes are its cart price times a percentage, the
   * seller's share is their subtotal times the same percentage.
   */
  lemma SellerTaxesProportional(d: OrderDoc, sellerCartPrice: int, pct: int)
    requires d.cartPrice > 0 && d.taxes == Taxes(d.cartPrice, pct)
    ensures SellerTaxes(d, sellerCartPrice) == Taxes(sellerCartPrice, pct)
  {
    var c := d.cartPrice as real;
    assert d.taxes / c == pct as real / 100.0;
  }
}
