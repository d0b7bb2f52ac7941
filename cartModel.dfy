/**
 * The cart document: a list of lines, each holding a product, a quantity
 * (1 unless given), an optional map of variation options, the unit price
 * captured when the line was added and an optional variation id; the owning
 * user; the rounded total and an optional discounted total; and an optional
 * payment-provider order id. Neither `user` nor `paymobOrderId` is unique,
 * and the schema declares no color or size on a line.
 */
module CartModel {
  import opened Base
  import opened Listing

  datatype CartLine = CartLine(
    id: Id,
    product: Id,
    quantity: int,
    variationOptions: Option<map<string, string>>,
    price: int,
    variationId: Option<Id>)

  datatype CartDoc = CartDoc(
    id: Id,
    cartItems: seq<CartLine>,
    user: Id,
    totalPrice: int,
    totalPriceAfterDiscount: Option<int>,
    paymobOrderId: Option<string>)

  /**
   * A line built from `{ product, color, size, price, variationId }`: the
   * schema supplies quantity 1, leaves the variation options unset and
   * drops color and size, which are not among its paths.
   */
  function NewLine(id: Id, product: Id, price: int, variationId: Option<Id>): CartLine {
    CartLine(id, product, 1, None, price, variationId)
  }

  /** `price * quantity` of one line. */
  function LineAmount(l: CartLine): int {
    l.price * l.quantity
  }

  /** `Σ price · quantity` over the lines, in order. */
  function LinesTotal(lines: seq<CartLine>): int {
    Sum(lines, LineAmount)
  }

  /** `cartModel.findOne({ user })`: the first cart of that user in collection order. */
  function UserCart(carts: seq<CartDoc>, user: Id): (r: Option<nat>)
    ensures r.None? <==> forall k :: 0 <= k < |carts| ==> carts[k].user != user
    ensures r.Some? ==> r.value < |carts| && carts[r.value].user == user
    ensures r.Some? ==> forall k :: 0 <= k < r.value ==> carts[k].user != user
  {
    FirstIndex(carts, (c: CartDoc) => c.user == user)
  }

  /** `cartModel.findOne({ paymobOrderId })`: the first cart carrying that provider order id. */
  function PaymobCart(carts: seq<CartDoc>, paymobOrderId: string): (r: Option<nat>)
    ensures r.None? <==> forall k :: 0 <= k < |carts| ==> carts[k].paymobOrderId != Some(paymobOrderId)
    ensures r.Some? ==> r.value < |carts| && carts[r.value].paymobOrderId == Some(paymobOrderId)
    ensures r.Some? ==> forall k :: 0 <= k < r.value ==> carts[k].paymobOrderId != Some(paymobOrderId)
  {
    FirstIndex(carts, (c: CartDoc) => c.paymobOrderId == Some(paymobOrderId))
  }

  /**
   * Nothing keeps two carts from carrying the same provider order id; when
   * they do, the lookup always answers with the earlier one and never
   * reaches the later.
   */
  lemma PaymobLookupShadows(carts: seq<CartDoc>, i: nat, j: nat, pid: string)
    requires i < j < |carts|
    requires carts[i].paymobOrderId == Some(pid) && carts[j].paymobOrderId == Some(pid)
    ensures PaymobCart(carts, pid).Some? && PaymobCart(carts, pid).value <= i
    ensures PaymobCart(carts, pid).value != j
  {
  }

  /** Appending a cart of a user who had none makes it that user's cart. */
  lemma UserCartAppend(carts: seq<CartDoc>, c: CartDoc)
    requires UserCart(carts, c.user).None?
    ensures UserCart(carts + [c], c.user) == Some(|carts|)
  {
    forall k | 0 <= k < |carts|
      ensures (carts + [c])[k].user != c.user
    {
      assert (carts + [c])[k] == carts[k];
    }
    assert (carts + [c])[|carts|].user == c.user;
  }

  /** Replacing a user's cart by one of the same user keeps it that user's cart. */
  lemma UserCartReplace(carts: seq<CartDoc>, user: Id, c: CartDoc)
    requires UserCart(carts, user).Some? && c.user == user
    ensures UserCart(carts[UserCart(carts, user).value := c], user) == UserCart(carts, user)
  {
    var k := UserCart(carts, user).value;
    var next := carts[k := c];
    forall j | 0 <= j < k
      ensures next[j].user != user
    {
      assert next[j] == carts[j];
    }
    assert next[k].user == user;
  }
}
