/**
 * The cart endpoints: adding a product (or one of its color/size
 * variations) behind a stock gate, setting a line's quantity, removing a
 * line, clearing the cart and applying a coupon, with `calculateCartPrice`
 * rounding every recomputed total up to a multiple of five.
 *
 * The carts collection is a sequence in collection order, so that the
 * non-unique lookups by user and by provider order id are the first match.
 * Each handler is a method that loads the cart, changes it in place and
 * saves it; beside it a function states the collection the handler leaves
 * (or the error it answers with), and lemmas relate those functions.
 */
module CartController {
  import opened Base
  import opened Listing
  import opened ProductModel
  import opened VariationController
  import opened CartModel

  /** The carts collection and the ObjectId generator used for new carts and lines. */
  datatype CartState = CartState(carts: seq<CartDoc>, nextId: Id)

  /**
   * `calculateCartPrice`: the total is the raw line sum rounded up to a
   * multiple of five, and any discounted total is dropped.
   */
  function Priced(c: CartDoc): (r: CartDoc)
    ensures r.totalPrice % 5 == 0
    ensures LinesTotal(c.cartItems) <= r.totalPrice < LinesTotal(c.cartItems) + 5
    ensures r.totalPriceAfterDiscount.None?
    ensures r.(totalPrice := c.totalPrice, totalPriceAfterDiscount := c.totalPriceAfterDiscount) == c
  {
    c.(totalPrice := RoundUpToFive(LinesTotal(c.cartItems)), totalPriceAfterDiscount := None)
  }

  /** The `forEach` of `calculateCartPrice`: adds `price * quantity` line by line. */
  method SumLines(items: seq<CartLine>) returns (total: int)
    ensures total == LinesTotal(items)
  {
    total := 0;
    var i := 0;
    while i < |items|
      invariant 0 <= i <= |items|
      invariant total == LinesTotal(items[..i])
    {
      SumNext(items, i, LineAmount);
      total := total + items[i].price * items[i].quantity;
      i := i + 1;
    }
    assert items[..i] == items;
  }

  /** A cart document being changed by a handler. */
  class Cart {
    var id: Id
    var cartItems: seq<CartLine>
    var user: Id
    var totalPrice: int
    var totalPriceAfterDiscount: Option<int>
    var paymobOrderId: Option<string>

    function Doc(): CartDoc
      reads this
    {
      CartDoc(id, cartItems, user, totalPrice, totalPriceAfterDiscount, paymobOrderId)
    }

    constructor FromDoc(d: CartDoc)
      ensures Doc() == d
    {
      id, cartItems, user := d.id, d.cartItems, d.user;
      totalPrice, totalPriceAfterDiscount, paymobOrderId := d.totalPrice, d.totalPriceAfterDiscount, d.paymobOrderId;
    }

    /** `calculateCartPrice(cart)`. */
    method CalculatePrice()
      modifies this
      ensures Doc() == Priced(old(Doc()))
    {
      var total := SumLines(cartItems);
      totalPrice := RoundUpToFive(total);
      totalPriceAfterDiscount := None;
    }

    /** `cart.cartItems[k].quantity = q`. */
    method SetLineQuantity(k: nat, q: int)
      requires k < |cartItems|
      modifies this
      ensures Doc() == old(Doc()).(cartItems := old(cartItems)[k := old(cartItems)[k].(quantity := q)])
    {
      cartItems := cartItems[k := cartItems[k].(quantity := q)];
    }

    /** `cart.cartItems.push(line)`. */
    method PushLine(l: CartLine)
      modifies this
      ensures Doc() == old(Doc()).(cartItems := old(cartItems) + [l])
    {
      cartItems := cartItems + [l];
    }

    /** `cart.totalPriceAfterDiscount = t`. */
    method SetDiscountedTotal(t: int)
      modifies this
      ensures Doc() == old(Doc()).(totalPriceAfterDiscount := Some(t))
    {
      totalPriceAfterDiscount := Some(t);
    }
  }

  /** The carts collection. */
  class CartStore {
    var carts: seq<CartDoc>
    var nextId: Id

    function State(): CartState
      reads this
    {
      CartState(carts, nextId)
    }

    constructor (initial: seq<CartDoc>, next: Id)
      ensures State() == CartState(initial, next)
    {
      carts, nextId := initial, next;
    }

    /** A fresh document for the k-th stored cart. */
    method Load(k: nat) returns (c: Cart)
      requires k < |carts|
      ensures fresh(c) && c.Doc() == carts[k]
    {
      c := new Cart.FromDoc(carts[k]);
    }

    /** A new ObjectId. */
    method NewId() returns (id: Id)
      modifies this
      ensures id == old(nextId) && State() == old(State()).(nextId := id + 1)
    {
      id := nextId;
      nextId := nextId + 1;
    }

    /** `cart.save()` of the k-th stored cart (the cart schema has no validator that can fail). */
    method Save(k: nat, c: Cart)
      requires k < |carts|
      modifies this
      ensures State() == old(State()).(carts := old(carts)[k := c.Doc()])
    {
      carts := carts[k := c.Doc()];
    }

    /** `cartModel.create(...)`: the new cart goes last in collection order. */
    method Create(c: Cart)
      modifies this
      ensures State() == old(State()).(carts := old(carts) + [c.Doc()])
    {
      carts := carts + [c.Doc()];
    }

    /** `$pull: { cartItems: { _id: lineId } }` on the k-th stored cart. */
    method PullLine(k: nat, lineId: Id)
      requires k < |carts|
      modifies this
      ensures State() == old(State()).(carts := old(carts)[k := old(carts)[k].(cartItems := Without(old(carts)[k].cartItems, lineId))])
    {
      carts := carts[k := carts[k].(cartItems := Without(carts[k].cartItems, lineId))];
    }

    /** Deletes the k-th stored cart. */
    method Delete(k: nat)
      requires k < |carts|
      modifies this
      ensures State() == old(State()).(carts := old(carts)[..k] + old(carts)[k + 1..])
    {
      carts := carts[..k] + carts[k + 1..];
    }
  }

  /** The lines whose id is not `lineId`. */
  function Without(lines: seq<CartLine>, lineId: Id): (r: seq<CartLine>)
    ensures forall l :: l in r <==> l in lines && l.id != lineId
  {
    Filter(lines, (l: CartLine) => l.id != lineId)
  }

  /** The pull keeps the order of the remaining lines: it works part by part over a concatenation. */
  lemma WithoutAppend(lines: seq<CartLine>, more: seq<CartLine>, lineId: Id)
    ensures Without(lines + more, lineId) == Without(lines, lineId) + Without(more, lineId)
  {
    FilterAppend(lines, more, (l: CartLine) => l.id != lineId);
  }

  /**
   * How a cart handler ends: a refused request leaves the collection as it
   * was; otherwise the collection is the one the request resolves to and the
   * answer is the caller's cart in it.
   */
  predicate Answered(before: CartState, after: CartState, user: Id, req: Result<CartState>, r: Result<CartDoc>) {
    if req.Fail? then r == Fail(req.failure) && after == before
    else after == req.value && UserCart(after.carts, user).Some? && r == Ok(after.carts[UserCart(after.carts, user).value])
  }

  /** The stock-bearing target of an add: the unit price to capture and the stock it may use. */
  datatype Offer = Offer(price: int, available: int)

  /**
   * The stock gate of `addProductToCart`. With variations and a truthy color
   * and size, the color/size variation must exist (404), be active (400) and
   * have at least one unit unreserved (400), and its price is captured;
   * otherwise the product itself must have a unit unreserved (400). The
   * captured price is `priceAfterDiscount || price`.
   */
  function OfferOf(products: map<Id, ProductDoc>, productId: Id, color: Option<string>, size: Option<string>): (r: Result<Offer>)
    ensures productId !in products ==> r == Fail(NotFound)
    ensures r.Fail? ==> r.failure == NotFound || r.failure == BadRequest
    ensures r.Ok? ==> r.value.available >= 1
  {
    if productId !in products then Fail(NotFound)
    else
      var p := products[productId];
      if p.hasVariations && Truthy(color) && Truthy(size) then
        match FindVariation(p.variations, ColorSize(color.value, size.value))
        case None => Fail(NotFound)
        case Some(k) =>
          var v := p.variations[k];
          if !v.isActive then Fail(BadRequest)
          else if v.quantity - v.reservedStock < 1 then Fail(BadRequest)
          else Ok(Offer(if v.priceAfterDiscount != 0 then v.priceAfterDiscount else v.price, v.quantity - v.reservedStock))
      else if p.quantity - p.reservedStock < 1 then Fail(BadRequest)
      else Ok(Offer(if p.priceAfterDiscount != 0 then p.priceAfterDiscount else p.price, p.quantity - p.reservedStock))
  }

  /**
   * The rules of the stock gate, for every product, color and size. On the
   * variation path (variations and a truthy color and size) the first
   * variation whose options are exactly that color and size decides: none is
   * 404, an inactive one or one without an unreserved unit is 400, and
   * otherwise its unreserved stock is offered at `priceAfterDiscount || price`.
   * On the plain path the product itself decides in the same way.
   */
  /** Variation k is the first with exactly these options. */
  predicate FirstWith(vs: seq<Variation>, want: map<string, string>, k: int) {
    0 <= k < |vs| && vs[k].options == want && forall j :: 0 <= j < k ==> vs[j].options != want
  }

  /** No variation has exactly these options. */
  predicate NoVariationWith(vs: seq<Variation>, want: map<string, string>) {
    forall k :: 0 <= k < |vs| ==> vs[k].options != want
  }

  lemma OfferRules(products: map<Id, ProductDoc>, productId: Id, color: Option<string>, size: Option<string>)
    ensures productId !in products ==> OfferOf(products, productId, color, size) == Fail(NotFound)
    ensures productId in products && products[productId].hasVariations && Truthy(color) && Truthy(size) ==>
      var vs, want := products[productId].variations, ColorSize(color.value, size.value);
      && (NoVariationWith(vs, want) ==> OfferOf(products, productId, color, size) == Fail(NotFound))
      && forall k :: FirstWith(vs, want, k) ==> var v := vs[k];
           OfferOf(products, productId, color, size) ==
             if !v.isActive || v.quantity - v.reservedStock < 1 then Fail(BadRequest)
             else Ok(Offer(if v.priceAfterDiscount != 0 then v.priceAfterDiscount else v.price, v.quantity - v.reservedStock))
    ensures productId in products && !(products[productId].hasVariations && Truthy(color) && Truthy(size)) ==>
      var p := products[productId];
      OfferOf(products, productId, color, size) ==
        if p.quantity - p.reservedStock < 1 then Fail(BadRequest)
        else Ok(Offer(if p.priceAfterDiscount != 0 then p.priceAfterDiscount else p.price, p.quantity - p.reservedStock))
  {
    if productId in products && products[productId].hasVariations && Truthy(color) && Truthy(size) {
      if NoVariationWith(products[productId].variations, ColorSize(color.value, size.value)) {
        OfferNoVariation(products, productId, color, size);
      }
      OfferFirstVariation(products, productId, color, size);
    }
  }

  /** The variation path: the first variation of exactly that color and size decides. */
  lemma OfferFirstVariation(products: map<Id, ProductDoc>, productId: Id, color: Option<string>, size: Option<string>)
    requires productId in products && products[productId].hasVariations && Truthy(color) && Truthy(size)
    ensures var vs, want := products[productId].variations, ColorSize(color.value, size.value);
      forall k :: FirstWith(vs, want, k) ==> var v := vs[k];
        OfferOf(products, productId, color, size) ==
          if !v.isActive || v.quantity - v.reservedStock < 1 then Fail(BadRequest)
          else Ok(Offer(if v.priceAfterDiscount != 0 then v.priceAfterDiscount else v.price, v.quantity - v.reservedStock))
  {
    var vs, want := products[productId].variations, ColorSize(color.value, size.value);
    forall k | FirstWith(vs, want, k)
      ensures var v := vs[k];
        OfferOf(products, productId, color, size) ==
          if !v.isActive || v.quantity - v.reservedStock < 1 then Fail(BadRequest)
          else Ok(Offer(if v.priceAfterDiscount != 0 then v.priceAfterDiscount else v.price, v.quantity - v.reservedStock))
    {
      OfferAtFirst(products, productId, color, size, k);
    }
  }

  /** One first variation k of exactly that color and size decides the offer. */
  lemma OfferAtFirst(products: map<Id, ProductDoc>, productId: Id, color: Option<string>, size: Option<string>, k: int)
    requires productId in products && products[productId].hasVariations && Truthy(color) && Truthy(size)
    requires FirstWith(products[productId].variations, ColorSize(color.value, size.value), k)
    ensures var v := products[productId].variations[k];
      OfferOf(products, productId, color, size) ==
        if !v.isActive || v.quantity - v.reservedStock < 1 then Fail(BadRequest)
        else Ok(Offer(if v.priceAfterDiscount != 0 then v.priceAfterDiscount else v.price, v.quantity - v.reservedStock))
  {
    FindVariationFirst(products[productId].variations, ColorSize(color.value, size.value), k);
  }

  /** The variation path with no variation of exactly that color and size. */
  lemma OfferNoVariation(products: map<Id, ProductDoc>, productId: Id, color: Option<string>, size: Option<string>)
    requires productId in products && products[productId].hasVariations && Truthy(color) && Truthy(size)
    requires NoVariationWith(products[productId].variations, ColorSize(color.value, size.value))
    ensures OfferOf(products, productId, color, size) == Fail(NotFound)
  {
    assert FindVariation(products[productId].variations, ColorSize(color.value, size.value)) == None;
  }

  /**
   * The line an add merges into: by variation id when one is given, else by
   * product, color and size. Stored lines carry no color or size, so the
   * second form matches only a request that gives neither.
   */
  function MatchLine(lines: seq<CartLine>, productId: Id, color: Option<string>, size: Option<string>, variationId: Option<Id>): (r: Option<nat>)
    ensures r.Some? ==> r.value < |lines|
    ensures r.Some? && variationId.Some? ==> lines[r.value].variationId == variationId
    ensures r.Some? && variationId.None? ==> lines[r.value].product == productId && color.None? && size.None?
    ensures r.None? && variationId.Some? ==> forall k :: 0 <= k < |lines| ==> lines[k].variationId != variationId
    ensures r.None? && variationId.None? && color.None? && size.None? ==> forall k :: 0 <= k < |lines| ==> lines[k].product != productId
  {
    if variationId.Some? then FirstIndex(lines, (l: CartLine) => l.variationId == variationId)
    else FirstIndex(lines, (l: CartLine) => l.product == productId && color.None? && size.None?)
  }

  /** A user without a cart gets a new one holding the single new line. */
  function NewCartState(st: CartState, user: Id, productId: Id, o: Offer, variationId: Option<Id>): CartState {
    var c := CartDoc(st.nextId, [NewLine(st.nextId + 1, productId, o.price, variationId)], user, 0, None, None);
    CartState(st.carts + [Priced(c)], st.nextId + 2)
  }

  /** The k-th cart after merging the add into it: a matching line gains one unit within the stock, else a line is appended. */
  function MergeState(st: CartState, k: nat, productId: Id, color: Option<string>, size: Option<string>, o: Offer, variationId: Option<Id>): Result<CartState>
    requires k < |st.carts|
  {
    var c := st.carts[k];
    match MatchLine(c.cartItems, productId, color, size, variationId)
    case Some(i) =>
      if c.cartItems[i].quantity + 1 > o.available then Fail(BadRequest)
      else Ok(st.(carts := st.carts[k := Priced(c.(cartItems := c.cartItems[i := c.cartItems[i].(quantity := c.cartItems[i].quantity + 1)]))]))
    case None =>
      var line := NewLine(st.nextId, productId, o.price, variationId);
      Ok(CartState(st.carts[k := Priced(c.(cartItems := c.cartItems + [line]))], st.nextId + 1))
  }

  /** addProductToCart as a function of the collection (and the products it reads). */
  function AddRequest(st: CartState, products: map<Id, ProductDoc>, user: Id, productId: Id, color: Option<string>, size: Option<string>, variationId: Option<Id>): (r: Result<CartState>)
    ensures OfferOf(products, productId, color, size).Fail? ==> r == Fail(OfferOf(products, productId, color, size).failure)
    ensures r.Fail? ==> r.failure == NotFound || r.failure == BadRequest
    ensures r.Ok? ==> |r.value.carts| == |st.carts| + (if UserCart(st.carts, user).None? then 1 else 0)
    ensures r.Ok? ==> forall k :: 0 <= k < |st.carts| && st.carts[k].user != user ==> r.value.carts[k] == st.carts[k]
  {
    match OfferOf(products, productId, color, size)
    case Fail(f) => Fail(f)
    case Ok(o) =>
      match UserCart(st.carts, user)
      case None => Ok(NewCartState(st, user, productId, o, variationId))
      case Some(k) => MergeState(st, k, productId, color, size, o, variationId)
  }

  method AddProductToCart(store: CartStore, products: map<Id, ProductDoc>, user: Id, productId: Id,
                          color: Option<string>, size: Option<string>, variationId: Option<Id>) returns (r: Result<CartDoc>)
    modifies store
    ensures Answered(old(store.State()), store.State(), user, AddRequest(old(store.State()), products, user, productId, color, size, variationId), r)
  {
    var offer := OfferOf(products, productId, color, size);
    if offer.Fail? {
      return Fail(offer.failure);
    }
    var found := UserCart(store.carts, user);
    if found.None? {
      r := AddToNewCart(store, user, productId, offer.value, variationId);
    } else {
      r := AddToCart(store, found.value, user, productId, color, size, offer.value, variationId);
    }
  }

  method AddToNewCart(store: CartStore, user: Id, productId: Id, o: Offer, variationId: Option<Id>) returns (r: Result<CartDoc>)
    requires UserCart(store.carts, user).None?
    modifies store
    ensures Answered(old(store.State()), store.State(), user, Ok(NewCartState(old(store.State()), user, productId, o, variationId)), r)
  {
    ghost var st := store.State();
    var cartId := store.NewId();
    var lineId := store.NewId();
    var c := new Cart.FromDoc(CartDoc(cartId, [NewLine(lineId, productId, o.price, variationId)], user, 0, None, None));
    c.CalculatePrice();
    store.Create(c);
    UserCartAppend(st.carts, c.Doc());
    r := Ok(c.Doc());
  }

  /** `await cart.save()` closing a handler whose request resolved to `req`, answering with the saved cart. */
  method CommitCart(store: CartStore, k: nat, c: Cart, user: Id, ghost req: Result<CartState>) returns (r: Result<CartDoc>)
    requires UserCart(store.carts, user) == Some(k) && c.user == user
    requires req == Ok(store.State().(carts := store.carts[k := c.Doc()]))
    modifies store
    ensures Answered(old(store.State()), store.State(), user, req, r)
  {
    ghost var before := store.carts;
    store.Save(k, c);
    UserCartReplace(before, user, c.Doc());
    r := Ok(c.Doc());
  }

  /** MergeState when the line is already in the cart and one more unit is available. */
  lemma MergeBumps(st: CartState, k: nat, productId: Id, color: Option<string>, size: Option<string>, o: Offer, variationId: Option<Id>, i: nat)
    requires k < |st.carts|
    requires MatchLine(st.carts[k].cartItems, productId, color, size, variationId) == Some(i)
    requires st.carts[k].cartItems[i].quantity + 1 <= o.available
    ensures var c := st.carts[k];
      MergeState(st, k, productId, color, size, o, variationId)
        == Ok(st.(carts := st.carts[k := Priced(c.(cartItems := c.cartItems[i := c.cartItems[i].(quantity := c.cartItems[i].quantity + 1)]))]))
  {
  }

  /** MergeState when the line is already in the cart and no further unit is available. */
  lemma MergeRefuses(st: CartState, k: nat, productId: Id, color: Option<string>, size: Option<string>, o: Offer, variationId: Option<Id>, i: nat)
    requires k < |st.carts|
    requires MatchLine(st.carts[k].cartItems, productId, color, size, variationId) == Some(i)
    requires st.carts[k].cartItems[i].quantity + 1 > o.available
    ensures MergeState(st, k, productId, color, size, o, variationId) == Fail(BadRequest)
  {
  }

  /** MergeState when the line is new to the cart. */
  lemma MergeAppends(st: CartState, k: nat, productId: Id, color: Option<string>, size: Option<string>, o: Offer, variationId: Option<Id>)
    requires k < |st.carts|
    requires MatchLine(st.carts[k].cartItems, productId, color, size, variationId).None?
    ensures var c := st.carts[k];
      MergeState(st, k, productId, color, size, o, variationId)
        == Ok(CartState(st.carts[k := Priced(c.(cartItems := c.cartItems + [NewLine(st.nextId, productId, o.price, variationId)]))], st.nextId + 1))
  {
  }

  /** `cartItems[itemIndex].quantity += 1`, then the totals and `cart.save()`. */
  method BumpLine(store: CartStore, k: nat, c: Cart, i: nat, user: Id, ghost req: Result<CartState>) returns (r: Result<CartDoc>)
    requires UserCart(store.carts, user) == Some(k) && c.Doc() == store.carts[k] && i < |c.cartItems|
    requires var d := c.Doc();
      req == Ok(store.State().(carts := store.carts[k := Priced(d.(cartItems := d.cartItems[i := d.cartItems[i].(quantity := d.cartItems[i].quantity + 1)]))]))
    modifies store, c
    ensures Answered(old(store.State()), store.State(), user, req, r)
  {
    c.SetLineQuantity(i, c.cartItems[i].quantity + 1);
    ghost var lined := c.Doc();
    c.CalculatePrice();
    r := CommitCart(store, k, c, user, Ok(store.State().(carts := store.carts[k := Priced(lined)])));
  }

  /** `cartItems.push(...)` of a new line with a fresh id, then the totals and `cart.save()`. */
  method AppendLine(store: CartStore, k: nat, c: Cart, productId: Id, price: int, variationId: Option<Id>, user: Id, ghost req: Result<CartState>)
    returns (r: Result<CartDoc>)
    requires UserCart(store.carts, user) == Some(k) && c.Doc() == store.carts[k]
    requires var d := c.Doc();
      req == Ok(CartState(store.carts[k := Priced(d.(cartItems := d.cartItems + [NewLine(store.nextId, productId, price, variationId)]))], store.nextId + 1))
    modifies store, c
    ensures Answered(old(store.State()), store.State(), user, req, r)
  {
    var lineId := store.NewId();
    c.PushLine(NewLine(lineId, productId, price, variationId));
    ghost var lined := c.Doc();
    c.CalculatePrice();
    r := CommitCart(store, k, c, user, Ok(store.State().(carts := store.carts[k := Priced(lined)])));
  }

  method AddToCart(store: CartStore, k: nat, user: Id, productId: Id, color: Option<string>, size: Option<string>, o: Offer, variationId: Option<Id>)
    returns (r: Result<CartDoc>)
    requires UserCart(store.carts, user) == Some(k)
    modifies store
    ensures Answered(old(store.State()), store.State(), user, MergeState(old(store.State()), k, productId, color, size, o, variationId), r)
  {
    ghost var st := store.State();
    ghost var req := MergeState(st, k, productId, color, size, o, variationId);
    var c := store.Load(k);
    var i := MatchLine(c.cartItems, productId, color, size, variationId);
    if i.Some? {
      if c.cartItems[i.value].quantity + 1 > o.available {
        MergeRefuses(st, k, productId, color, size, o, variationId, i.value);
        return Fail(BadRequest);
      }
      MergeBumps(st, k, productId, color, size, o, variationId, i.value);
      r := BumpLine(store, k, c, i.value, user, req);
    } else {
      MergeAppends(st, k, productId, color, size, o, variationId);
      r := AppendLine(store, k, c, productId, o.price, variationId, user, req);
    }
  }

  /** The cart line with that `_id`, as `findIndex` finds it. */
  function LineIndex(lines: seq<CartLine>, lineId: Id): (r: Option<nat>)
    ensures r.None? <==> forall j :: 0 <= j < |lines| ==> lines[j].id != lineId
    ensures r.Some? ==> r.value < |lines| && lines[r.value].id == lineId
  {
    FirstIndex(lines, (l: CartLine) => l.id == lineId)
  }

  /**
   * updateProductQuantityInCart: the line's quantity becomes exactly the
   * requested one, with no stock check, and the totals are recomputed; no
   * cart or no such line is a 404.
   */
  function UpdateQuantityRequest(st: CartState, user: Id, lineId: Id, q: int): (r: Result<CartState>)
    ensures r.Fail? <==> UserCart(st.carts, user).None? || LineIndex(st.carts[UserCart(st.carts, user).value].cartItems, lineId).None?
    ensures r.Fail? ==> r.failure == NotFound
    ensures r.Ok? ==> |r.value.carts| == |st.carts| && r.value.nextId == st.nextId
    ensures r.Ok? ==> forall k :: 0 <= k < |st.carts| && st.carts[k].user != user ==> r.value.carts[k] == st.carts[k]
  {
    match UserCart(st.carts, user)
    case None => Fail(NotFound)
    case Some(k) =>
      var c := st.carts[k];
      match LineIndex(c.cartItems, lineId)
      case None => Fail(NotFound)
      case Some(i) => Ok(st.(carts := st.carts[k := Priced(c.(cartItems := c.cartItems[i := c.cartItems[i].(quantity := q)]))]))
  }

  method UpdateProductQuantityInCart(store: CartStore, user: Id, lineId: Id, q: int) returns (r: Result<CartDoc>)
    modifies store
    ensures Answered(old(store.State()), store.State(), user, UpdateQuantityRequest(old(store.State()), user, lineId, q), r)
  {
    ghost var req := UpdateQuantityRequest(store.State(), user, lineId, q);
    var found := UserCart(store.carts, user);
    if found.None? {
      return Fail(NotFound);
    }
    var k := found.value;
    var c := store.Load(k);
    var i := LineIndex(c.cartItems, lineId);
    if i.None? {
      return Fail(NotFound);
    }
    c.SetLineQuantity(i.value, q);
    c.CalculatePrice();
    r := CommitCart(store, k, c, user, req);
  }

  /**
   * removeProductFromCart: every line with that id is pulled and the totals
   * are recomputed; an absent id only recomputes. With no cart the handler
   * passes its 404 and its message to the error constructor in swapped
   * order, so the answer is not the intended 404; it is modelled as
   * `ServerError`.
   */
  function RemoveRequest(st: CartState, user: Id, lineId: Id): (r: Result<CartState>)
    ensures r.Fail? <==> UserCart(st.carts, user).None?
    ensures r.Fail? ==> r.failure == ServerError
    ensures r.Ok? ==> |r.value.carts| == |st.carts| && r.value.nextId == st.nextId
    ensures r.Ok? ==> forall k :: 0 <= k < |st.carts| && st.carts[k].user != user ==> r.value.carts[k] == st.carts[k]
  {
    match UserCart(st.carts, user)
    case None => Fail(ServerError)
    case Some(k) =>
      var c := st.carts[k];
      Ok(st.(carts := st.carts[k := Priced(c.(cartItems := Without(c.cartItems, lineId)))]))
  }

  method RemoveProductFromCart(store: CartStore, user: Id, lineId: Id) returns (r: Result<CartDoc>)
    modifies store
    ensures Answered(old(store.State()), store.State(), user, RemoveRequest(old(store.State()), user, lineId), r)
  {
    ghost var st := store.State();
    ghost var req := RemoveRequest(st, user, lineId);
    var found := UserCart(store.carts, user);
    if found.None? {
      return Fail(ServerError);
    }
    var k := found.value;
    store.PullLine(k, lineId);
    UserCartReplace(st.carts, user, store.carts[k]);
    var c := store.Load(k);
    c.CalculatePrice();
    assert store.carts[k := c.Doc()] == st.carts[k := c.Doc()];
    r := CommitCart(store, k, c, user, req);
  }

  /** clearCart: `findOneAndDelete({ user })` removes the user's first cart, if any; the answer is always 202. */
  function ClearRequest(st: CartState, user: Id): (r: CartState)
    ensures UserCart(st.carts, user).None? ==> r == st
    ensures |r.carts| == |st.carts| - (if UserCart(st.carts, user).Some? then 1 else 0) && r.nextId == st.nextId
    ensures forall c :: c in r.carts ==> c in st.carts
  {
    match UserCart(st.carts, user)
    case None => st
    case Some(k) => st.(carts := st.carts[..k] + st.carts[k + 1..])
  }

  method ClearCart(store: CartStore, user: Id)
    modifies store
    ensures store.State() == ClearRequest(old(store.State()), user)
  {
    var found := UserCart(store.carts, user);
    if found.Some? {
      store.Delete(found.value);
    }
  }

  /** A coupon record: its code, its expiry instant and its discount percentage. */
  datatype Coupon = Coupon(code: string, expire: Time, discount: int)

  /** `couponModel.findOne({ code, expire: { $gt: now } })`. */
  function LiveCoupon(coupons: seq<Coupon>, code: string, now: Time): (r: Option<nat>)
    ensures r.None? <==> forall j :: 0 <= j < |coupons| ==> !(coupons[j].code == code && coupons[j].expire > now)
    ensures r.Some? ==> r.value < |coupons| && coupons[r.value].code == code && coupons[r.value].expire > now
  {
    FirstIndex(coupons, (c: Coupon) => c.code == code && c.expire > now)
  }

  /** `Math.ceil(total * (1 - discount / 100) / 5) * 5`, exactly: the least multiple of five not below the discounted total. */
  function CouponTotal(total: int, discount: int): (r: int)
    ensures r % 5 == 0
    ensures 100 * (r - 5) < total * (100 - discount) <= 100 * r
  {
    CeilDiv(total * (100 - discount), 500) * 5
  }

  /**
   * applyCouponToCart: an unknown or expired code is a 400 and a missing
   * cart a 404; otherwise only the discounted total is set, from the stored
   * total.
   */
  function CouponRequest(st: CartState, coupons: seq<Coupon>, user: Id, code: string, now: Time): (r: Result<CartState>)
    ensures r == Fail(BadRequest) <==> LiveCoupon(coupons, code, now).None?
    ensures r == Fail(NotFound) <==> LiveCoupon(coupons, code, now).Some? && UserCart(st.carts, user).None?
    ensures r.Ok? ==> |r.value.carts| == |st.carts| && r.value.nextId == st.nextId
    ensures r.Ok? ==> forall k :: 0 <= k < |st.carts| && st.carts[k].user != user ==> r.value.carts[k] == st.carts[k]
    ensures r.Ok? ==> var k := UserCart(st.carts, user).value;
      r.value.carts[k] == st.carts[k].(totalPriceAfterDiscount := r.value.carts[k].totalPriceAfterDiscount)
  {
    match LiveCoupon(coupons, code, now)
    case None => Fail(BadRequest)
    case Some(j) =>
      match UserCart(st.carts, user)
      case None => Fail(NotFound)
      case Some(k) =>
        var c := st.carts[k];
        Ok(st.(carts := st.carts[k := c.(totalPriceAfterDiscount := Some(CouponTotal(c.totalPrice, coupons[j].discount)))]))
  }

  method ApplyCouponToCart(store: CartStore, coupons: seq<Coupon>, user: Id, code: string, now: Time) returns (r: Result<CartDoc>)
    modifies store
    ensures Answered(old(store.State()), store.State(), user, CouponRequest(old(store.State()), coupons, user, code, now), r)
  {
    ghost var req := CouponRequest(store.State(), coupons, user, code, now);
    var coupon := LiveCoupon(coupons, code, now);
    if coupon.None? {
      return Fail(BadRequest);
    }
    var found := UserCart(store.carts, user);
    if found.None? {
      return Fail(NotFound);
    }
    var k := found.value;
    var c := store.Load(k);
    c.SetDiscountedTotal(CouponTotal(c.totalPrice, coupons[coupon.value].discount));
    r := CommitCart(store, k, c, user, req);
  }

  /** The caller's cart after a request that resolved to `st`. */
  function CartOf(st: CartState, user: Id): CartDoc
    requires UserCart(st.carts, user).Some?
  {
    st.carts[UserCart(st.carts, user).value]
  }

  /**
   * A successful add leaves the caller with a cart whose total is rounded
   * and undiscounted. A first add creates one cart of one line of quantity
   * 1; a later add grows the caller's cart by at most one line.
   */
  lemma AddGrowsByAtMostOne(st: CartState, products: map<Id, ProductDoc>, user: Id, productId: Id,
                            color: Option<string>, size: Option<string>, variationId: Option<Id>)
    requires AddRequest(st, products, user, productId, color, size, variationId).Ok?
    ensures var after := AddRequest(st, products, user, productId, color, size, variationId).value;
      UserCart(after.carts, user).Some? &&
      var c := CartOf(after, user);
      c.totalPrice % 5 == 0 && LinesTotal(c.cartItems) <= c.totalPrice < LinesTotal(c.cartItems) + 5 &&
      c.totalPriceAfterDiscount.None? &&
      (UserCart(st.carts, user).None? ==>
        (|after.carts| == |st.carts| + 1 && |c.cartItems| == 1 &&
         c.cartItems[0].quantity == 1 && c.cartItems[0].product == productId)) &&
      (UserCart(st.carts, user).Some? ==>
        (|after.carts| == |st.carts| &&
         |CartOf(st, user).cartItems| <= |c.cartItems| <= |CartOf(st, user).cartItems| + 1))
  {
    var o := OfferOf(products, productId, color, size).value;
    match UserCart(st.carts, user)
    case None =>
      assert AddRequest(st, products, user, productId, color, size, variationId) == Ok(NewCartState(st, user, productId, o, variationId));
      NewCartShape(st, user, productId, o, variationId);
    case Some(k) =>
      assert AddRequest(st, products, user, productId, color, size, variationId) == MergeState(st, k, productId, color, size, o, variationId);
      MergeShape(st, k, user, productId, color, size, o, variationId);
  }

  lemma NewCartShape(st: CartState, user: Id, productId: Id, o: Offer, variationId: Option<Id>)
    requires UserCart(st.carts, user).None?
    ensures var after := NewCartState(st, user, productId, o, variationId);
      UserCart(after.carts, user) == Some(|st.carts|) &&
      var c := CartOf(after, user);
      c == Priced(c) && |after.carts| == |st.carts| + 1 && |c.cartItems| == 1 &&
      c.cartItems[0].quantity == 1 && c.cartItems[0].product == productId
  {
    var after := NewCartState(st, user, productId, o, variationId);
    UserCartAppend(st.carts, after.carts[|st.carts|]);
  }

  lemma MergeShape(st: CartState, k: nat, user: Id, productId: Id, color: Option<string>, size: Option<string>, o: Offer, variationId: Option<Id>)
    requires UserCart(st.carts, user) == Some(k)
    requires MergeState(st, k, productId, color, size, o, variationId).Ok?
    ensures var after := MergeState(st, k, productId, color, size, o, variationId).value;
      UserCart(after.carts, user) == Some(k) &&
      var c := CartOf(after, user);
      c == Priced(c) && |after.carts| == |st.carts| &&
      |st.carts[k].cartItems| <= |c.cartItems| <= |st.carts[k].cartItems| + 1
  {
    var after := MergeState(st, k, productId, color, size, o, variationId).value;
    UserCartReplace(st.carts, user, after.carts[k]);
  }

  /**
   * When the add matches a line of the caller's cart, it succeeds exactly
   * when one more unit stays within the available stock, and then that
   * line gains one unit and every other line stays as it was.
   */
  lemma AddMergeWithinStock(st: CartState, products: map<Id, ProductDoc>, user: Id, productId: Id,
                            color: Option<string>, size: Option<string>, variationId: Option<Id>, i: nat)
    requires OfferOf(products, productId, color, size).Ok? && UserCart(st.carts, user).Some?
    requires MatchLine(CartOf(st, user).cartItems, productId, color, size, variationId) == Some(i)
    ensures var r := AddRequest(st, products, user, productId, color, size, variationId);
      var lines := CartOf(st, user).cartItems;
      (r.Ok? <==> lines[i].quantity + 1 <= OfferOf(products, productId, color, size).value.available) &&
      (r.Ok? ==> (UserCart(r.value.carts, user).Some? &&
        var lines' := CartOf(r.value, user).cartItems;
        |lines'| == |lines| && lines'[i].quantity == lines[i].quantity + 1 &&
        forall j :: 0 <= j < |lines| && j != i ==> lines'[j] == lines[j]))
  {
    var r := AddRequest(st, products, user, productId, color, size, variationId);
    if r.Ok? {
      var k := UserCart(st.carts, user).value;
      UserCartReplace(st.carts, user, r.value.carts[k]);
    }
  }

  /**
   * Stored lines carry no color or size, so an add that names a color and
   * no variation id never merges: each successful add to an existing cart
   * appends a fresh line of quantity 1.
   */
  lemma AddWithColorAppends(st: CartState, products: map<Id, ProductDoc>, user: Id, productId: Id,
                            color: string, size: Option<string>)
    requires UserCart(st.carts, user).Some?
    requires AddRequest(st, products, user, productId, Some(color), size, None).Ok?
    ensures var after := AddRequest(st, products, user, productId, Some(color), size, None).value;
      UserCart(after.carts, user).Some? &&
      var lines := CartOf(st, user).cartItems;
      var lines' := CartOf(after, user).cartItems;
      lines' == lines + [NewLine(st.nextId, productId, OfferOf(products, productId, Some(color), size).value.price, None)]
  {
    var k := UserCart(st.carts, user).value;
    var after := AddRequest(st, products, user, productId, Some(color), size, None).value;
    UserCartReplace(st.carts, user, after.carts[k]);
  }

  /** After a successful add naming a variation id, the caller's cart holds a line with that id. */
  lemma AddHoldsVariationId(st: CartState, products: map<Id, ProductDoc>, user: Id, productId: Id,
                            color: Option<string>, size: Option<string>, vid: Id)
    requires AddRequest(st, products, user, productId, color, size, Some(vid)).Ok?
    ensures var once := AddRequest(st, products, user, productId, color, size, Some(vid)).value;
      UserCart(once.carts, user).Some? &&
      exists j :: 0 <= j < |CartOf(once, user).cartItems| && CartOf(once, user).cartItems[j].variationId == Some(vid)
  {
    var once := AddRequest(st, products, user, productId, color, size, Some(vid)).value;
    var o := OfferOf(products, productId, color, size).value;
    match UserCart(st.carts, user)
    case None =>
      assert once == NewCartState(st, user, productId, o, Some(vid));
      UserCartAppend(st.carts, once.carts[|st.carts|]);
      assert CartOf(once, user).cartItems[0].variationId == Some(vid);
    case Some(k0) =>
      assert Ok(once) == MergeState(st, k0, productId, color, size, o, Some(vid));
      UserCartReplace(st.carts, user, once.carts[k0]);
      var lines := CartOf(once, user).cartItems;
      var old_lines := st.carts[k0].cartItems;
      match MatchLine(old_lines, productId, color, size, Some(vid))
      case Some(i) =>
        assert lines[i].variationId == Some(vid);
      case None =>
        assert lines == old_lines + [NewLine(st.nextId, productId, o.price, Some(vid))];
        assert lines[|old_lines|].variationId == Some(vid);
  }

  /**
   * Adding the same variation id twice merges: the second successful add
   * leaves the caller's cart with as many lines as the first did.
   */
  lemma AddByVariationIdTwiceMerges(st: CartState, products: map<Id, ProductDoc>, user: Id, productId: Id,
                                    color: Option<string>, size: Option<string>, vid: Id)
    requires AddRequest(st, products, user, productId, color, size, Some(vid)).Ok?
    ensures var once := AddRequest(st, products, user, productId, color, size, Some(vid)).value;
      var twice := AddRequest(once, products, user, productId, color, size, Some(vid));
      UserCart(once.carts, user).Some? &&
      (twice.Ok? ==> (UserCart(twice.value.carts, user).Some? &&
        |CartOf(twice.value, user).cartItems| == |CartOf(once, user).cartItems|))
  {
    var once := AddRequest(st, products, user, productId, color, size, Some(vid)).value;
    AddHoldsVariationId(st, products, user, productId, color, size, vid);
    var lines := CartOf(once, user).cartItems;
    var m := MatchLine(lines, productId, color, size, Some(vid));
    AddMergeWithinStock(once, products, user, productId, color, size, Some(vid), m.value);
  }

  /**
   * Setting a quantity succeeds exactly when the caller has a cart holding
   * that line, whatever the quantity and the stock; it changes that line's
   * quantity and no other line.
   */
  lemma UpdateIgnoresStock(st: CartState, user: Id, lineId: Id, q: int)
    ensures var r := UpdateQuantityRequest(st, user, lineId, q);
      (r.Ok? <==> UserCart(st.carts, user).Some? && exists j :: 0 <= j < |CartOf(st, user).cartItems| && CartOf(st, user).cartItems[j].id == lineId) &&
      (r.Ok? ==> (UserCart(r.value.carts, user).Some? &&
        var lines := CartOf(st, user).cartItems;
        var lines' := CartOf(r.value, user).cartItems;
        var i := LineIndex(lines, lineId).value;
        |lines'| == |lines| && lines'[i].quantity == q && lines'[i].(quantity := lines[i].quantity) == lines[i] &&
        (forall j :: 0 <= j < |lines| && j != i ==> lines'[j] == lines[j]) &&
        |r.value.carts| == |st.carts|))
  {
    var r := UpdateQuantityRequest(st, user, lineId, q);
    if UserCart(st.carts, user).Some? {
      var k := UserCart(st.carts, user).value;
      var lines := CartOf(st, user).cartItems;
      if r.Ok? {
        UserCartReplace(st.carts, user, r.value.carts[k]);
      } else {
        assert LineIndex(lines, lineId).None?;
      }
    }
  }

  /**
   * Removing keeps exactly the lines with another id, and removing an id the
   * cart does not hold changes no line.
   */
  lemma RemoveOnlyThatLine(st: CartState, user: Id, lineId: Id)
    ensures var r := RemoveRequest(st, user, lineId);
      (r.Ok? <==> UserCart(st.carts, user).Some?) &&
      (r.Ok? ==> (UserCart(r.value.carts, user).Some? &&
        var lines := CartOf(st, user).cartItems;
        var lines' := CartOf(r.value, user).cartItems;
        (forall l :: l in lines' <==> l in lines && l.id != lineId) &&
        ((forall j :: 0 <= j < |lines| ==> lines[j].id != lineId) ==> lines' == lines)))
  {
    var r := RemoveRequest(st, user, lineId);
    if r.Ok? {
      var k := UserCart(st.carts, user).value;
      UserCartReplace(st.carts, user, r.value.carts[k]);
      var lines := CartOf(st, user).cartItems;
      if forall j :: 0 <= j < |lines| ==> lines[j].id != lineId {
        FilterAll(lines, (l: CartLine) => l.id != lineId);
      }
    }
  }

  /**
   * `user` is not unique, so clearing deletes only the caller's first cart:
   * a caller holding two carts still has one afterwards.
   */
  lemma ClearLeavesSecondCart(st: CartState, user: Id, i: nat, j: nat)
    requires i < j < |st.carts| && st.carts[i].user == user && st.carts[j].user == user
    ensures var after := ClearRequest(st, user);
      |after.carts| == |st.carts| - 1 && UserCart(after.carts, user).Some?
  {
    var k := UserCart(st.carts, user).value;
    var after := ClearRequest(st, user);
    assert after.carts[j - 1] == st.carts[j];
  }

  /** A coupon of 0-100 % on a non-negative multiple of five gives a total between 0 and that total. */
  lemma CouponTotalBounds(total: int, discount: int)
    requires total >= 0 && total % 5 == 0 && 0 <= discount <= 100
    ensures 0 <= CouponTotal(total, discount) <= total
  {
    var t := CouponTotal(total, discount);
    assert 0 <= total * (100 - discount) <= total * 100 by {
      assert total * (100 - discount) == total * 100 - total * discount;
      assert total * discount >= 0;
    }
    assert t - 5 < total;
    assert t == 5 * (t / 5) && total == 5 * (total / 5);
  }

  /** A coupon of 0-100 % neither raises a rounded total nor makes it negative, and keeps the lines and the total. */
  lemma CouponNeverRaises(st: CartState, coupons: seq<Coupon>, user: Id, code: string, now: Time)
    requires var c := LiveCoupon(coupons, code, now); c.Some? ==> 0 <= coupons[c.value].discount <= 100
    requires UserCart(st.carts, user).Some? ==> CartOf(st, user).totalPrice >= 0 && CartOf(st, user).totalPrice % 5 == 0
    ensures var r := CouponRequest(st, coupons, user, code, now);
      (r.Ok? <==> LiveCoupon(coupons, code, now).Some? && UserCart(st.carts, user).Some?) &&
      (r.Ok? ==> (UserCart(r.value.carts, user).Some? &&
        var c := CartOf(st, user);
        var c' := CartOf(r.value, user);
        c'.cartItems == c.cartItems && c'.totalPrice == c.totalPrice &&
        c'.totalPriceAfterDiscount.Some? && 0 <= c'.totalPriceAfterDiscount.value <= c.totalPrice))
  {
    var r := CouponRequest(st, coupons, user, code, now);
    if r.Ok? {
      var k := UserCart(st.carts, user).value;
      UserCartReplace(st.carts, user, r.value.carts[k]);
      var c := CartOf(st, user);
      CouponTotalBounds(c.totalPrice, coupons[LiveCoupon(coupons, code, now).value].discount);
    }
  }

  /** Two lines at 12 x 1 and 13 x 2 sum to 38, which rounds up to 40. */
  lemma TwoLineTotal(c: CartDoc)
    requires |c.cartItems| == 2
    requires c.cartItems[0].price == 12 && c.cartItems[0].quantity == 1
    requires c.cartItems[1].price == 13 && c.cartItems[1].quantity == 2
    ensures Priced(c).totalPrice == 40
  {
    var items := c.cartItems;
    assert items[..1][..0] == [];
    assert LinesTotal(items[..1]) == Sum(items[..1][..0], LineAmount) + LineAmount(items[0]);
    assert LinesTotal(items[..1]) == 12;
    assert items[..|items| - 1] == items[..1];
    assert LinesTotal(items) == 38;
  }

  /** A 20 % coupon on a total of 40 gives ceil(32 / 5) * 5 = 35. */
  lemma TwentyPercentOfForty()
    ensures CouponTotal(40, 20) == 35
  {
  }
}
