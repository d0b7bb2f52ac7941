/**
 * The product document: its schema bounds, the pre-save hook that derives the
 * discounted price and the low-stock flag, the `availableStock` virtual, and
 * the stock ledger methods (reserve, release, consume) that change the
 * document in place and append to its stock history.
 *
 * A stored product is a `ProductDoc` record held by `ProductStore`; a handler
 * loads it into a `Product` object, changes the object and saves it back,
 * which runs validation, then the pre-save hook.
 */
module ProductModel {
  import opened Base
  import opened Listing

  datatype StockKind = Purchase | Sale | Return | Adjustment | Reserved | Released

  datatype StockEntry = StockEntry(
    kind: StockKind,
    quantity: int,
    orderId: Option<Id>,
    notes: Option<string>,
    changedBy: Option<Id>,
    changedAt: Time)

  datatype PriceEntry = PriceEntry(
    price: int,
    discountPercentage: int,
    priceAfterDiscount: int,
    changedBy: Option<Id>,
    reason: Option<string>,
    changedAt: Time)

  datatype PublishStatus = Draft | Published

  /**
   * One sellable variation of a product. `options` maps an option name to its
   * value; the two-axis form uses the names "color" and "size". A
   * `priceAfterDiscount` of 0 means the field is unset.
   */
  datatype Variation = Variation(
    id: Id,
    options: map<string, string>,
    sku: string,
    price: int,
    discountPercentage: int,
    priceAfterDiscount: int,
    quantity: int,
    reservedStock: int,
    lowStockThreshold: int,
    image: string,
    isActive: bool)

  /**
   * A stored product. Prices are whole currency units and percentages whole
   * numbers. `nextVariationId` stands for the ObjectId generator of the
   * embedded variations: every stored variation id is below it.
   */
  datatype ProductDoc = ProductDoc(
    id: Id,
    title: string,
    description: string,
    sku: Option<string>,
    category: Option<Id>,
    seller: Option<Id>,
    imageCover: string,
    status: PublishStatus,
    quantity: int,
    sold: int,
    price: int,
    discountPercentage: int,
    priceAfterDiscount: int,
    reservedStock: int,
    lowStockThreshold: int,
    isLowStock: bool,
    colors: seq<string>,
    sizes: seq<string>,
    hasVariations: bool,
    axes: seq<string>,
    variations: seq<Variation>,
    nextVariationId: Id,
    priceHistory: seq<PriceEntry>,
    stockHistory: seq<StockEntry>)

  /** The `availableStock` virtual: on-hand minus reserved, never below zero. */
  function AvailableStock(quantity: int, reserved: int): (r: int)
    ensures r >= 0 && r >= quantity - reserved
    ensures r == 0 || r == quantity - reserved
  {
    if quantity - reserved > 0 then quantity - reserved else 0
  }

  /** `Math.ceil(price * (1 - discount / 100))`, computed exactly. */
  function DiscountedPrice(price: int, discount: int): (r: int)
    ensures 100 * (r - 1) < price * (100 - discount) <= 100 * r
  {
    CeilDiv(price * (100 - discount), 100)
  }

  /** A discount within 0..100 never raises a non-negative price and 0% keeps it. */
  lemma DiscountedPriceBounds(price: int, discount: int)
    requires price >= 0 && 0 <= discount <= 100
    ensures 0 <= DiscountedPrice(price, discount) <= price
    ensures discount == 0 ==> DiscountedPrice(price, discount) == price
  {
    var r := DiscountedPrice(price, discount);
    assert 0 <= price * (100 - discount) <= price * 100 by {
      assert price * (100 - discount) == price * 100 - price * discount;
      assert price * discount >= 0;
    }
  }

  predicate LowStock(quantity: int, reserved: int, threshold: int) {
    quantity - reserved <= threshold
  }

  /** The schema's validators on the modelled paths (validation runs before the pre-save hook). */
  predicate SchemaValid(d: ProductDoc) {
    && 3 <= |d.title| <= 100
    && 10 <= |d.description| <= 500
    && d.category.Some?
    && d.imageCover != ""
    && d.quantity >= 1
    && d.price <= 250000
    && 0 <= d.discountPercentage <= 100
    && d.priceAfterDiscount <= 2000000
    && d.reservedStock >= 0
    && d.lowStockThreshold >= 0
  }

  /**
   * The pre-save hook: only the discounted price and the low-stock flag are
   * derived, and afterwards the flag agrees with the stock (computed on the
   * unclamped difference quantity - reservedStock).
   */
  function PreSave(d: ProductDoc): (r: ProductDoc)
    ensures r.(priceAfterDiscount := d.priceAfterDiscount, isLowStock := d.isLowStock) == d
    ensures r.isLowStock <==> r.quantity - r.reservedStock <= r.lowStockThreshold
    ensures d.price != 0 || d.discountPercentage != 0 ==>
      100 * (r.priceAfterDiscount - 1) < r.price * (100 - r.discountPercentage) <= 100 * r.priceAfterDiscount
    ensures d.price == 0 && d.discountPercentage == 0 ==> r.priceAfterDiscount == d.priceAfterDiscount
  {
    var pad := if d.price != 0 || d.discountPercentage != 0
      then DiscountedPrice(d.price, d.discountPercentage) else d.priceAfterDiscount;
    d.(priceAfterDiscount := pad, isLowStock := LowStock(d.quantity, d.reservedStock, d.lowStockThreshold))
  }

  /** Saving twice is the same as saving once. */
  lemma PreSaveIdempotent(d: ProductDoc)
    ensures PreSave(PreSave(d)) == PreSave(d)
  {
  }

  /** `addPriceHistory`: one entry with the given price and its exact discounted price. */
  function AddPriceEntry(d: ProductDoc, price: int, discount: int, changedBy: Option<Id>, reason: Option<string>, now: Time): (r: ProductDoc)
    ensures r.(priceHistory := d.priceHistory) == d
    ensures |r.priceHistory| == |d.priceHistory| + 1 && r.priceHistory[..|d.priceHistory|] == d.priceHistory
    ensures var e := r.priceHistory[|d.priceHistory|];
      e.price == price && e.discountPercentage == discount && e.priceAfterDiscount == DiscountedPrice(price, discount)
  {
    d.(priceHistory := d.priceHistory + [PriceEntry(price, discount, DiscountedPrice(price, discount), changedBy, reason, now)])
  }

  /** `addStockHistory`: one entry appended, nothing else changes. */
  function AddStockEntry(d: ProductDoc, kind: StockKind, quantity: int, orderId: Option<Id>, notes: Option<string>, changedBy: Option<Id>, now: Time): (r: ProductDoc)
    ensures r.(stockHistory := d.stockHistory) == d
    ensures r.stockHistory == d.stockHistory + [StockEntry(kind, quantity, orderId, notes, changedBy, now)]
  {
    d.(stockHistory := d.stockHistory + [StockEntry(kind, quantity, orderId, notes, changedBy, now)])
  }

  /** On-hand stock covers the reservations and neither is negative. */
  predicate StockBounded(d: ProductDoc) {
    0 <= d.reservedStock <= d.quantity
  }

  /**
   * `reserveStock`: refused exactly when the available stock is below the
   * request; otherwise the reservation grows by the request and one
   * "reserved" entry is logged. It keeps stock bounded for non-negative
   * requests.
   */
  function Reserve(d: ProductDoc, q: int, now: Time): (r: Result<ProductDoc>)
    ensures r.Fail? <==> AvailableStock(d.quantity, d.reservedStock) < q
    ensures r.Ok? ==> r.value.quantity == d.quantity && r.value.reservedStock == d.reservedStock + q
    ensures r.Ok? ==> r.value.stockHistory == d.stockHistory + [StockEntry(Reserved, q, None, Some("Stock reserved for order"), None, now)]
    ensures r.Ok? ==> r.value.(reservedStock := d.reservedStock, stockHistory := d.stockHistory) == d
    ensures r.Ok? && q >= 0 && StockBounded(d) ==> StockBounded(r.value)
  {
    if AvailableStock(d.quantity, d.reservedStock) < q then Fail(ServerError)
    else Ok(AddStockEntry(d.(reservedStock := d.reservedStock + q), Reserved, q, None, Some("Stock reserved for order"), None, now))
  }

  /**
   * `releaseStock`: never refused; the reservation drops by the request but
   * not below zero, and the logged quantity is the requested one even when
   * it was clamped.
   */
  function Release(d: ProductDoc, q: int, now: Time): (r: ProductDoc)
    ensures r.reservedStock >= 0 && r.reservedStock >= d.reservedStock - q
    ensures r.reservedStock == 0 || r.reservedStock == d.reservedStock - q
    ensures r.stockHistory == d.stockHistory + [StockEntry(Released, q, None, Some("Reserved stock released"), None, now)]
    ensures r.(reservedStock := d.reservedStock, stockHistory := d.stockHistory) == d
    ensures q >= 0 && StockBounded(d) ==> StockBounded(r)
  {
    var reserved := if d.reservedStock - q > 0 then d.reservedStock - q else 0;
    AddStockEntry(d.(reservedStock := reserved), Released, q, None, Some("Reserved stock released"), None, now)
  }

  /**
   * `consumeStock`: refused exactly when the reservation is below the
   * request; otherwise on-hand and reserved both drop by the request, a
   * "sale" entry carries the order id, and `sold` is left alone.
   */
  function Consume(d: ProductDoc, q: int, orderId: Option<Id>, now: Time): (r: Result<ProductDoc>)
    ensures r.Fail? <==> d.reservedStock < q
    ensures r.Ok? ==> r.value.quantity == d.quantity - q && r.value.reservedStock == d.reservedStock - q
    ensures r.Ok? ==> r.value.sold == d.sold
    ensures r.Ok? ==> r.value.stockHistory == d.stockHistory + [StockEntry(Sale, q, orderId, Some("Stock consumed for order fulfillment"), None, now)]
    ensures r.Ok? ==> r.value.(quantity := d.quantity, reservedStock := d.reservedStock, stockHistory := d.stockHistory) == d
    ensures r.Ok? && StockBounded(d) ==> StockBounded(r.value)
  {
    if d.reservedStock < q then Fail(ServerError)
    else Ok(AddStockEntry(d.(quantity := d.quantity - q, reservedStock := d.reservedStock - q),
      Sale, q, orderId, Some("Stock consumed for order fulfillment"), None, now))
  }

  /** Releasing what was just reserved restores the reservation; both moves are logged. */
  lemma ReserveThenRelease(d: ProductDoc, q: int, t1: Time, t2: Time)
    requires q >= 0 && d.reservedStock >= 0 && Reserve(d, q, t1).Ok?
    ensures var r := Release(Reserve(d, q, t1).value, q, t2);
      r.reservedStock == d.reservedStock && r.quantity == d.quantity && r.sold == d.sold &&
      r.stockHistory == d.stockHistory + [
        StockEntry(Reserved, q, None, Some("Stock reserved for order"), None, t1),
        StockEntry(Released, q, None, Some("Reserved stock released"), None, t2)]
  {
  }

  /** Consuming what was just reserved always succeeds and takes it off the shelf. */
  lemma ReserveThenConsume(d: ProductDoc, q: int, orderId: Option<Id>, t1: Time, t2: Time)
    requires d.reservedStock >= 0 && Reserve(d, q, t1).Ok?
    ensures Consume(Reserve(d, q, t1).value, q, orderId, t2).Ok?
    ensures var r := Consume(Reserve(d, q, t1).value, q, orderId, t2).value;
      r.reservedStock == d.reservedStock && r.quantity == d.quantity - q && r.sold == d.sold
  {
  }

  /**
   * The live document a handler loads, changes in place and saves. `Doc()`
   * reads its fields back as a record.
   */
  class Product {
    var id: Id
    var title: string
    var description: string
    var sku: Option<string>
    var category: Option<Id>
    var seller: Option<Id>
    var imageCover: string
    var status: PublishStatus
    var quantity: int
    var sold: int
    var price: int
    var discountPercentage: int
    var priceAfterDiscount: int
    var reservedStock: int
    var lowStockThreshold: int
    var isLowStock: bool
    var colors: seq<string>
    var sizes: seq<string>
    var hasVariations: bool
    var axes: seq<string>
    var variations: seq<Variation>
    var nextVariationId: Id
    var priceHistory: seq<PriceEntry>
    var stockHistory: seq<StockEntry>

    function Doc(): ProductDoc
      reads this
    {
      ProductDoc(id, title, description, sku, category, seller, imageCover, status,
        quantity, sold, price, discountPercentage, priceAfterDiscount,
        reservedStock, lowStockThreshold, isLowStock,
        colors, sizes, hasVariations, axes, variations, nextVariationId,
        priceHistory, stockHistory)
    }

    constructor FromDoc(d: ProductDoc)
      ensures Doc() == d
    {
      id, title, description, sku, category, seller, imageCover, status :=
        d.id, d.title, d.description, d.sku, d.category, d.seller, d.imageCover, d.status;
      quantity, sold, price, discountPercentage, priceAfterDiscount :=
        d.quantity, d.sold, d.price, d.discountPercentage, d.priceAfterDiscount;
      reservedStock, lowStockThreshold, isLowStock := d.reservedStock, d.lowStockThreshold, d.isLowStock;
      colors, sizes, hasVariations, axes, variations, nextVariationId :=
        d.colors, d.sizes, d.hasVariations, d.axes, d.variations, d.nextVariationId;
      priceHistory, stockHistory := d.priceHistory, d.stockHistory;
    }

    /** The `availableStock` virtual of this document. */
    function Available(): (r: int)
      reads this
      ensures r == AvailableStock(quantity, reservedStock)
    {
      AvailableStock(quantity, reservedStock)
    }

    method RunPreSave()
      modifies this
      ensures Doc() == PreSave(old(Doc()))
    {
      if price != 0 || discountPercentage != 0 {
        priceAfterDiscount := DiscountedPrice(price, discountPercentage);
      }
      isLowStock := quantity - reservedStock <= lowStockThreshold;
    }

    method AddPriceHistory(p: int, discount: int, changedBy: Option<Id>, reason: Option<string>, now: Time)
      modifies this
      ensures Doc() == AddPriceEntry(old(Doc()), p, discount, changedBy, reason, now)
    {
      priceHistory := priceHistory + [PriceEntry(p, discount, DiscountedPrice(p, discount), changedBy, reason, now)];
    }

    method AddStockHistory(kind: StockKind, q: int, orderId: Option<Id>, notes: Option<string>, changedBy: Option<Id>, now: Time)
      modifies this
      ensures Doc() == AddStockEntry(old(Doc()), kind, q, orderId, notes, changedBy, now)
    {
      stockHistory := stockHistory + [StockEntry(kind, q, orderId, notes, changedBy, now)];
    }

    /** Appends a variation and advances the variation id generator. */
    method PushVariation(v: Variation)
      modifies this
      ensures Doc() == old(Doc()).(variations := old(variations) + [v], nextVariationId := old(nextVariationId) + 1)
    {
      variations := variations + [v];
      nextVariationId := nextVariationId + 1;
    }

    /** `product.quantity = n`. */
    method SetQuantity(n: int)
      modifies this
      ensures Doc() == old(Doc()).(quantity := n)
    {
      quantity := n;
    }

    /** `product.reservedStock = n`. */
    method SetReservedStock(n: int)
      modifies this
      ensures Doc() == old(Doc()).(reservedStock := n)
    {
      reservedStock := n;
    }

    /** `product.lowStockThreshold = threshold; product.isLowStock = low`. */
    method SetLowStock(threshold: int, low: bool)
      modifies this
      ensures Doc() == old(Doc()).(lowStockThreshold := threshold, isLowStock := low)
    {
      lowStockThreshold := threshold;
      isLowStock := low;
    }

    /** `product.price = price; product.discountPercentage = discount`. */
    method SetPricing(price': int, discount: int)
      modifies this
      ensures Doc() == old(Doc()).(price := price', discountPercentage := discount)
    {
      price := price';
      discountPercentage := discount;
    }

    /** `product.hasVariations = b`. */
    method MarkVariations(b: bool)
      modifies this
      ensures Doc() == old(Doc()).(hasVariations := b)
    {
      hasVariations := b;
    }

    /** `product.variations.axes = axes`. */
    method SetAxes(axes': seq<string>)
      modifies this
      ensures Doc() == old(Doc()).(axes := axes')
    {
      axes := axes';
    }

    /** Replaces the variation list (an element update or a `pull`). */
    method SetVariations(vs: seq<Variation>)
      modifies this
      ensures Doc() == old(Doc()).(variations := vs)
    {
      variations := vs;
    }

    /** Adds a color and a size to the product's option lists unless already listed. */
    method IncludeOptions(color: string, size: string)
      modifies this
      ensures Doc() == old(Doc()).(colors := Include(old(colors), color), sizes := Include(old(sizes), size))
    {
      if color !in colors {
        colors := colors + [color];
      }
      if size !in sizes {
        sizes := sizes + [size];
      }
    }

    method ReserveStock(q: int, now: Time) returns (r: Outcome)
      modifies this
      ensures r.Done? <==> Reserve(old(Doc()), q, now).Ok?
      ensures r.Done? ==> Doc() == Reserve(old(Doc()), q, now).value
      ensures r.Failed? ==> r.failure == ServerError && Doc() == old(Doc())
    {
      if Available() < q {
        return Failed(ServerError);
      }
      reservedStock := reservedStock + q;
      AddStockHistory(Reserved, q, None, Some("Stock reserved for order"), None, now);
      r := Done;
    }

    method ReleaseStock(q: int, now: Time)
      modifies this
      ensures Doc() == Release(old(Doc()), q, now)
    {
      reservedStock := if reservedStock - q > 0 then reservedStock - q else 0;
      AddStockHistory(Released, q, None, Some("Reserved stock released"), None, now);
    }

    method ConsumeStock(q: int, orderId: Option<Id>, now: Time) returns (r: Outcome)
      modifies this
      ensures r.Done? <==> Consume(old(Doc()), q, orderId, now).Ok?
      ensures r.Done? ==> Doc() == Consume(old(Doc()), q, orderId, now).value
      ensures r.Failed? ==> r.failure == ServerError && Doc() == old(Doc())
    {
      if reservedStock < q {
        return Failed(ServerError);
      }
      quantity := quantity - q;
      reservedStock := reservedStock - q;
      AddStockHistory(Sale, q, orderId, Some("Stock consumed for order fulfillment"), None, now);
      r := Done;
    }
  }

  /** `findOne({ _id: id, seller: owner })` matches a stored product. */
  predicate Owned(docs: map<Id, ProductDoc>, id: Id, owner: Id) {
    id in docs && docs[id].seller == Some(owner)
  }

  /**
   * `updateOne({ _id: id }, { $inc: { quantity: dq, sold: ds } })`: applied
   * directly, with no validation and no hook; an unknown id matches nothing.
   */
  function Incremented(docs: map<Id, ProductDoc>, id: Id, dq: int, ds: int): map<Id, ProductDoc> {
    if id in docs then docs[id := docs[id].(quantity := docs[id].quantity + dq, sold := docs[id].sold + ds)] else docs
  }

  /** The products collection. */
  class ProductStore {
    var docs: map<Id, ProductDoc>

    ghost predicate Valid()
      reads this
    {
      forall id :: id in docs ==> docs[id].id == id
    }

    constructor (initial: map<Id, ProductDoc>)
      ensures docs == initial
    {
      docs := initial;
    }

    /** `findById`: a fresh document for the stored record, or null. */
    method Load(id: Id) returns (p: Product?)
      ensures p == null <==> id !in docs
      ensures p != null ==> fresh(p) && p.Doc() == docs[id]
    {
      if id !in docs {
        return null;
      }
      p := new Product.FromDoc(docs[id]);
    }

    /** `findOne({ _id: id, seller: owner })`. */
    method LoadOwned(id: Id, owner: Id) returns (p: Product?)
      ensures p == null <==> !(id in docs && docs[id].seller == Some(owner))
      ensures p != null ==> fresh(p) && p.Doc() == docs[id]
    {
      if id !in docs || docs[id].seller != Some(owner) {
        return null;
      }
      p := new Product.FromDoc(docs[id]);
    }

    /** One `updateOne` of a `bulkWrite` that increments quantity and sold. */
    method IncStock(id: Id, dq: int, ds: int)
      requires Valid()
      modifies this
      ensures Valid()
      ensures docs == Incremented(old(docs), id, dq, ds)
    {
      if id in docs {
        docs := docs[id := docs[id].(quantity := docs[id].quantity + dq, sold := docs[id].sold + ds)];
      }
    }

    /**
     * `save()`: validation first; an invalid document is rejected and the
     * stored record stays as it was. A valid one runs the pre-save hook and
     * replaces (or creates) the record under its id.
     */
    method Save(p: Product) returns (r: Outcome)
      requires Valid()
      modifies this, p
      ensures Valid()
      ensures r.Done? <==> SchemaValid(old(p.Doc()))
      ensures r.Done? ==> p.Doc() == PreSave(old(p.Doc())) && docs == old(docs)[p.id := p.Doc()]
      ensures r.Failed? ==> r.failure == Invalid && docs == old(docs) && p.Doc() == old(p.Doc())
    {
      if !SchemaValid(p.Doc()) {
        return Failed(Invalid);
      }
      p.RunPreSave();
      docs := docs[p.id := p.Doc()];
      r := Done;
    }
  }
}
