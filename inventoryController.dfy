/**
 * The seller inventory endpoints: manual stock adjustment, the low-stock
 * threshold, price updates with a price history, reservation and release of
 * stock by any authenticated user, the paged stock and price histories, the
 * low-stock listing and the inventory dashboard.
 *
 * Each saving handler is a method that loads the product, changes it in place
 * and saves it; beside it a function states the document the handler hands to
 * `save()` (or the error it answers with), and lemmas relate those functions.
 * `seller` is the outcome of resolving the caller's seller profile (see
 * SellerProfile.FindOrCreateSellerProfile), which these handlers do first.
 */
module InventoryController {
  import opened Base
  import opened Listing
  import opened ProductModel

  datatype StockView = StockView(
    productId: Id,
    quantity: int,
    reservedStock: int,
    availableStock: int,
    isLowStock: bool,
    lowStockThreshold: int)

  function ViewOf(d: ProductDoc): StockView {
    StockView(d.id, d.quantity, d.reservedStock, AvailableStock(d.quantity, d.reservedStock), d.isLowStock, d.lowStockThreshold)
  }

  /**
   * How a handler that saves one product ends: a refused request, or a
   * document that fails validation, leaves the collection as it was;
   * otherwise the stored record becomes the document after the pre-save hook.
   */
  predicate SavedAs(before: map<Id, ProductDoc>, after: map<Id, ProductDoc>, id: Id, req: Result<ProductDoc>, r: Result<StockView>) {
    if req.Fail? then r == Fail(req.failure) && after == before
    else if !SchemaValid(req.value) then r == Fail(Invalid) && after == before
    else after == before[id := PreSave(req.value)] && r == Ok(ViewOf(PreSave(req.value)))
  }

  /** `await product.save()` closing a handler whose request resolved to `req`, answering with the stock view. */
  method CommitView(store: ProductStore, p: Product, ghost req: Result<ProductDoc>) returns (r: Result<StockView>)
    requires store.Valid() && req == Ok(p.Doc())
    modifies store, p
    ensures store.Valid()
    ensures SavedAs(old(store.docs), store.docs, old(p.id), req, r)
  {
    var saved := store.Save(p);
    if saved.Failed? {
      return Fail(saved.failure);
    }
    r := Ok(ViewOf(p.Doc()));
  }

  /**
   * adjustStock: "add" raises on-hand stock and logs a purchase, "subtract"
   * lowers it and logs an adjustment, both signed by the caller; a
   * subtraction of more than is on hand and any other type are refused.
   */
  function AdjustRequest(docs: map<Id, ProductDoc>, seller: Result<Id>, id: Id, kind: string, q: int, reason: Option<string>, user: Id, now: Time): (r: Result<ProductDoc>)
    ensures seller.Fail? ==> r == Fail(seller.failure)
    ensures seller.Ok? && !Owned(docs, id, seller.value) ==> r == Fail(NotFound)
    ensures seller.Ok? && Owned(docs, id, seller.value) ==>
      (r.Fail? <==> (kind != "add" && kind != "subtract") || (kind == "subtract" && docs[id].quantity < q))
    ensures r.Ok? ==> seller.Ok? && Owned(docs, id, seller.value)
    ensures r.Ok? ==> r.value.quantity == docs[id].quantity + (if kind == "add" then q else -q)
    ensures r.Ok? ==> (r.value.stockHistory == docs[id].stockHistory
      + [StockEntry(if kind == "add" then Purchase else Adjustment, q, None, reason, Some(user), now)])
    ensures r.Ok? ==> r.value.(quantity := docs[id].quantity, stockHistory := docs[id].stockHistory) == docs[id]
  {
    if seller.Fail? then Fail(seller.failure)
    else if !Owned(docs, id, seller.value) then Fail(NotFound)
    else
      var d := docs[id];
      if kind == "add" then Ok(AddStockEntry(d.(quantity := d.quantity + q), Purchase, q, None, reason, Some(user), now))
      else if kind == "subtract" then
        if d.quantity < q then Fail(BadRequest)
        else Ok(AddStockEntry(d.(quantity := d.quantity - q), Adjustment, q, None, reason, Some(user), now))
      else Fail(BadRequest)
  }

  method AdjustStock(store: ProductStore, seller: Result<Id>, id: Id, kind: string, q: int, reason: Option<string>, user: Id, now: Time)
    returns (r: Result<StockView>)
    requires store.Valid()
    modifies store
    ensures store.Valid()
    ensures SavedAs(old(store.docs), store.docs, id, AdjustRequest(old(store.docs), seller, id, kind, q, reason, user, now), r)
  {
    if seller.Fail? {
      return Fail(seller.failure);
    }
    var p := store.LoadOwned(id, seller.value);
    if p == null {
      return Fail(NotFound);
    }
    ghost var req := AdjustRequest(store.docs, seller, id, kind, q, reason, user, now);
    if kind == "add" {
      p.SetQuantity(p.quantity + q);
      p.AddStockHistory(Purchase, q, None, reason, Some(user), now);
    } else if kind == "subtract" {
      if p.quantity < q {
        return Fail(BadRequest);
      }
      p.SetQuantity(p.quantity - q);
      p.AddStockHistory(Adjustment, q, None, reason, Some(user), now);
    } else {
      return Fail(BadRequest);
    }
    r := CommitView(store, p, req);
  }

  /** Adding and then subtracting the same amount restores on-hand stock and logs both moves. */
  lemma AddThenSubtract(docs: map<Id, ProductDoc>, seller: Id, id: Id, q: int, reason: Option<string>, user: Id, t1: Time, t2: Time)
    requires Owned(docs, id, seller) && docs[id].quantity >= 0
    ensures var added := AdjustRequest(docs, Ok(seller), id, "add", q, reason, user, t1);
      added.Ok? &&
      var back := AdjustRequest(docs[id := added.value], Ok(seller), id, "subtract", q, reason, user, t2);
      back.Ok? && back.value.quantity == docs[id].quantity &&
      back.value.stockHistory == docs[id].stockHistory +
        [StockEntry(Purchase, q, None, reason, Some(user), t1), StockEntry(Adjustment, q, None, reason, Some(user), t2)]
  {
  }

  /**
   * Subtracting the whole on-hand stock passes the handler's own check but
   * leaves quantity 0, which the schema's minimum of 1 rejects on save: the
   * stock cannot be adjusted down to zero.
   */
  lemma SubtractAllIsRejected(docs: map<Id, ProductDoc>, seller: Id, id: Id, reason: Option<string>, user: Id, now: Time)
    requires Owned(docs, id, seller)
    ensures var req := AdjustRequest(docs, Ok(seller), id, "subtract", docs[id].quantity, reason, user, now);
      req.Ok? && !SchemaValid(req.value)
  {
  }

  /**
   * setLowStockThreshold: a negative threshold is refused before anything
   * else; otherwise the threshold is stored and the flag recomputed.
   */
  function ThresholdRequest(docs: map<Id, ProductDoc>, seller: Result<Id>, id: Id, threshold: int): (r: Result<ProductDoc>)
    ensures threshold < 0 ==> r == Fail(BadRequest)
    ensures threshold >= 0 && seller.Fail? ==> r == Fail(seller.failure)
    ensures threshold >= 0 && seller.Ok? && !Owned(docs, id, seller.value) ==> r == Fail(NotFound)
    ensures r.Ok? ==> (seller.Ok? && Owned(docs, id, seller.value) &&
      r.value == docs[id].(lowStockThreshold := threshold,
        isLowStock := docs[id].quantity - docs[id].reservedStock <= threshold))
  {
    if threshold < 0 then Fail(BadRequest)
    else if seller.Fail? then Fail(seller.failure)
    else if !Owned(docs, id, seller.value) then Fail(NotFound)
    else
      var d := docs[id];
      Ok(d.(lowStockThreshold := threshold, isLowStock := d.quantity - d.reservedStock <= threshold))
  }

  method SetLowStockThreshold(store: ProductStore, seller: Result<Id>, id: Id, threshold: int) returns (r: Result<StockView>)
    requires store.Valid()
    modifies store
    ensures store.Valid()
    ensures SavedAs(old(store.docs), store.docs, id, ThresholdRequest(old(store.docs), seller, id, threshold), r)
  {
    if threshold < 0 {
      return Fail(BadRequest);
    }
    if seller.Fail? {
      return Fail(seller.failure);
    }
    var p := store.LoadOwned(id, seller.value);
    if p == null {
      return Fail(NotFound);
    }
    ghost var req := ThresholdRequest(store.docs, seller, id, threshold);
    var available := p.quantity - p.reservedStock;
    p.SetLowStock(threshold, available <= threshold);
    r := CommitView(store, p, req);
  }

  /**
   * updateProductPrice: a price entry is logged whenever the body's price or
   * raw discount differs from the stored one (an omitted discount always
   * differs); the stored discount becomes `discount || 0`.
   */
  function PriceRequest(docs: map<Id, ProductDoc>, seller: Result<Id>, id: Id, price: int, discount: Option<int>, reason: Option<string>, user: Id, now: Time): (r: Result<ProductDoc>)
    ensures seller.Fail? ==> r == Fail(seller.failure)
    ensures seller.Ok? && !Owned(docs, id, seller.value) ==> r == Fail(NotFound)
    ensures r.Ok? <==> seller.Ok? && Owned(docs, id, seller.value)
    ensures r.Ok? ==> r.value.price == price && r.value.discountPercentage == NumOr(discount, 0)
    ensures r.Ok? ==> var d := docs[id];
      r.value.priceHistory == (if d.price != price || discount != Some(d.discountPercentage)
        then d.priceHistory + [PriceEntry(price, NumOr(discount, 0), DiscountedPrice(price, NumOr(discount, 0)), Some(user), reason, now)]
        else d.priceHistory)
    ensures r.Ok? ==> r.value.(price := docs[id].price, discountPercentage := docs[id].discountPercentage,
      priceHistory := docs[id].priceHistory) == docs[id]
  {
    if seller.Fail? then Fail(seller.failure)
    else if !Owned(docs, id, seller.value) then Fail(NotFound)
    else
      var d := docs[id];
      var logged := if d.price != price || discount != Some(d.discountPercentage)
        then AddPriceEntry(d, price, NumOr(discount, 0), Some(user), reason, now) else d;
      Ok(logged.(price := price, discountPercentage := NumOr(discount, 0)))
  }

  method UpdateProductPrice(store: ProductStore, seller: Result<Id>, id: Id, price: int, discount: Option<int>, reason: Option<string>, user: Id, now: Time)
    returns (r: Result<StockView>)
    requires store.Valid()
    modifies store
    ensures store.Valid()
    ensures SavedAs(old(store.docs), store.docs, id, PriceRequest(old(store.docs), seller, id, price, discount, reason, user, now), r)
  {
    if seller.Fail? {
      return Fail(seller.failure);
    }
    var p := store.LoadOwned(id, seller.value);
    if p == null {
      return Fail(NotFound);
    }
    ghost var req := PriceRequest(store.docs, seller, id, price, discount, reason, user, now);
    if p.price != price || discount != Some(p.discountPercentage) {
      p.AddPriceHistory(price, NumOr(discount, 0), Some(user), reason, now);
    }
    p.SetPricing(price, NumOr(discount, 0));
    r := CommitView(store, p, req);
  }

  /**
   * The logged entry agrees with the price the save stores, except when
   * both the new price and the discount are zero: the hook then keeps the
   * old discounted price while the entry says 0.
   */
  lemma PriceEntryMatchesSaved(docs: map<Id, ProductDoc>, seller: Id, id: Id, price: int, discount: Option<int>, reason: Option<string>, user: Id, now: Time)
    requires Owned(docs, id, seller)
    requires docs[id].price != price || discount != Some(docs[id].discountPercentage)
    ensures var saved := PreSave(PriceRequest(docs, Ok(seller), id, price, discount, reason, user, now).value);
      var entry := saved.priceHistory[|saved.priceHistory| - 1];
      (price != 0 || NumOr(discount, 0) != 0 ==> entry.priceAfterDiscount == saved.priceAfterDiscount) &&
      (price == 0 && NumOr(discount, 0) == 0 ==> entry.priceAfterDiscount == 0 && saved.priceAfterDiscount == docs[id].priceAfterDiscount)
  {
    var d := docs[id];
    var pct := NumOr(discount, 0);
    var q := PriceRequest(docs, Ok(seller), id, price, discount, reason, user, now).value;
    var saved := PreSave(q);
    var e := PriceEntry(price, pct, DiscountedPrice(price, pct), Some(user), reason, now);
    assert q.priceHistory == d.priceHistory + [e];
    assert saved.priceHistory == q.priceHistory;
    assert saved.priceHistory[|saved.priceHistory| - 1] == e;
    if price != 0 || pct != 0 {
      assert saved.priceAfterDiscount == DiscountedPrice(q.price, q.discountPercentage);
    } else {
      assert q.priceAfterDiscount == d.priceAfterDiscount;
      assert DiscountedPrice(0, 0) == 0;
    }
  }

  /** Resubmitting the stored price with the discount omitted still logs an entry. */
  lemma OmittedDiscountIsLogged(docs: map<Id, ProductDoc>, seller: Id, id: Id, reason: Option<string>, user: Id, now: Time)
    requires Owned(docs, id, seller)
    ensures var r := PriceRequest(docs, Ok(seller), id, docs[id].price, None, reason, user, now);
      r.Ok? && |r.value.priceHistory| == |docs[id].priceHistory| + 1
  {
  }

  /**
   * reserveProductStock: any product (no ownership check); refused when the
   * available stock is below the request; the entry is signed by the caller.
   */
  function ReserveRequest(docs: map<Id, ProductDoc>, id: Id, q: int, user: Id, now: Time): (r: Result<ProductDoc>)
    ensures id !in docs ==> r == Fail(NotFound)
    ensures id in docs ==> (r.Fail? <==> AvailableStock(docs[id].quantity, docs[id].reservedStock) < q)
    ensures r.Fail? ==> r.failure == NotFound || r.failure == BadRequest
    ensures r.Ok? ==> r.value == AddStockEntry(docs[id].(reservedStock := docs[id].reservedStock + q),
      Reserved, q, None, Some("Stock reserved for order"), Some(user), now)
  {
    if id !in docs then Fail(NotFound)
    else
      var d := docs[id];
      if AvailableStock(d.quantity, d.reservedStock) < q then Fail(BadRequest)
      else Ok(AddStockEntry(d.(reservedStock := d.reservedStock + q), Reserved, q, None, Some("Stock reserved for order"), Some(user), now))
  }

  method ReserveProductStock(store: ProductStore, id: Id, q: int, user: Id, now: Time) returns (r: Result<StockView>)
    requires store.Valid()
    modifies store
    ensures store.Valid()
    ensures SavedAs(old(store.docs), store.docs, id, ReserveRequest(old(store.docs), id, q, user, now), r)
  {
    var p := store.Load(id);
    if p == null {
      return Fail(NotFound);
    }
    if p.Available() < q {
      return Fail(BadRequest);
    }
    ghost var req := ReserveRequest(store.docs, id, q, user, now);
    p.SetReservedStock(p.reservedStock + q);
    p.AddStockHistory(Reserved, q, None, Some("Stock reserved for order"), Some(user), now);
    r := CommitView(store, p, req);
  }

  /**
   * releaseProductStock: refused (not clamped) when more is released than is
   * reserved, so on success the reservation drops by exactly the request.
   */
  function ReleaseRequest(docs: map<Id, ProductDoc>, id: Id, q: int, user: Id, now: Time): (r: Result<ProductDoc>)
    ensures id !in docs ==> r == Fail(NotFound)
    ensures id in docs ==> (r.Fail? <==> docs[id].reservedStock < q)
    ensures r.Fail? ==> r.failure == NotFound || r.failure == BadRequest
    ensures r.Ok? ==> r.value.reservedStock == docs[id].reservedStock - q >= 0
    ensures r.Ok? ==> r.value == AddStockEntry(docs[id].(reservedStock := docs[id].reservedStock - q),
      Released, q, None, Some("Reserved stock released"), Some(user), now)
  {
    if id !in docs then Fail(NotFound)
    else
      var d := docs[id];
      if d.reservedStock < q then Fail(BadRequest)
      else Ok(AddStockEntry(d.(reservedStock := d.reservedStock - q), Released, q, None, Some("Reserved stock released"), Some(user), now))
  }

  method ReleaseProductStock(store: ProductStore, id: Id, q: int, user: Id, now: Time) returns (r: Result<StockView>)
    requires store.Valid()
    modifies store
    ensures store.Valid()
    ensures SavedAs(old(store.docs), store.docs, id, ReleaseRequest(old(store.docs), id, q, user, now), r)
  {
    var p := store.Load(id);
    if p == null {
      return Fail(NotFound);
    }
    if p.reservedStock < q {
      return Fail(BadRequest);
    }
    ghost var req := ReleaseRequest(store.docs, id, q, user, now);
    p.SetReservedStock(p.reservedStock - q);
    p.AddStockHistory(Released, q, None, Some("Reserved stock released"), Some(user), now);
    r := CommitView(store, p, req);
  }

  /** Releasing what the endpoint just reserved is accepted and restores the reservation. */
  lemma ReserveThenReleaseRequests(docs: map<Id, ProductDoc>, id: Id, q: int, user: Id, t1: Time, t2: Time)
    requires q >= 0 && id in docs && docs[id].reservedStock >= 0
    requires ReserveRequest(docs, id, q, user, t1).Ok?
    ensures var held := ReserveRequest(docs, id, q, user, t1).value;
      var back := ReleaseRequest(docs[id := held], id, q, user, t2);
      back.Ok? && back.value.reservedStock == docs[id].reservedStock && back.value.quantity == docs[id].quantity
  {
  }

  /**
   * Where the endpoint refuses an over-release, the document method clamps
   * the reservation to zero instead.
   */
  lemma OverReleaseEndpointRefusesMethodClamps(docs: map<Id, ProductDoc>, id: Id, q: int, user: Id, now: Time)
    requires id in docs && 0 <= docs[id].reservedStock < q
    ensures ReleaseRequest(docs, id, q, user, now) == Fail(BadRequest)
    ensures Release(docs[id], q, now).reservedStock == 0
  {
  }

  /** `req.query.x * 1 || d`: an absent, unparsable or zero parameter reads as `d`. */
  function QueryNumber(q: int, d: int): int {
    if q == 0 then d else q
  }

  datatype HistoryPage<T> = HistoryPage(results: seq<T>, currentPage: int, limit: int, totalRecords: nat, numberOfPages: int)

  /**
   * The paged history response: the entries sorted newest first, sliced at
   * [(page - 1) * limit, (page - 1) * limit + limit), with the total and the
   * page count of the whole history.
   */
  function PagedHistory<T>(h: seq<T>, at: T -> Time, pageQ: int, limitQ: int): (r: HistoryPage<T>)
    ensures r.totalRecords == |h| && r.currentPage == QueryNumber(pageQ, 1) && r.limit == QueryNumber(limitQ, 10)
    ensures r.limit != 0 && r.numberOfPages == PageCount(|h|, r.limit)
    ensures DescendingBy(r.results, at)
    ensures forall x :: x in r.results ==> x in h
    ensures r.currentPage >= 1 && r.limit >= 1 ==> |r.results| <= r.limit
    ensures r.currentPage >= 1 && r.limit >= 1 ==>
      Window(r.results, SortDesc(h, at), (r.currentPage - 1) * r.limit, r.limit)
    ensures r.results == Page(SortDesc(h, at), r.currentPage, r.limit)
  {
    var page := QueryNumber(pageQ, 1);
    var limit := QueryNumber(limitQ, 10);
    var sorted := SortDesc(h, at);
    var results := Page(sorted, page, limit);
    assert DescendingBy(results, at) && forall x :: x in results ==> x in h by {
      PageOfSorted(sorted, page, limit, at);
      assert forall x :: x in sorted ==> x in multiset(h);
    }
    assert page >= 1 && limit >= 1 ==> Window(results, sorted, (page - 1) * limit, limit) by {
      PageWindow(sorted, page, limit);
    }
    HistoryPage(results, page, limit, |h|, PageCount(|h|, limit))
  }

  /**
   * A negative page is not rejected: page -1 gives skip = -2 * limit, and
   * `slice` counts negative indices from the end, so the answer is the
   * second-to-last run of `limit` entries of the newest-first history.
   */
  lemma NegativePageCountsFromEnd<T>(h: seq<T>, at: T -> Time, limitQ: int)
    requires limitQ >= 1 && |h| >= 2 * limitQ
    ensures Window(PagedHistory(h, at, -1, limitQ).results, SortDesc(h, at), |h| - 2 * limitQ, limitQ)
  {
    var sorted := SortDesc(h, at);
    assert PagedHistory(h, at, -1, limitQ).results == Page(sorted, -1, limitQ) by {
      var r := PagedHistory(h, at, -1, limitQ);
      assert r.currentPage == -1 && r.limit == limitQ;
    }
    PageMinusOne(sorted, limitQ);
  }

  function StockEntryTime(e: StockEntry): Time { e.changedAt }
  function PriceEntryTime(e: PriceEntry): Time { e.changedAt }

  /** getStockHistory on the caller's own product. */
  function StockHistory(docs: map<Id, ProductDoc>, seller: Result<Id>, id: Id, pageQ: int, limitQ: int): (r: Result<HistoryPage<StockEntry>>)
    ensures seller.Fail? ==> r == Fail(seller.failure)
    ensures seller.Ok? && !Owned(docs, id, seller.value) ==> r == Fail(NotFound)
    ensures r.Ok? ==> (seller.Ok? && Owned(docs, id, seller.value) &&
      r.value.totalRecords == |docs[id].stockHistory| &&
      forall x :: x in r.value.results ==> x in docs[id].stockHistory)
    ensures r.Ok? ==> r.value == PagedHistory(docs[id].stockHistory, StockEntryTime, pageQ, limitQ)
  {
    if seller.Fail? then Fail(seller.failure)
    else if !Owned(docs, id, seller.value) then Fail(NotFound)
    else Ok(PagedHistory(docs[id].stockHistory, StockEntryTime, pageQ, limitQ))
  }

  /** getPriceHistory on the caller's own product. */
  function PriceHistory(docs: map<Id, ProductDoc>, seller: Result<Id>, id: Id, pageQ: int, limitQ: int): (r: Result<HistoryPage<PriceEntry>>)
    ensures seller.Fail? ==> r == Fail(seller.failure)
    ensures seller.Ok? && !Owned(docs, id, seller.value) ==> r == Fail(NotFound)
    ensures r.Ok? ==> (seller.Ok? && Owned(docs, id, seller.value) &&
      r.value.totalRecords == |docs[id].priceHistory| &&
      forall x :: x in r.value.results ==> x in docs[id].priceHistory)
    ensures r.Ok? ==> r.value == PagedHistory(docs[id].priceHistory, PriceEntryTime, pageQ, limitQ)
  {
    if seller.Fail? then Fail(seller.failure)
    else if !Owned(docs, id, seller.value) then Fail(NotFound)
    else Ok(PagedHistory(docs[id].priceHistory, PriceEntryTime, pageQ, limitQ))
  }

  /**
   * getLowStockProducts before paging: the caller's products whose stored
   * flag is set (the flag as last saved, not recomputed).
   */
  function LowStockProducts(ps: seq<ProductDoc>, seller: Id): (r: seq<ProductDoc>)
    ensures forall p :: p in r <==> p in ps && p.seller == Some(seller) && p.isLowStock
  {
    Filter(ps, (p: ProductDoc) => p.seller == Some(seller) && p.isLowStock)
  }

  datatype Dashboard = Dashboard(
    totalProducts: nat,
    totalStock: int,
    totalReservedStock: int,
    totalAvailableStock: int,
    lowStockCount: nat,
    outOfStockCount: nat,
    totalValue: int,
    reservedValue: int,
    availableValue: int)

  function OnHand(p: ProductDoc): int { p.quantity }
  function Held(p: ProductDoc): int { p.reservedStock }
  function FlaggedLow(p: ProductDoc): bool { p.isLowStock }
  function OutOfStock(p: ProductDoc): bool { p.quantity == 0 }
  function OnHandValue(p: ProductDoc): int { p.price * p.quantity }
  function HeldValue(p: ProductDoc): int { p.price * p.reservedStock }
  function FreeValue(p: ProductDoc): int { p.price * (p.quantity - p.reservedStock) }

  /** `productModel.find({ seller })`: the products of the seller, in storage order. */
  function SellerProducts(all: seq<ProductDoc>, seller: Id): (r: seq<ProductDoc>)
    ensures forall p :: p in r <==> p in all && p.seller == Some(seller)
    ensures |r| == Count(all, (p: ProductDoc) => p.seller == Some(seller))
  {
    Filter(all, (p: ProductDoc) => p.seller == Some(seller))
  }

  /**
   * getInventoryDashboard over the seller's products: the forEach totals, the
   * three reduce values, and available figures that are the differences of
   * the on-hand and reserved ones (unclamped, unlike the virtual).
   */
  method InventoryDashboard(seller: Result<Id>, all: seq<ProductDoc>) returns (r: Result<Dashboard>)
    ensures seller.Fail? ==> r == Fail(seller.failure)
    ensures seller.Ok? ==> r.Ok?
    ensures r.Ok? ==> seller.Ok? && var ps, d := SellerProducts(all, seller.value), r.value;
      d.totalProducts == |ps| &&
      d.totalStock == Sum(ps, OnHand) && d.totalReservedStock == Sum(ps, Held) &&
      d.totalAvailableStock == d.totalStock - d.totalReservedStock &&
      d.lowStockCount == Count(ps, FlaggedLow) && d.outOfStockCount == Count(ps, OutOfStock) &&
      d.totalValue == Sum(ps, OnHandValue) && d.reservedValue == Sum(ps, HeldValue) &&
      d.availableValue == d.totalValue - d.reservedValue
  {
    if seller.Fail? {
      return Fail(seller.failure);
    }
    var ps := SellerProducts(all, seller.value);
    var totalStock, totalReserved, lowCount, outCount := 0, 0, 0, 0;
    var i := 0;
    while i < |ps|
      invariant 0 <= i <= |ps|
      invariant totalStock == Sum(ps[..i], OnHand) && totalReserved == Sum(ps[..i], Held)
      invariant lowCount == Count(ps[..i], FlaggedLow) && outCount == Count(ps[..i], OutOfStock)
    {
      assert ps[..i + 1][..i] == ps[..i];
      var p := ps[i];
      totalStock := totalStock + p.quantity;
      totalReserved := totalReserved + p.reservedStock;
      if p.isLowStock {
        lowCount := lowCount + 1;
      }
      if p.quantity == 0 {
        outCount := outCount + 1;
      }
      i := i + 1;
    }
    assert ps[..|ps|] == ps;
    SumDifference(ps, OnHandValue, HeldValue, FreeValue);
    r := Ok(Dashboard(|ps|, totalStock, totalReserved, totalStock - totalReserved, lowCount, outCount,
      Sum(ps, OnHandValue), Sum(ps, HeldValue), Sum(ps, FreeValue)));
  }
}
