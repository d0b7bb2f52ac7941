/**
 * The variation endpoints of a product: adding one color/size variation,
 * adding every color x size pair, generating the Cartesian product of
 * arbitrary option axes, updating, deleting and re-stocking one variation,
 * and the public stock check and option filters.
 *
 * A variation is identified by its option map; `findVariation` is taken to
 * be an exact, case-sensitive match of the whole map, and the two-axis form
 * stores its values under the keys "color" and "size". The seller handlers
 * select the product by `seller == req.user._id`, the caller's user id (not
 * a seller profile id, unlike the inventory handlers).
 */
module VariationController {
  import opened Base
  import opened Listing
  import opened ProductModel

  /**
   * How a handler that saves one product ends (the response carries the
   * saved document): a refused request or a document the schema rejects
   * leaves the collection as it was.
   */
  predicate Saved(before: map<Id, ProductDoc>, after: map<Id, ProductDoc>, id: Id, req: Result<ProductDoc>, r: Result<ProductDoc>) {
    if req.Fail? then r == Fail(req.failure) && after == before
    else if !SchemaValid(req.value) then r == Fail(Invalid) && after == before
    else after == before[id := PreSave(req.value)] && r == Ok(PreSave(req.value))
  }

  /** `await product.save()` closing a handler whose request resolved to `req`, answering with the saved document. */
  method Commit(store: ProductStore, p: Product, ghost req: Result<ProductDoc>) returns (r: Result<ProductDoc>)
    requires store.Valid() && req == Ok(p.Doc())
    modifies store, p
    ensures store.Valid()
    ensures Saved(old(store.docs), store.docs, old(p.id), req, r)
  {
    var saved := store.Save(p);
    if saved.Failed? {
      return Fail(saved.failure);
    }
    r := Ok(p.Doc());
  }

  function ColorSize(color: string, size: string): map<string, string> {
    map["color" := color, "size" := size]
  }

  /** `product.findVariation(options)`: the first variation whose option map is exactly `options`. */
  function FindVariation(vs: seq<Variation>, options: map<string, string>): (r: Option<nat>)
    ensures r.None? <==> forall k :: 0 <= k < |vs| ==> vs[k].options != options
    ensures r.Some? ==> r.value < |vs| && vs[r.value].options == options
    ensures r.Some? ==> forall k :: 0 <= k < r.value ==> vs[k].options != options
  {
    FirstIndex(vs, (v: Variation) => v.options == options)
  }

  /** The first variation with the options is the one found. */
  lemma FindVariationFirst(vs: seq<Variation>, options: map<string, string>, k: nat)
    requires k < |vs| && vs[k].options == options
    requires forall j :: 0 <= j < k ==> vs[j].options != options
    ensures FindVariation(vs, options) == Some(k)
  {
  }

  /** `product.variations.id(variationId)`. */
  function FindVariationById(vs: seq<Variation>, vid: Id): (r: Option<nat>)
    ensures r.None? <==> forall k :: 0 <= k < |vs| ==> vs[k].id != vid
    ensures r.Some? ==> r.value < |vs| && vs[r.value].id == vid
  {
    FirstIndex(vs, (v: Variation) => v.id == vid)
  }

  predicate Has(vs: seq<Variation>, options: map<string, string>) {
    FindVariation(vs, options).Some?
  }

  /** Appending a variation keeps every existing combination and adds its own. */
  lemma HasAppend(vs: seq<Variation>, v: Variation, options: map<string, string>)
    ensures Has(vs + [v], options) <==> Has(vs, options) || v.options == options
  {
    var ws := vs + [v];
    if Has(vs, options) {
      var k := FindVariation(vs, options).value;
      assert ws[k].options == options;
    }
    if v.options == options {
      assert ws[|vs|].options == options;
    }
    if Has(ws, options) {
      var k := FindVariation(ws, options).value;
      if k < |vs| {
        assert vs[k].options == options;
      }
    }
  }

  /** `b` extends `a`: variations are only ever appended. */
  predicate Grows(a: seq<Variation>, b: seq<Variation>) {
    |a| <= |b| && b[..|a|] == a
  }

  lemma HasGrows(a: seq<Variation>, b: seq<Variation>, options: map<string, string>)
    requires Grows(a, b) && Has(a, options)
    ensures Has(b, options)
  {
    var k := FindVariation(a, options).value;
    assert b[k] == a[k];
  }

  /** The optional fields of an addVariation body. */
  datatype VariationBody = VariationBody(
    sku: Option<string>,
    price: Option<int>,
    discountPercentage: Option<int>,
    quantity: Option<int>,
    lowStockThreshold: Option<int>,
    image: Option<string>)

  /** The variation addVariation pushes: each omitted (or falsy) field falls back to the product's value or a default. */
  function AddedVariation(d: ProductDoc, color: string, size: string, b: VariationBody): Variation {
    Variation(d.nextVariationId, ColorSize(color, size),
      StrOr(b.sku, Upper(Render(d.sku) + "-" + color + "-" + size)),
      NumOr(b.price, d.price), NumOr(b.discountPercentage, d.discountPercentage), 0,
      NumOr(b.quantity, 0), 0, NumOr(b.lowStockThreshold, 5), StrOr(b.image, d.imageCover), true)
  }

  /** A variation added with an empty body: the upper-cased generated SKU, the product's price, no stock, threshold 5, active. */
  lemma AddedVariationDefaults(d: ProductDoc, color: string, size: string)
    ensures var v := AddedVariation(d, color, size, VariationBody(None, None, None, None, None, None));
      v.sku == Upper(Render(d.sku) + "-" + color + "-" + size) && v.price == d.price &&
      v.discountPercentage == d.discountPercentage && v.quantity == 0 && v.reservedStock == 0 &&
      v.lowStockThreshold == 5 && v.image == d.imageCover && v.isActive && v.options == ColorSize(color, size)
  {
  }

  /**
   * addVariation: the caller's product, refused when the color/size pair
   * already exists; otherwise the pair's values join the product's color and
   * size lists (once each), one variation is appended and the product is
   * marked as having variations.
   */
  function AddRequest(docs: map<Id, ProductDoc>, user: Id, id: Id, color: string, size: string, b: VariationBody): (r: Result<ProductDoc>)
    ensures !Owned(docs, id, user) ==> r == Fail(NotFound)
    ensures Owned(docs, id, user) ==> (r.Fail? <==> Has(docs[id].variations, ColorSize(color, size)))
    ensures r.Fail? ==> r.failure == NotFound || r.failure == BadRequest
    ensures r.Ok? ==> var d := docs[id];
      r.value.variations == d.variations + [AddedVariation(d, color, size, b)] &&
      r.value.colors == Include(d.colors, color) && r.value.sizes == Include(d.sizes, size) &&
      r.value.hasVariations && r.value.nextVariationId == d.nextVariationId + 1 &&
      r.value.(colors := d.colors, sizes := d.sizes, variations := d.variations,
        nextVariationId := d.nextVariationId, hasVariations := d.hasVariations) == d
  {
    if !Owned(docs, id, user) then Fail(NotFound)
    else
      var d := docs[id];
      if FindVariation(d.variations, ColorSize(color, size)).Some? then Fail(BadRequest)
      else Ok(d.(colors := Include(d.colors, color), sizes := Include(d.sizes, size),
        variations := d.variations + [AddedVariation(d, color, size, b)],
        nextVariationId := d.nextVariationId + 1, hasVariations := true))
  }

  method AddVariation(store: ProductStore, user: Id, id: Id, color: string, size: string, b: VariationBody) returns (r: Result<ProductDoc>)
    requires store.Valid()
    modifies store
    ensures store.Valid()
    ensures Saved(old(store.docs), store.docs, id, AddRequest(old(store.docs), user, id, color, size, b), r)
  {
    var p := store.LoadOwned(id, user);
    if p == null {
      return Fail(NotFound);
    }
    var existing := FindVariation(p.variations, ColorSize(color, size));
    if existing.Some? {
      return Fail(BadRequest);
    }
    ghost var req := AddRequest(store.docs, user, id, color, size, b);
    var v := AddedVariation(p.Doc(), color, size, b);
    p.IncludeOptions(color, size);
    p.PushVariation(v);
    p.MarkVariations(true);
    r := Commit(store, p, req);
  }

  /** Once added, the pair is found at the end of the list and a second identical add is refused. */
  lemma AddThenAddAgain(docs: map<Id, ProductDoc>, user: Id, id: Id, color: string, size: string, b: VariationBody, b2: VariationBody)
    requires AddRequest(docs, user, id, color, size, b).Ok?
    ensures var added := AddRequest(docs, user, id, color, size, b).value;
      FindVariation(added.variations, ColorSize(color, size)) == Some(|docs[id].variations|) &&
      AddRequest(docs[id := PreSave(added)], user, id, color, size, b2) == Fail(BadRequest)
  {
    var d := docs[id];
    var added := AddRequest(docs, user, id, color, size, b).value;
    HasAppend(d.variations, AddedVariation(d, color, size, b), ColorSize(color, size));
  }

  /** The running state of bulkAddVariations: the product and the two label lists. */
  datatype BulkState = BulkState(doc: ProductDoc, added: seq<string>, skipped: seq<string>)

  function Label(color: string, size: string): string {
    color + " - " + size
  }

  /** The variation bulkAddVariations pushes for one pair. */
  function BulkVariation(d: ProductDoc, color: string, size: string, defaultPrice: Option<int>, defaultQuantity: Option<int>, defaultThreshold: Option<int>): Variation {
    Variation(d.nextVariationId, ColorSize(color, size), Upper(Render(d.sku) + "-" + color + "-" + size),
      NumOr(defaultPrice, d.price), d.discountPercentage, 0, NumOr(defaultQuantity, 0), 0,
      NumOr(defaultThreshold, 5), d.imageCover, true)
  }

  /** One pair: skipped when it exists, otherwise added with its values joining the option lists. */
  function BulkStep(st: BulkState, color: string, size: string, defaultPrice: Option<int>, defaultQuantity: Option<int>, defaultThreshold: Option<int>): (r: BulkState)
    ensures |r.added| + |r.skipped| == |st.added| + |st.skipped| + 1
    ensures |r.doc.variations| == |st.doc.variations| + |r.added| - |st.added|
    ensures Grows(st.doc.variations, r.doc.variations)
    ensures Has(r.doc.variations, ColorSize(color, size))
  {
    var d := st.doc;
    if FindVariation(d.variations, ColorSize(color, size)).Some? then
      st.(skipped := st.skipped + [Label(color, size)])
    else
      var v := BulkVariation(d, color, size, defaultPrice, defaultQuantity, defaultThreshold);
      HasAppend(d.variations, v, ColorSize(color, size));
      assert (d.variations + [v])[..|d.variations|] == d.variations;
      BulkState(d.(variations := d.variations + [v], nextVariationId := d.nextVariationId + 1,
        colors := Include(d.colors, color), sizes := Include(d.sizes, size)),
        st.added + [Label(color, size)], st.skipped)
  }

  /** The inner `sizes.forEach` for one color. */
  function BulkSizes(st: BulkState, color: string, sizes: seq<string>, defaultPrice: Option<int>, defaultQuantity: Option<int>, defaultThreshold: Option<int>): BulkState {
    if |sizes| == 0 then st
    else BulkStep(BulkSizes(st, color, sizes[..|sizes| - 1], defaultPrice, defaultQuantity, defaultThreshold),
      color, sizes[|sizes| - 1], defaultPrice, defaultQuantity, defaultThreshold)
  }

  /** The outer `colors.forEach`. */
  function BulkColors(st: BulkState, colors: seq<string>, sizes: seq<string>, defaultPrice: Option<int>, defaultQuantity: Option<int>, defaultThreshold: Option<int>): BulkState {
    if |colors| == 0 then st
    else BulkSizes(BulkColors(st, colors[..|colors| - 1], sizes, defaultPrice, defaultQuantity, defaultThreshold),
      colors[|colors| - 1], sizes, defaultPrice, defaultQuantity, defaultThreshold)
  }

  /**
   * bulkAddVariations: the caller's product (404 first), then 400 for an
   * empty color or size list; every pair is visited color by color and the
   * product is marked as having variations.
   */
  function BulkRequest(docs: map<Id, ProductDoc>, user: Id, id: Id, colors: seq<string>, sizes: seq<string>, defaultPrice: Option<int>, defaultQuantity: Option<int>, defaultThreshold: Option<int>): (r: Result<BulkState>)
    ensures !Owned(docs, id, user) ==> r == Fail(NotFound)
    ensures Owned(docs, id, user) ==> (r.Fail? <==> |colors| == 0 || |sizes| == 0)
    ensures r.Ok? ==> r.value.doc.hasVariations
  {
    if !Owned(docs, id, user) then Fail(NotFound)
    else if |colors| == 0 || |sizes| == 0 then Fail(BadRequest)
    else
      var st := BulkColors(BulkState(docs[id], [], []), colors, sizes, defaultPrice, defaultQuantity, defaultThreshold);
      Ok(st.(doc := st.doc.(hasVariations := true)))
  }

  function DocOf(r: Result<BulkState>): Result<ProductDoc> {
    if r.Fail? then Fail(r.failure) else Ok(r.value.doc)
  }

  method BulkAddVariations(store: ProductStore, user: Id, id: Id, colors: seq<string>, sizes: seq<string>, defaultPrice: Option<int>, defaultQuantity: Option<int>, defaultThreshold: Option<int>)
    returns (r: Result<ProductDoc>, added: seq<string>, skipped: seq<string>)
    requires store.Valid()
    modifies store
    ensures store.Valid()
    ensures var req := BulkRequest(old(store.docs), user, id, colors, sizes, defaultPrice, defaultQuantity, defaultThreshold);
      Saved(old(store.docs), store.docs, id, DocOf(req), r) &&
      (r.Ok? ==> added == req.value.added && skipped == req.value.skipped)
  {
    var p := store.LoadOwned(id, user);
    if p == null {
      return Fail(NotFound), [], [];
    }
    if |colors| == 0 || |sizes| == 0 {
      return Fail(BadRequest), [], [];
    }
    ghost var req := BulkRequest(store.docs, user, id, colors, sizes, defaultPrice, defaultQuantity, defaultThreshold);
    ghost var st := BulkColors(BulkState(p.Doc(), [], []), colors, sizes, defaultPrice, defaultQuantity, defaultThreshold);
    assert req == Ok(st.(doc := st.doc.(hasVariations := true)));
    added, skipped := BulkAll(p, colors, sizes, defaultPrice, defaultQuantity, defaultThreshold);
    ghost var generated := p.Doc();
    assert st.doc == generated;
    p.MarkVariations(true);
    r := Commit(store, p, DocOf(req));
  }

  /** The outer `colors.forEach`. */
  method BulkAll(p: Product, colors: seq<string>, sizes: seq<string>, defaultPrice: Option<int>, defaultQuantity: Option<int>, defaultThreshold: Option<int>)
    returns (added: seq<string>, skipped: seq<string>)
    modifies p
    ensures p.id == old(p.id)
    ensures BulkState(p.Doc(), added, skipped) == BulkColors(BulkState(old(p.Doc()), [], []), colors, sizes, defaultPrice, defaultQuantity, defaultThreshold)
  {
    ghost var st0 := BulkState(p.Doc(), [], []);
    added, skipped := [], [];
    var i := 0;
    while i < |colors|
      invariant 0 <= i <= |colors|
      invariant p.id == old(p.id)
      invariant BulkState(p.Doc(), added, skipped) == BulkColors(st0, colors[..i], sizes, defaultPrice, defaultQuantity, defaultThreshold)
    {
      added, skipped := BulkColor(p, colors[i], sizes, defaultPrice, defaultQuantity, defaultThreshold, added, skipped);
      BulkColorsNext(st0, colors, i, sizes, defaultPrice, defaultQuantity, defaultThreshold);
      i := i + 1;
    }
    assert colors[..|colors|] == colors;
  }

  /** The inner `sizes.forEach` for one color. */
  method BulkColor(p: Product, color: string, sizes: seq<string>, defaultPrice: Option<int>, defaultQuantity: Option<int>, defaultThreshold: Option<int>,
    added0: seq<string>, skipped0: seq<string>) returns (added: seq<string>, skipped: seq<string>)
    modifies p
    ensures p.id == old(p.id)
    ensures BulkState(p.Doc(), added, skipped) == BulkSizes(BulkState(old(p.Doc()), added0, skipped0), color, sizes, defaultPrice, defaultQuantity, defaultThreshold)
  {
    ghost var st0 := BulkState(p.Doc(), added0, skipped0);
    added, skipped := added0, skipped0;
    var j := 0;
    while j < |sizes|
      invariant 0 <= j <= |sizes|
      invariant p.id == old(p.id)
      invariant BulkState(p.Doc(), added, skipped) == BulkSizes(st0, color, sizes[..j], defaultPrice, defaultQuantity, defaultThreshold)
    {
      added, skipped := BulkPair(p, color, sizes[j], defaultPrice, defaultQuantity, defaultThreshold, added, skipped);
      BulkSizesNext(st0, color, sizes, j, defaultPrice, defaultQuantity, defaultThreshold);
      j := j + 1;
    }
    assert sizes[..|sizes|] == sizes;
  }

  lemma BulkColorsNext(st: BulkState, colors: seq<string>, i: nat, sizes: seq<string>, dp: Option<int>, dq: Option<int>, dt: Option<int>)
    requires i < |colors|
    ensures BulkColors(st, colors[..i + 1], sizes, dp, dq, dt) == BulkSizes(BulkColors(st, colors[..i], sizes, dp, dq, dt), colors[i], sizes, dp, dq, dt)
  {
    assert colors[..i + 1][..i] == colors[..i];
  }

  lemma BulkSizesNext(st: BulkState, color: string, sizes: seq<string>, j: nat, dp: Option<int>, dq: Option<int>, dt: Option<int>)
    requires j < |sizes|
    ensures BulkSizes(st, color, sizes[..j + 1], dp, dq, dt) == BulkStep(BulkSizes(st, color, sizes[..j], dp, dq, dt), color, sizes[j], dp, dq, dt)
  {
    assert sizes[..j + 1][..j] == sizes[..j];
  }

  /** One pair of the nested loop: skipped when it exists, else its variation is pushed and its values listed. */
  method BulkPair(p: Product, color: string, size: string, defaultPrice: Option<int>, defaultQuantity: Option<int>, defaultThreshold: Option<int>,
    added0: seq<string>, skipped0: seq<string>) returns (added: seq<string>, skipped: seq<string>)
    modifies p
    ensures p.id == old(p.id)
    ensures BulkState(p.Doc(), added, skipped) == BulkStep(BulkState(old(p.Doc()), added0, skipped0), color, size, defaultPrice, defaultQuantity, defaultThreshold)
  {
    added, skipped := added0, skipped0;
    ghost var want := BulkStep(BulkState(p.Doc(), added0, skipped0), color, size, defaultPrice, defaultQuantity, defaultThreshold);
    var existing := FindVariation(p.variations, ColorSize(color, size));
    if existing.Some? {
      skipped := skipped + [Label(color, size)];
    } else {
      var v := BulkVariation(p.Doc(), color, size, defaultPrice, defaultQuantity, defaultThreshold);
      assert want.doc == p.Doc().(variations := p.variations + [v], nextVariationId := p.nextVariationId + 1,
        colors := Include(p.colors, color), sizes := Include(p.sizes, size));
      p.PushVariation(v);
      added := added + [Label(color, size)];
      p.IncludeOptions(color, size);
    }
  }

  lemma GrowsTrans(a: seq<Variation>, b: seq<Variation>, c: seq<Variation>)
    requires Grows(a, b) && Grows(b, c)
    ensures Grows(a, c)
  {
    assert c[..|a|] == c[..|b|][..|a|];
  }

  /** Every pair of one color lands in exactly one list, and afterwards every pair exists. */
  lemma {:induction false} BulkSizesCovers(st: BulkState, color: string, sizes: seq<string>, dp: Option<int>, dq: Option<int>, dt: Option<int>)
    ensures var r := BulkSizes(st, color, sizes, dp, dq, dt);
      |r.added| + |r.skipped| == |st.added| + |st.skipped| + |sizes| &&
      |r.doc.variations| == |st.doc.variations| + |r.added| - |st.added| &&
      Grows(st.doc.variations, r.doc.variations) &&
      forall s :: s in sizes ==> Has(r.doc.variations, ColorSize(color, s))
  {
    if |sizes| > 0 {
      var init := sizes[..|sizes| - 1];
      BulkSizesCovers(st, color, init, dp, dq, dt);
      var mid := BulkSizes(st, color, init, dp, dq, dt);
      var r := BulkStep(mid, color, sizes[|sizes| - 1], dp, dq, dt);
      GrowsTrans(st.doc.variations, mid.doc.variations, r.doc.variations);
      forall s | s in sizes
        ensures Has(r.doc.variations, ColorSize(color, s))
      {
        if s != sizes[|sizes| - 1] {
          assert s in init;
          HasGrows(mid.doc.variations, r.doc.variations, ColorSize(color, s));
        }
      }
    }
  }

  /** The pair count of one more color. */
  lemma ProductStep(n: nat, m: nat)
    ensures (n + 1) * m == n * m + m
  {
  }

  lemma {:induction false} BulkColorsCovers(st: BulkState, colors: seq<string>, sizes: seq<string>, dp: Option<int>, dq: Option<int>, dt: Option<int>)
    ensures var r := BulkColors(st, colors, sizes, dp, dq, dt);
      |r.added| + |r.skipped| == |st.added| + |st.skipped| + |colors| * |sizes| &&
      |r.doc.variations| == |st.doc.variations| + |r.added| - |st.added| &&
      Grows(st.doc.variations, r.doc.variations) &&
      forall c, s :: c in colors && s in sizes ==> Has(r.doc.variations, ColorSize(c, s))
  {
    if |colors| > 0 {
      var init := colors[..|colors| - 1];
      var last := colors[|colors| - 1];
      BulkColorsCovers(st, init, sizes, dp, dq, dt);
      var mid := BulkColors(st, init, sizes, dp, dq, dt);
      BulkSizesCovers(mid, last, sizes, dp, dq, dt);
      var r := BulkSizes(mid, last, sizes, dp, dq, dt);
      ProductStep(|init|, |sizes|);
      GrowsTrans(st.doc.variations, mid.doc.variations, r.doc.variations);
      forall c, s | c in colors && s in sizes
        ensures Has(r.doc.variations, ColorSize(c, s))
      {
        if c != last {
          assert c in init;
          HasGrows(mid.doc.variations, r.doc.variations, ColorSize(c, s));
        }
      }
    }
  }

  /**
   * After a successful bulk add, every color x size pair exists, the two
   * label lists together have one entry per pair, and exactly the added
   * ones are new variations.
   */
  lemma BulkAccounting(docs: map<Id, ProductDoc>, user: Id, id: Id, colors: seq<string>, sizes: seq<string>, dp: Option<int>, dq: Option<int>, dt: Option<int>)
    requires BulkRequest(docs, user, id, colors, sizes, dp, dq, dt).Ok?
    ensures var r := BulkRequest(docs, user, id, colors, sizes, dp, dq, dt).value;
      |r.added| + |r.skipped| == |colors| * |sizes| &&
      |r.doc.variations| == |docs[id].variations| + |r.added| &&
      forall c, s :: c in colors && s in sizes ==> Has(r.doc.variations, ColorSize(c, s))
  {
    BulkColorsCovers(BulkState(docs[id], [], []), colors, sizes, dp, dq, dt);
  }

  /** `[[]]`-seeded `reduce` with `acc.flatMap(x => values.map(y => [...x, y]))`. */
  function Extend<T>(acc: seq<seq<T>>, values: seq<T>): (r: seq<seq<T>>)
    ensures |r| == |acc| * |values|
  {
    if |acc| == 0 then []
    else
      var rest := Extend(acc[1..], values);
      assert |acc| * |values| == |values| + (|acc| - 1) * |values|;
      seq(|values|, j requires 0 <= j < |values| => acc[0] + [values[j]]) + rest
  }

  /** The Cartesian product of the value lists, one tuple per combination. */
  function Cartesian<T>(lists: seq<seq<T>>): (r: seq<seq<T>>)
    ensures |r| == CountOfCombinations(lists)
  {
    if |lists| == 0 then [[]]
    else Extend(Cartesian(lists[..|lists| - 1]), lists[|lists| - 1])
  }

  function CountOfCombinations<T>(lists: seq<seq<T>>): nat {
    if |lists| == 0 then 1 else CountOfCombinations(lists[..|lists| - 1]) * |lists[|lists| - 1]|
  }

  /** A tuple picks, position by position, one value of each list. */
  predicate IsTuple<T(==)>(t: seq<T>, lists: seq<seq<T>>) {
    |t| == |lists| && forall i :: 0 <= i < |t| ==> t[i] in lists[i]
  }

  lemma {:induction false} ExtendMembers<T>(acc: seq<seq<T>>, values: seq<T>, t: seq<T>)
    ensures t in Extend(acc, values) <==> |t| > 0 && t[..|t| - 1] in acc && t[|t| - 1] in values
  {
    if |acc| > 0 {
      ExtendMembers(acc[1..], values, t);
      var head := seq(|values|, j requires 0 <= j < |values| => acc[0] + [values[j]]);
      assert Extend(acc, values) == head + Extend(acc[1..], values);
      if t in head {
        var j :| 0 <= j < |values| && head[j] == t;
        assert t[..|t| - 1] == acc[0];
      }
      if |t| > 0 && t[..|t| - 1] == acc[0] && t[|t| - 1] in values {
        var j :| 0 <= j < |values| && values[j] == t[|t| - 1];
        assert t == acc[0] + [values[j]];
        assert head[j] == t;
      }
      if |t| > 0 {
        assert t[..|t| - 1] in acc <==> t[..|t| - 1] == acc[0] || t[..|t| - 1] in acc[1..] by {
          assert acc == [acc[0]] + acc[1..];
        }
      }
    }
  }

  /** The Cartesian helper yields exactly the tuples of the lists. */
  lemma {:induction false} CartesianMembers<T>(lists: seq<seq<T>>, t: seq<T>)
    ensures t in Cartesian(lists) <==> IsTuple(t, lists)
  {
    if |lists| > 0 {
      var init := lists[..|lists| - 1];
      ExtendMembers(Cartesian(init), lists[|lists| - 1], t);
      if |t| > 0 {
        CartesianMembers(init, t[..|t| - 1]);
        assert IsTuple(t, lists) <==> IsTuple(t[..|t| - 1], init) && t[|t| - 1] in lists[|lists| - 1];
      }
    }
  }

  /** One axis of the `combinations` body: an option name and its values. */
  datatype Axis = Axis(name: string, values: seq<string>)

  function Names(axes: seq<Axis>): (r: seq<string>)
    ensures |r| == |axes| && forall i :: 0 <= i < |axes| ==> r[i] == axes[i].name
  {
    seq(|axes|, i requires 0 <= i < |axes| => axes[i].name)
  }

  function ValueLists(axes: seq<Axis>): (r: seq<seq<string>>)
    ensures |r| == |axes| && forall i :: 0 <= i < |axes| ==> r[i] == axes[i].values
  {
    seq(|axes|, i requires 0 <= i < |axes| => axes[i].values)
  }

  /** `keys.forEach((key, i) => result[key] = combo[i])` over distinct keys. */
  function OptionsOf(names: seq<string>, t: seq<string>): (r: map<string, string>)
    requires |names| == |t| && Distinct(names)
    ensures forall k :: k in r <==> k in names
    ensures forall i :: 0 <= i < |names| ==> r[names[i]] == t[i]
  {
    if |names| == 0 then map[]
    else
      var n := |names| - 1;
      OptionsOf(names[..n], t[..n])[names[n] := t[n]]
  }

  /** `priceVariations && priceVariations[value]`: a truthy price override for an option value. */
  predicate Overrides(overrides: Option<map<string, int>>, value: string) {
    overrides.Some? && value in overrides.value && overrides.value[value] != 0
  }

  /** The price of a generated combination: the override of its first value that has one, else the default. */
  function OverridePrice(t: seq<string>, overrides: Option<map<string, int>>, defaultPrice: int): (r: int)
    ensures (forall i :: 0 <= i < |t| ==> !Overrides(overrides, t[i])) ==> r == defaultPrice
    ensures forall k :: 0 <= k < |t| && Overrides(overrides, t[k]) && (forall i :: 0 <= i < k ==> !Overrides(overrides, t[i])) ==>
      r == overrides.value[t[k]]
  {
    match FirstIndex(t, (v: string) => Overrides(overrides, v))
    case None => defaultPrice
    case Some(k) => overrides.value[t[k]]
  }

  /** The `for … of` loop with `break` that picks a combination's price. */
  method PickPrice(t: seq<string>, overrides: Option<map<string, int>>, defaultPrice: int) returns (price: int)
    ensures price == OverridePrice(t, overrides, defaultPrice)
  {
    price := defaultPrice;
    var i := 0;
    while i < |t|
      invariant 0 <= i <= |t|
      invariant forall k :: 0 <= k < i ==> !Overrides(overrides, t[k])
    {
      if overrides.Some? && t[i] in overrides.value && overrides.value[t[i]] != 0 {
        price := overrides.value[t[i]];
        return;
      }
      i := i + 1;
    }
  }

  /** The generated SKU: the product SKU, "-", and the values joined by "-", upper-cased, white-space runs as "-". */
  function GeneratedSku(d: ProductDoc, t: seq<string>): (r: string)
    ensures |r| > |Render(d.sku)| && r[..|Render(d.sku)| + 1] == Render(d.sku) + "-"
    ensures forall i :: |Render(d.sku)| < i < |r| ==> !IsSpace(r[i]) && !('a' <= r[i] <= 'z')
  {
    var head, tail := Render(d.sku) + "-", CollapseSpaces(Upper(Join(t, "-")), "-");
    assert forall i :: 0 <= i < |tail| ==> !IsSpace(tail[i]) && !('a' <= tail[i] <= 'z') by {
      forall i | 0 <= i < |tail|
        ensures !IsSpace(tail[i]) && !('a' <= tail[i] <= 'z')
      {
        if tail[i] !in "-" {
          var u := Upper(Join(t, "-"));
          var j :| 0 <= j < |u| && u[j] == tail[i];
        }
      }
    }
    assert (head + tail)[..|head|] == head;
    head + tail
  }

  /** The generation settings of one request. */
  datatype Generation = Generation(
    names: seq<string>,
    overrides: Option<map<string, int>>,
    defaultPrice: int,
    discountPercentage: Option<int>,
    defaultQuantity: Option<int>)

  function GeneratedVariation(d: ProductDoc, g: Generation, t: seq<string>): Variation
    requires |g.names| == |t| && Distinct(g.names)
  {
    Variation(d.nextVariationId, OptionsOf(g.names, t), GeneratedSku(d, t),
      OverridePrice(t, g.overrides, g.defaultPrice), NumOr(g.discountPercentage, 0), 0,
      NumOr(g.defaultQuantity, 0), 0, 5, d.imageCover, true)
  }

  /** One combination: skipped when its option map exists, otherwise appended. */
  function GenStep(st: BulkState, g: Generation, t: seq<string>): (r: BulkState)
    requires |g.names| == |t| && Distinct(g.names)
    ensures |r.added| + |r.skipped| == |st.added| + |st.skipped| + 1
    ensures |r.doc.variations| == |st.doc.variations| + |r.added| - |st.added|
    ensures Grows(st.doc.variations, r.doc.variations)
    ensures Has(r.doc.variations, OptionsOf(g.names, t))
  {
    var d := st.doc;
    var shown := Join(t, " - ");
    if FindVariation(d.variations, OptionsOf(g.names, t)).Some? then st.(skipped := st.skipped + [shown])
    else
      var v := GeneratedVariation(d, g, t);
      HasAppend(d.variations, v, OptionsOf(g.names, t));
      assert (d.variations + [v])[..|d.variations|] == d.variations;
      BulkState(d.(variations := d.variations + [v], nextVariationId := d.nextVariationId + 1), st.added + [shown], st.skipped)
  }

  predicate Fits(combos: seq<seq<string>>, g: Generation) {
    Distinct(g.names) && forall t :: t in combos ==> |t| == |g.names|
  }

  function GenFold(st: BulkState, g: Generation, combos: seq<seq<string>>): BulkState
    requires Fits(combos, g)
  {
    if |combos| == 0 then st
    else GenStep(GenFold(st, g, combos[..|combos| - 1]), g, combos[|combos| - 1])
  }

  predicate DistinctAxes(combinations: seq<Axis>) {
    Distinct(Names(combinations))
  }

  lemma CartesianFits(combinations: seq<Axis>, g: Generation)
    requires g.names == Names(combinations) && DistinctAxes(combinations)
    ensures Fits(Cartesian(ValueLists(combinations)), g)
  {
    forall t | t in Cartesian(ValueLists(combinations))
      ensures |t| == |g.names|
    {
      CartesianMembers(ValueLists(combinations), t);
    }
  }

  /**
   * generateCombinations: the caller's product (404), then 400 for an empty
   * axes list, a missing combinations object or a falsy default price;
   * every tuple of the Cartesian product is visited in order, and the axes
   * list is stored.
   */
  function GenerateRequest(docs: map<Id, ProductDoc>, user: Id, id: Id, axes: seq<string>, combinations: Option<seq<Axis>>,
    defaultPrice: Option<int>, defaultQuantity: Option<int>, overrides: Option<map<string, int>>, discount: Option<int>): (r: Result<BulkState>)
    requires combinations.Some? ==> DistinctAxes(combinations.value)
    ensures !Owned(docs, id, user) ==> r == Fail(NotFound)
    ensures Owned(docs, id, user) ==> (r.Fail? <==> |axes| == 0 || combinations.None? || NumOr(defaultPrice, 0) == 0)
    ensures r.Ok? ==> r.value.doc.hasVariations && r.value.doc.axes == axes
  {
    if !Owned(docs, id, user) then Fail(NotFound)
    else if |axes| == 0 || combinations.None? || NumOr(defaultPrice, 0) == 0 then Fail(BadRequest)
    else
      var g := Generation(Names(combinations.value), overrides, defaultPrice.value, discount, defaultQuantity);
      var combos := Cartesian(ValueLists(combinations.value));
      CartesianFits(combinations.value, g);
      var st := GenFold(BulkState(docs[id], [], []), g, combos);
      Ok(st.(doc := st.doc.(hasVariations := true, axes := axes)))
  }

  lemma GenerateRequestOk(docs: map<Id, ProductDoc>, user: Id, id: Id, axes: seq<string>, combinations: seq<Axis>,
    defaultPrice: Option<int>, defaultQuantity: Option<int>, overrides: Option<map<string, int>>, discount: Option<int>)
    requires DistinctAxes(combinations) && Owned(docs, id, user) && |axes| > 0 && NumOr(defaultPrice, 0) != 0
    ensures var g := Generation(Names(combinations), overrides, defaultPrice.value, discount, defaultQuantity);
      Fits(Cartesian(ValueLists(combinations)), g) &&
      var st := GenFold(BulkState(docs[id], [], []), g, Cartesian(ValueLists(combinations)));
      GenerateRequest(docs, user, id, axes, Some(combinations), defaultPrice, defaultQuantity, overrides, discount)
        == Ok(st.(doc := st.doc.(hasVariations := true, axes := axes)))
  {
    CartesianFits(combinations, Generation(Names(combinations), overrides, defaultPrice.value, discount, defaultQuantity));
  }

  method GenerateCombinations(store: ProductStore, user: Id, id: Id, axes: seq<string>, combinations: Option<seq<Axis>>,
    defaultPrice: Option<int>, defaultQuantity: Option<int>, overrides: Option<map<string, int>>, discount: Option<int>)
    returns (r: Result<ProductDoc>, added: seq<string>, skipped: seq<string>)
    requires store.Valid()
    requires combinations.Some? ==> DistinctAxes(combinations.value)
    modifies store
    ensures store.Valid()
    ensures var req := GenerateRequest(old(store.docs), user, id, axes, combinations, defaultPrice, defaultQuantity, overrides, discount);
      Saved(old(store.docs), store.docs, id, DocOf(req), r) &&
      (r.Ok? ==> added == req.value.added && skipped == req.value.skipped)
  {
    var p := store.LoadOwned(id, user);
    if p == null {
      return Fail(NotFound), [], [];
    }
    if |axes| == 0 || combinations.None? || NumOr(defaultPrice, 0) == 0 {
      return Fail(BadRequest), [], [];
    }
    var g := Generation(Names(combinations.value), overrides, defaultPrice.value, discount, defaultQuantity);
    var combos := Cartesian(ValueLists(combinations.value));
    CartesianFits(combinations.value, g);
    ghost var req := GenerateRequest(store.docs, user, id, axes, combinations, defaultPrice, defaultQuantity, overrides, discount);
    ghost var st := GenFold(BulkState(p.Doc(), [], []), g, combos);
    GenerateRequestOk(store.docs, user, id, axes, combinations.value, defaultPrice, defaultQuantity, overrides, discount);
    added, skipped := GenerateAll(p, g, combos);
    ghost var generated := p.Doc();
    assert st.doc == generated;
    p.MarkVariations(true);
    p.SetAxes(axes);
    r := Commit(store, p, DocOf(req));
  }

  /** The `for (const optionsObj of allCombinations)` loop. */
  method GenerateAll(p: Product, g: Generation, combos: seq<seq<string>>) returns (added: seq<string>, skipped: seq<string>)
    requires Fits(combos, g)
    modifies p
    ensures p.id == old(p.id)
    ensures BulkState(p.Doc(), added, skipped) == GenFold(BulkState(old(p.Doc()), [], []), g, combos)
  {
    ghost var st0 := BulkState(p.Doc(), [], []);
    added, skipped := [], [];
    var i := 0;
    while i < |combos|
      invariant 0 <= i <= |combos|
      invariant p.id == old(p.id)
      invariant Fits(combos[..i], g)
      invariant BulkState(p.Doc(), added, skipped) == GenFold(st0, g, combos[..i])
    {
      FitsPrefix(combos, g, i + 1);
      GenFoldNext(st0, g, combos, i);
      added, skipped := GenerateOne(p, g, combos[i], added, skipped);
      i := i + 1;
    }
    assert combos[..|combos|] == combos;
  }

  lemma FitsPrefix(combos: seq<seq<string>>, g: Generation, n: nat)
    requires Fits(combos, g) && n <= |combos|
    ensures Fits(combos[..n], g)
  {
    assert forall t :: t in combos[..n] ==> t in combos;
  }

  lemma GenFoldNext(st: BulkState, g: Generation, combos: seq<seq<string>>, i: nat)
    requires i < |combos| && Fits(combos[..i], g) && Fits(combos[..i + 1], g)
    ensures |combos[i]| == |g.names|
    ensures GenFold(st, g, combos[..i + 1]) == GenStep(GenFold(st, g, combos[..i]), g, combos[i])
  {
    assert combos[..i + 1][..i] == combos[..i];
    assert combos[..i + 1][i] in combos[..i + 1];
  }

  /** One combination of the generation loop. */
  method GenerateOne(p: Product, g: Generation, t: seq<string>, added0: seq<string>, skipped0: seq<string>) returns (added: seq<string>, skipped: seq<string>)
    requires |g.names| == |t| && Distinct(g.names)
    modifies p
    ensures p.id == old(p.id)
    ensures BulkState(p.Doc(), added, skipped) == GenStep(BulkState(old(p.Doc()), added0, skipped0), g, t)
  {
    added, skipped := added0, skipped0;
    var options := OptionsOf(g.names, t);
    var existing := FindVariation(p.variations, options);
    var shown := Join(t, " - ");
    if existing.Some? {
      skipped := skipped + [shown];
    } else {
      var price := PickPrice(t, g.overrides, g.defaultPrice);
      var v := Variation(p.nextVariationId, options, GeneratedSku(p.Doc(), t), price, NumOr(g.discountPercentage, 0), 0,
        NumOr(g.defaultQuantity, 0), 0, 5, p.imageCover, true);
      p.PushVariation(v);
      added := added + [shown];
    }
  }

  /** Each combination adds one label, and exactly the added ones are appended as variations. */
  lemma {:induction false} GenFoldCounts(st: BulkState, g: Generation, combos: seq<seq<string>>)
    requires Fits(combos, g)
    ensures var r := GenFold(st, g, combos);
      |r.added| + |r.skipped| == |st.added| + |st.skipped| + |combos| &&
      |r.doc.variations| == |st.doc.variations| + |r.added| - |st.added| &&
      Grows(st.doc.variations, r.doc.variations)
  {
    if |combos| > 0 {
      var init := combos[..|combos| - 1];
      assert Fits(init, g);
      GenFoldCounts(st, g, init);
      var mid := GenFold(st, g, init);
      GrowsTrans(st.doc.variations, mid.doc.variations, GenStep(mid, g, combos[|combos| - 1]).doc.variations);
    }
  }

  /** After the loop every combination has a variation. */
  lemma {:induction false} GenFoldCovers(st: BulkState, g: Generation, combos: seq<seq<string>>)
    requires Fits(combos, g)
    ensures forall t :: t in combos ==> Has(GenFold(st, g, combos).doc.variations, OptionsOf(g.names, t))
  {
    if |combos| > 0 {
      var init := combos[..|combos| - 1];
      var last := combos[|combos| - 1];
      assert Fits(init, g);
      GenFoldCovers(st, g, init);
      var mid := GenFold(st, g, init);
      var r := GenStep(mid, g, last);
      forall t | t in combos
        ensures Has(r.doc.variations, OptionsOf(g.names, t))
      {
        if t != last {
          assert t in init;
          HasGrows(mid.doc.variations, r.doc.variations, OptionsOf(g.names, t));
        }
      }
    }
  }

  /**
   * After a successful generation: one label per combination of the
   * product of the value lists, the added ones appended as variations, and
   * every tuple of the product present afterwards.
   */
  lemma GenerateAccounting(docs: map<Id, ProductDoc>, user: Id, id: Id, axes: seq<string>, combinations: seq<Axis>,
    defaultPrice: Option<int>, defaultQuantity: Option<int>, overrides: Option<map<string, int>>, discount: Option<int>)
    requires DistinctAxes(combinations)
    requires GenerateRequest(docs, user, id, axes, Some(combinations), defaultPrice, defaultQuantity, overrides, discount).Ok?
    ensures var r := GenerateRequest(docs, user, id, axes, Some(combinations), defaultPrice, defaultQuantity, overrides, discount).value;
      |r.added| + |r.skipped| == CountOfCombinations(ValueLists(combinations)) &&
      |r.doc.variations| == |docs[id].variations| + |r.added| &&
      forall t :: IsTuple(t, ValueLists(combinations)) ==> Has(r.doc.variations, OptionsOf(Names(combinations), t))
  {
    var g := Generation(Names(combinations), overrides, defaultPrice.value, discount, defaultQuantity);
    var combos := Cartesian(ValueLists(combinations));
    CartesianFits(combinations, g);
    GenFoldCounts(BulkState(docs[id], [], []), g, combos);
    GenFoldCovers(BulkState(docs[id], [], []), g, combos);
    forall t | IsTuple(t, ValueLists(combinations))
      ensures t in combos
    {
      CartesianMembers(ValueLists(combinations), t);
    }
  }

  /** The fields updateVariation copies when present (`!== undefined`, so 0, "" and false are applied). */
  datatype VariationPatch = VariationPatch(
    price: Option<int>,
    discountPercentage: Option<int>,
    quantity: Option<int>,
    lowStockThreshold: Option<int>,
    image: Option<string>,
    isActive: Option<bool>)

  function Patched(v: Variation, b: VariationPatch): (r: Variation)
    ensures r.price == (if b.price.Some? then b.price.value else v.price)
    ensures r.quantity == (if b.quantity.Some? then b.quantity.value else v.quantity)
    ensures r.discountPercentage == (if b.discountPercentage.Some? then b.discountPercentage.value else v.discountPercentage)
    ensures r.lowStockThreshold == (if b.lowStockThreshold.Some? then b.lowStockThreshold.value else v.lowStockThreshold)
    ensures r.image == (if b.image.Some? then b.image.value else v.image)
    ensures r.isActive == (if b.isActive.Some? then b.isActive.value else v.isActive)
    ensures r.id == v.id && r.options == v.options && r.sku == v.sku && r.reservedStock == v.reservedStock
      && r.priceAfterDiscount == v.priceAfterDiscount
  {
    v.(price := if b.price.Some? then b.price.value else v.price,
      discountPercentage := if b.discountPercentage.Some? then b.discountPercentage.value else v.discountPercentage,
      quantity := if b.quantity.Some? then b.quantity.value else v.quantity,
      lowStockThreshold := if b.lowStockThreshold.Some? then b.lowStockThreshold.value else v.lowStockThreshold,
      image := if b.image.Some? then b.image.value else v.image,
      isActive := if b.isActive.Some? then b.isActive.value else v.isActive)
  }

  /** An empty patch changes nothing, and applying a patch twice is the same as once. */
  lemma PatchLaws(v: Variation, b: VariationPatch)
    ensures Patched(v, VariationPatch(None, None, None, None, None, None)) == v
    ensures Patched(Patched(v, b), b) == Patched(v, b)
  {
  }

  /** updateVariation: only the addressed variation changes, the product's other fields are kept. */
  function UpdateRequest(docs: map<Id, ProductDoc>, user: Id, id: Id, vid: Id, b: VariationPatch): (r: Result<ProductDoc>)
    ensures !Owned(docs, id, user) ==> r == Fail(NotFound)
    ensures Owned(docs, id, user) ==> (r.Fail? <==> FindVariationById(docs[id].variations, vid).None?)
    ensures r.Fail? ==> r.failure == NotFound
    ensures r.Ok? ==> var vs := docs[id].variations; var k := FindVariationById(vs, vid).value;
      r.value == docs[id].(variations := vs[k := Patched(vs[k], b)])
  {
    if !Owned(docs, id, user) then Fail(NotFound)
    else
      var d := docs[id];
      match FindVariationById(d.variations, vid)
      case None => Fail(NotFound)
      case Some(k) => Ok(d.(variations := d.variations[k := Patched(d.variations[k], b)]))
  }

  method UpdateVariation(store: ProductStore, user: Id, id: Id, vid: Id, b: VariationPatch) returns (r: Result<ProductDoc>)
    requires store.Valid()
    modifies store
    ensures store.Valid()
    ensures Saved(old(store.docs), store.docs, id, UpdateRequest(old(store.docs), user, id, vid, b), r)
  {
    var p := store.LoadOwned(id, user);
    if p == null {
      return Fail(NotFound);
    }
    var found := FindVariationById(p.variations, vid);
    if found.None? {
      return Fail(NotFound);
    }
    ghost var req := UpdateRequest(store.docs, user, id, vid, b);
    var k := found.value;
    p.SetVariations(p.variations[k := Patched(p.variations[k], b)]);
    r := Commit(store, p, req);
  }

  /**
   * deleteVariation: `pull` removes the variation with that id (the others
   * keep their order), and a product left with none no longer has variations.
   */
  function DeleteRequest(docs: map<Id, ProductDoc>, user: Id, id: Id, vid: Id): (r: Result<ProductDoc>)
    ensures !Owned(docs, id, user) ==> r == Fail(NotFound)
    ensures Owned(docs, id, user) ==> (r.Fail? <==> FindVariationById(docs[id].variations, vid).None?)
    ensures r.Fail? ==> r.failure == NotFound
    ensures r.Ok? ==> var d := docs[id]; var rest := r.value.variations;
      FindVariationById(rest, vid).None? && |rest| < |d.variations| &&
      (forall v :: v in rest <==> v in d.variations && v.id != vid) &&
      (r.value.hasVariations <==> d.hasVariations && |rest| > 0) &&
      r.value.(variations := d.variations, hasVariations := d.hasVariations) == d
  {
    if !Owned(docs, id, user) then Fail(NotFound)
    else
      var d := docs[id];
      if FindVariationById(d.variations, vid).None? then Fail(NotFound)
      else
        var rest := WithoutId(d.variations, vid);
        Ok(d.(variations := rest, hasVariations := if |rest| == 0 then false else d.hasVariations))
  }

  /** `variations.pull(vid)`: every variation with another id, in order. */
  function WithoutId(vs: seq<Variation>, vid: Id): (r: seq<Variation>)
    ensures forall v :: v in r <==> v in vs && v.id != vid
    ensures |r| <= |vs| && ((exists k :: 0 <= k < |vs| && vs[k].id == vid) ==> |r| < |vs|)
  {
    if |vs| == 0 then []
    else
      var rest := WithoutId(vs[1..], vid);
      assert vs == [vs[0]] + vs[1..];
      assert (exists k :: 0 <= k < |vs| && vs[k].id == vid) ==> vs[0].id == vid || exists k :: 0 <= k < |vs[1..]| && vs[1..][k].id == vid by {
        if exists k :: 0 <= k < |vs| && vs[k].id == vid {
          var k :| 0 <= k < |vs| && vs[k].id == vid;
          if k > 0 {
            assert vs[1..][k - 1].id == vid;
          }
        }
      }
      if vs[0].id == vid then rest else [vs[0]] + rest
  }

  /** The pull keeps the order of the remaining variations: it works part by part over a concatenation. */
  lemma {:induction false} WithoutIdAppend(vs: seq<Variation>, ws: seq<Variation>, vid: Id)
    ensures WithoutId(vs + ws, vid) == WithoutId(vs, vid) + WithoutId(ws, vid)
  {
    if |vs| > 0 {
      assert (vs + ws)[1..] == vs[1..] + ws;
      WithoutIdAppend(vs[1..], ws, vid);
    } else {
      assert vs + ws == ws;
    }
  }

  method DeleteVariation(store: ProductStore, user: Id, id: Id, vid: Id) returns (r: Result<ProductDoc>)
    requires store.Valid()
    modifies store
    ensures store.Valid()
    ensures Saved(old(store.docs), store.docs, id, DeleteRequest(old(store.docs), user, id, vid), r)
  {
    var p := store.LoadOwned(id, user);
    if p == null {
      return Fail(NotFound);
    }
    var found := FindVariationById(p.variations, vid);
    if found.None? {
      return Fail(NotFound);
    }
    ghost var req := DeleteRequest(store.docs, user, id, vid);
    p.SetVariations(WithoutId(p.variations, vid));
    if |p.variations| == 0 {
      p.MarkVariations(false);
    }
    r := Commit(store, p, req);
  }

  function OptionText(v: Variation, key: string): string {
    if key in v.options then v.options[key] else "undefined"
  }

  /**
   * adjustVariationStock: the variation's quantity is set to the requested
   * value (not added to it) and the product's stock history records the
   * signed difference new - old, typed `type || "adjustment"`.
   */
  function AdjustRequest(docs: map<Id, ProductDoc>, user: Id, id: Id, vid: Id, quantity: int, kind: Option<StockKind>, notes: Option<string>, now: Time): (r: Result<ProductDoc>)
    ensures !Owned(docs, id, user) ==> r == Fail(NotFound)
    ensures Owned(docs, id, user) ==> (r.Fail? <==> FindVariationById(docs[id].variations, vid).None?)
    ensures r.Fail? ==> r.failure == NotFound
    ensures r.Ok? ==> var d := docs[id]; var k := FindVariationById(d.variations, vid).value;
      |r.value.variations| == |d.variations| &&
      r.value.variations == d.variations[k := d.variations[k].(quantity := quantity)] &&
      |r.value.stockHistory| == |d.stockHistory| + 1 &&
      r.value.stockHistory[..|d.stockHistory|] == d.stockHistory &&
      var e := r.value.stockHistory[|d.stockHistory|];
      e.quantity == quantity - d.variations[k].quantity && e.kind == (if kind.Some? then kind.value else Adjustment) &&
      e.changedBy == Some(user) && e.orderId == None &&
      r.value.(variations := d.variations, stockHistory := d.stockHistory) == d
  {
    if !Owned(docs, id, user) then Fail(NotFound)
    else
      var d := docs[id];
      match FindVariationById(d.variations, vid)
      case None => Fail(NotFound)
      case Some(k) =>
        var v := d.variations[k];
        var note := StrOr(notes, "Stock adjustment for variation: " + OptionText(v, "color") + " - " + OptionText(v, "size"));
        Ok(AddStockEntry(d.(variations := d.variations[k := v.(quantity := quantity)]),
          if kind.Some? then kind.value else Adjustment, quantity - v.quantity, None, Some(note), Some(user), now))
  }

  method AdjustVariationStock(store: ProductStore, user: Id, id: Id, vid: Id, quantity: int, kind: Option<StockKind>, notes: Option<string>, now: Time)
    returns (r: Result<ProductDoc>)
    requires store.Valid()
    modifies store
    ensures store.Valid()
    ensures Saved(old(store.docs), store.docs, id, AdjustRequest(old(store.docs), user, id, vid, quantity, kind, notes, now), r)
  {
    var p := store.LoadOwned(id, user);
    if p == null {
      return Fail(NotFound);
    }
    var found := FindVariationById(p.variations, vid);
    if found.None? {
      return Fail(NotFound);
    }
    AdjustStep(store.docs, user, id, vid, quantity, kind, notes, now, found.value);
    r := AdjustFound(store, p, user, found.value, quantity, kind, notes, now, AdjustRequest(store.docs, user, id, vid, quantity, kind, notes, now));
  }

  /** The accepted path of `AdjustVariationStock`: set the k-th variation's quantity, log the difference, save. */
  method AdjustFound(store: ProductStore, p: Product, user: Id, k: nat, quantity: int, kind: Option<StockKind>, notes: Option<string>, now: Time,
                     ghost req: Result<ProductDoc>)
    returns (r: Result<ProductDoc>)
    requires store.Valid() && k < |p.variations|
    requires var d := p.Doc(); var v := d.variations[k];
      var note := StrOr(notes, "Stock adjustment for variation: " + OptionText(v, "color") + " - " + OptionText(v, "size"));
      req == Ok(AddStockEntry(d.(variations := d.variations[k := v.(quantity := quantity)]),
        if kind.Some? then kind.value else Adjustment, quantity - v.quantity, None, Some(note), Some(user), now))
    modifies store, p
    ensures store.Valid()
    ensures Saved(old(store.docs), store.docs, old(p.id), req, r)
  {
    var v := p.variations[k];
    var oldQuantity := v.quantity;
    p.SetVariations(p.variations[k := v.(quantity := quantity)]);
    var note := StrOr(notes, "Stock adjustment for variation: " + OptionText(v, "color") + " - " + OptionText(v, "size"));
    p.AddStockHistory(if kind.Some? then kind.value else Adjustment, quantity - oldQuantity, None, Some(note), Some(user), now);
    r := Commit(store, p, req);
  }

  /** The document an accepted adjustment of the k-th variation produces. */
  lemma AdjustStep(docs: map<Id, ProductDoc>, user: Id, id: Id, vid: Id, quantity: int, kind: Option<StockKind>, notes: Option<string>, now: Time, k: nat)
    requires Owned(docs, id, user) && FindVariationById(docs[id].variations, vid) == Some(k)
    ensures var d := docs[id]; var v := d.variations[k];
      var note := StrOr(notes, "Stock adjustment for variation: " + OptionText(v, "color") + " - " + OptionText(v, "size"));
      AdjustRequest(docs, user, id, vid, quantity, kind, notes, now) ==
        Ok(AddStockEntry(d.(variations := d.variations[k := v.(quantity := quantity)]),
          if kind.Some? then kind.value else Adjustment, quantity - v.quantity, None, Some(note), Some(user), now))
  {
  }

  /**
   * Two adjustments of the same variation, to a and then to b, leave it at b
   * and log differences that add up to b minus the starting quantity.
   */
  lemma AdjustTwiceTelescopes(docs: map<Id, ProductDoc>, user: Id, id: Id, vid: Id, a: int, b: int, notes: Option<string>, t1: Time, t2: Time)
    requires AdjustRequest(docs, user, id, vid, a, None, notes, t1).Ok?
    ensures var first := AdjustRequest(docs, user, id, vid, a, None, notes, t1).value;
      var second := AdjustRequest(docs[id := PreSave(first)], user, id, vid, b, None, notes, t2);
      var k := FindVariationById(docs[id].variations, vid).value;
      var n := |docs[id].stockHistory|;
      second.Ok? && second.value.variations[k].quantity == b &&
      second.value.stockHistory[n].quantity + second.value.stockHistory[n + 1].quantity == b - docs[id].variations[k].quantity
  {
    var d := docs[id];
    var k := FindVariationById(d.variations, vid).value;
    var first := AdjustRequest(docs, user, id, vid, a, None, notes, t1).value;
    var vs1 := PreSave(first).variations;
    assert FindVariationById(d.variations, vid) == FirstIndex(d.variations, (v: Variation) => v.id == vid);
    assert forall j :: 0 <= j < |vs1| ==> vs1[j].id == d.variations[j].id;
    assert FindVariationById(vs1, vid) == FindVariationById(d.variations, vid) by {
      FirstIndexSameIds(d.variations, vs1, vid);
    }
  }

  /** Lookups by id only see ids, so changing other fields keeps the position found. */
  lemma {:induction false} FirstIndexSameIds(vs: seq<Variation>, ws: seq<Variation>, vid: Id)
    requires |vs| == |ws| && forall j :: 0 <= j < |vs| ==> vs[j].id == ws[j].id
    ensures FindVariationById(ws, vid) == FindVariationById(vs, vid)
  {
    if |vs| > 0 {
      FirstIndexSameIds(vs[1..], ws[1..], vid);
      assert FindVariationById(vs, vid) == FirstIndex(vs, (v: Variation) => v.id == vid);
    }
  }

  /** The answer of checkVariationStock. */
  datatype StockCheck = StockCheck(
    options: map<string, string>,
    sku: string,
    availableStock: int,
    requestedQuantity: int,
    inStock: bool,
    isActive: bool,
    price: int)

  /**
   * checkVariationStock (public): the product must exist and have
   * variations, and the option map must match a variation exactly. The
   * available stock is the unclamped difference quantity - reservedStock,
   * the requested quantity defaults to 1, and the price is the discounted
   * one when set.
   */
  function CheckVariationStock(docs: map<Id, ProductDoc>, id: Id, options: Option<map<string, string>>, quantity: Option<int>): (r: Result<StockCheck>)
    ensures id !in docs ==> r == Fail(NotFound)
    ensures id in docs && !docs[id].hasVariations ==> r == Fail(BadRequest)
    ensures id in docs && docs[id].hasVariations ==>
      (r.Fail? <==> !Has(docs[id].variations, if options.Some? then options.value else map[]))
    ensures r.Ok? ==> id in docs && Has(docs[id].variations, r.value.options)
    ensures r.Ok? ==> var v := docs[id].variations[FindVariation(docs[id].variations, r.value.options).value];
      r.value.options == (if options.Some? then options.value else map[]) &&
      r.value.availableStock == v.quantity - v.reservedStock &&
      r.value.requestedQuantity == NumOr(quantity, 1) &&
      (r.value.inStock <==> v.quantity - v.reservedStock >= NumOr(quantity, 1)) &&
      r.value.price == (if v.priceAfterDiscount != 0 then v.priceAfterDiscount else v.price)
  {
    if id !in docs then Fail(NotFound)
    else
      var d := docs[id];
      var wanted := if options.Some? then options.value else map[];
      if !d.hasVariations then Fail(BadRequest)
      else match FindVariation(d.variations, wanted)
        case None => Fail(NotFound)
        case Some(k) =>
          var v := d.variations[k];
          var available := v.quantity - v.reservedStock;
          Ok(StockCheck(v.options, v.sku, available, NumOr(quantity, 1), available >= NumOr(quantity, 1), v.isActive, NumOr(Some(v.priceAfterDiscount), v.price)))
  }

  /** A variation is on offer when it is active and more is on hand than is reserved. */
  predicate Eligible(v: Variation) {
    v.isActive && v.quantity > v.reservedStock
  }

  /** Every selected option is present with exactly the selected value. */
  predicate Selects(selected: map<string, string>, v: Variation) {
    forall k :: k in selected ==> k in v.options && v.options[k] == selected[k]
  }

  /** The variations on offer that match the selection, in order. */
  function Matching(vs: seq<Variation>, selected: map<string, string>): (r: seq<Variation>)
    ensures forall v :: v in r <==> v in vs && Eligible(v) && Selects(selected, v)
  {
    if |vs| == 0 then []
    else
      var v := vs[|vs| - 1];
      assert vs == vs[..|vs| - 1] + [v];
      Matching(vs[..|vs| - 1], selected) + (if Eligible(v) && Selects(selected, v) then [v] else [])
  }

  /** The values one axis takes over a list of variations. */
  function AxisValues(vs: seq<Variation>, axis: string): set<string> {
    if |vs| == 0 then {}
    else
      var v := vs[|vs| - 1];
      AxisValues(vs[..|vs| - 1], axis) + (if axis in v.options then {v.options[axis]} else {})
  }

  /** A value belongs to an axis exactly when some variation of the list has it on that axis. */
  lemma {:induction false} AxisValuesMeans(vs: seq<Variation>, axis: string)
    ensures forall x :: x in AxisValues(vs, axis) <==> exists v :: v in vs && axis in v.options && v.options[axis] == x
  {
    if |vs| > 0 {
      var init := vs[..|vs| - 1];
      AxisValuesMeans(init, axis);
      assert vs == init + [vs[|vs| - 1]];
    }
  }

  /** Every option of v is one of the axes. */
  predicate WithinAxes(v: Variation, axes: seq<string>) {
    forall k :: k in v.options ==> k in axes
  }

  /** Every variation on offer that matches the selection keeps to the axes. */
  predicate Conforms(vs: seq<Variation>, sel: map<string, string>, axes: seq<string>) {
    forall k :: 0 <= k < |vs| && Eligible(vs[k]) && Selects(sel, vs[k]) ==> WithinAxes(vs[k], axes)
  }

  datatype OptionsReport = OptionsReport(
    axes: seq<string>,
    selected: map<string, string>,
    available: map<string, set<string>>,
    matching: seq<Variation>,
    totalMatches: nat)

  /**
   * getAvailableOptions (public): the variations on offer that match every
   * selected option exactly, the values each axis takes over them, and
   * their number. A matching variation with an option outside the product's
   * axes makes the handler throw (there is no set to add its value to).
   */
  function AvailableOptions(docs: map<Id, ProductDoc>, id: Id, selected: Option<map<string, string>>): (r: Result<OptionsReport>)
    ensures id !in docs ==> r == Fail(NotFound)
    ensures id in docs && !docs[id].hasVariations ==> r == Fail(BadRequest)
    ensures r.Fail? ==> (id in docs && docs[id].hasVariations <==> r.failure == ServerError)
    ensures r.Ok? ==> var d := docs[id];
      r.value.totalMatches == |r.value.matching| &&
      (forall v :: v in r.value.matching <==> v in d.variations && Eligible(v) && Selects(r.value.selected, v)) &&
      (forall a :: a in r.value.available <==> a in d.axes)
  {
    if id !in docs then Fail(NotFound)
    else
      var d := docs[id];
      var sel := if selected.Some? then selected.value else map[];
      if !d.hasVariations then Fail(BadRequest)
      else
        var m := Matching(d.variations, sel);
        if !Conforms(d.variations, sel, d.axes) then Fail(ServerError)
        else Ok(OptionsReport(d.axes, sel, map a | a in d.axes :: AxisValues(m, a), m, |m|))
  }

  /** The handler throws exactly when a matching variation has an option outside the axes. */
  lemma AvailableOptionsThrows(docs: map<Id, ProductDoc>, id: Id, selected: Option<map<string, string>>)
    requires id in docs && docs[id].hasVariations
    ensures var sel := if selected.Some? then selected.value else map[];
      AvailableOptions(docs, id, selected).Fail? <==>
        exists v :: v in docs[id].variations && Eligible(v) && Selects(sel, v) && !WithinAxes(v, docs[id].axes)
  {
    var vs := docs[id].variations;
    var sel := if selected.Some? then selected.value else map[];
    if !Conforms(vs, sel, docs[id].axes) {
      var k :| 0 <= k < |vs| && Eligible(vs[k]) && Selects(sel, vs[k]) && !WithinAxes(vs[k], docs[id].axes);
      assert vs[k] in vs;
    }
  }

  /** Each axis lists exactly the values it takes over the matching variations. */
  lemma AvailableValues(docs: map<Id, ProductDoc>, id: Id, selected: Option<map<string, string>>, a: string)
    requires AvailableOptions(docs, id, selected).Ok?
    ensures var r := AvailableOptions(docs, id, selected).value;
      a in r.available ==> forall x :: x in r.available[a] <==> exists v :: v in r.matching && a in v.options && v.options[a] == x
  {
    AxisValuesMeans(AvailableOptions(docs, id, selected).value.matching, a);
  }

  method GetAvailableOptions(store: ProductStore, id: Id, selected: Option<map<string, string>>) returns (r: Result<OptionsReport>)
    ensures r == AvailableOptions(store.docs, id, selected)
  {
    var p := store.Load(id);
    if p == null {
      return Fail(NotFound);
    }
    if !p.hasVariations {
      return Fail(BadRequest);
    }
    var sel := if selected.Some? then selected.value else map[];
    var ok, available, matching := ScanOptions(p.variations, sel, p.axes);
    ghost var d := store.docs[id];
    assert d.variations == p.variations && d.axes == p.axes && d.hasVariations;
    if !ok {
      return Fail(ServerError);
    }
    ghost var expected := AvailableOptions(store.docs, id, selected);
    assert expected.Ok?;
    assert expected.value.matching == matching;
    assert expected.value.available == available;
    r := Ok(OptionsReport(p.axes, sel, available, matching, |matching|));
  }

  lemma MatchingNext(vs: seq<Variation>, i: nat, sel: map<string, string>)
    requires i < |vs|
    ensures Matching(vs[..i + 1], sel) == Matching(vs[..i], sel) + (if Eligible(vs[i]) && Selects(sel, vs[i]) then [vs[i]] else [])
  {
    assert vs[..i + 1][..i] == vs[..i];
  }

  lemma AxisValuesNext(vs: seq<Variation>, v: Variation)
    ensures forall a :: AxisValues(vs + [v], a) == AxisValues(vs, a) + (if a in v.options then {v.options[a]} else {})
  {
    assert (vs + [v])[..|vs|] == vs;
  }

  /** `available[a].add(value)` for each option of v that names a known axis. */
  function AddValues(m: map<string, set<string>>, v: Variation): (r: map<string, set<string>>)
    ensures forall a :: a in r <==> a in m
    ensures forall a :: a in r ==> r[a] == (if a in v.options then m[a] + {v.options[a]} else m[a])
  {
    map a | a in m :: if a in v.options then m[a] + {v.options[a]} else m[a]
  }

  /**
   * The `items.forEach` of getAvailableOptions: false as soon as a matching
   * variation carries an option outside the axes, otherwise the matching
   * variations and the values each axis takes over them.
   */
  method ScanOptions(vs: seq<Variation>, sel: map<string, string>, axes: seq<string>)
    returns (ok: bool, available: map<string, set<string>>, matching: seq<Variation>)
    ensures ok <==> Conforms(vs, sel, axes)
    ensures ok ==> matching == Matching(vs, sel) && available == map a | a in axes :: AxisValues(matching, a)
  {
    available := map a | a in axes :: {};
    matching := [];
    var i := 0;
    while i < |vs|
      invariant 0 <= i <= |vs|
      invariant matching == Matching(vs[..i], sel)
      invariant ConformsBelow(vs, sel, axes, i)
      invariant Tracks(available, axes, matching)
    {
      var fits;
      fits, available, matching := ScanItem(vs, i, sel, axes, available, matching);
      if !fits {
        return false, available, matching;
      }
      i := i + 1;
    }
    assert vs[..|vs|] == vs;
    TracksIsMap(available, axes, matching);
    ok := true;
  }

  /** The variations on offer before index n that match the selection keep to the axes. */
  ghost predicate ConformsBelow(vs: seq<Variation>, sel: map<string, string>, axes: seq<string>, n: nat)
    requires n <= |vs|
  {
    forall k :: 0 <= k < n && Eligible(vs[k]) && Selects(sel, vs[k]) ==> WithinAxes(vs[k], axes)
  }

  /** `available` maps exactly the axes, each to the values it takes over `matching`. */
  ghost predicate Tracks(available: map<string, set<string>>, axes: seq<string>, matching: seq<Variation>) {
    (forall a :: a in available <==> a in axes) && forall a :: a in available ==> available[a] == AxisValues(matching, a)
  }

  lemma TracksIsMap(available: map<string, set<string>>, axes: seq<string>, matching: seq<Variation>)
    requires Tracks(available, axes, matching)
    ensures available == map a | a in axes :: AxisValues(matching, a)
  {
  }

  /** One item of the scan: skipped when not on offer or not matching, else its values added and itself listed. */
  method ScanItem(vs: seq<Variation>, i: nat, sel: map<string, string>, axes: seq<string>, available0: map<string, set<string>>, matching0: seq<Variation>)
    returns (fits: bool, available: map<string, set<string>>, matching: seq<Variation>)
    requires i < |vs| && matching0 == Matching(vs[..i], sel)
    requires ConformsBelow(vs, sel, axes, i)
    requires Tracks(available0, axes, matching0)
    ensures fits <==> ConformsBelow(vs, sel, axes, i + 1)
    ensures !fits ==> !Conforms(vs, sel, axes)
    ensures fits ==> matching == Matching(vs[..i + 1], sel) && Tracks(available, axes, matching)
  {
    var v := vs[i];
    available, matching := available0, matching0;
    MatchingNext(vs, i, sel);
    ConformsStep(vs, sel, axes, i);
    if v.isActive && v.quantity > v.reservedStock && Selects(sel, v) {
      if !WithinAxes(v, axes) {
        return false, available, matching;
      }
      TracksStep(available, axes, matching, v);
      available := AddValues(available, v);
      matching := matching + [v];
    }
    fits := true;
  }

  /** The scan of item i keeps the axes exactly when that item is off offer, unselected or within the axes. */
  lemma ConformsStep(vs: seq<Variation>, sel: map<string, string>, axes: seq<string>, i: nat)
    requires i < |vs| && ConformsBelow(vs, sel, axes, i)
    ensures ConformsBelow(vs, sel, axes, i + 1) <==> !(Eligible(vs[i]) && Selects(sel, vs[i])) || WithinAxes(vs[i], axes)
    ensures !ConformsBelow(vs, sel, axes, i + 1) ==> !Conforms(vs, sel, axes)
  {
  }

  /** Adding a variation to the scan keeps `available` in step with `matching`; options outside the axes are not recorded. */
  lemma TracksStep(available: map<string, set<string>>, axes: seq<string>, matching: seq<Variation>, v: Variation)
    requires Tracks(available, axes, matching)
    ensures Tracks(AddValues(available, v), axes, matching + [v])
  {
    AxisValuesNext(matching, v);
  }

  /** The values of a variation's other options. */
  function OtherValues(v: Variation, first: string): set<string> {
    set k | k in v.options && k != first :: v.options[k]
  }

  /** The values the other axes take over the variations whose first-axis value is x. */
  function SecondValues(vs: seq<Variation>, first: string, x: string): set<string> {
    if |vs| == 0 then {}
    else
      var v := vs[|vs| - 1];
      SecondValues(vs[..|vs| - 1], first, x) + (if first in v.options && v.options[first] == x then OtherValues(v, first) else {})
  }

  /** w is a second value of x exactly when some variation with first-axis value x has w on another option. */
  lemma {:induction false} SecondValuesMeans(vs: seq<Variation>, first: string, x: string)
    ensures forall w :: w in SecondValues(vs, first, x) <==>
      exists v :: v in vs && first in v.options && v.options[first] == x && w in OtherValues(v, first)
  {
    if |vs| > 0 {
      var init := vs[..|vs| - 1];
      SecondValuesMeans(init, first, x);
      assert vs == init + [vs[|vs| - 1]];
    }
  }

  datatype VariationsReport = VariationsReport(
    hasVariations: bool,
    axes: seq<string>,
    byAxis: map<string, set<string>>,
    matrix: map<string, set<string>>,
    items: seq<Variation>)

  /**
   * getProductVariations (public): for a product with variations, the values
   * each axis takes over the variations on offer, and for each value x of
   * the first axis the values of the other options of the variations on
   * offer whose first-axis value is x.
   */
  function ProductVariations(docs: map<Id, ProductDoc>, id: Id): (r: Result<VariationsReport>)
    ensures id !in docs <==> r == Fail(NotFound)
    ensures r.Ok? ==> var d := docs[id];
      r.value.items == d.variations && r.value.axes == d.axes && r.value.hasVariations == d.hasVariations &&
      (forall a :: a in r.value.byAxis <==> d.hasVariations && a in d.axes) &&
      (forall x :: x in r.value.matrix <==> d.hasVariations && |d.axes| > 0 && x in r.value.byAxis[d.axes[0]])
  {
    if id !in docs then Fail(NotFound)
    else
      var d := docs[id];
      if !d.hasVariations then Ok(VariationsReport(false, d.axes, map[], map[], d.variations))
      else
        var offered := Matching(d.variations, map[]);
        var byAxis := map a | a in d.axes :: AxisValues(offered, a);
        var matrix := if |d.axes| == 0 then map[]
          else map x | x in byAxis[d.axes[0]] :: SecondValues(offered, d.axes[0], x);
        Ok(VariationsReport(true, d.axes, byAxis, matrix, d.variations))
  }

  /**
   * The values of each axis are those its offered variations take, and the
   * matrix row of a first-axis value x holds the other option values of the
   * offered variations whose first-axis value is x.
   */
  lemma VariationsValues(docs: map<Id, ProductDoc>, id: Id, a: string, x: string)
    requires ProductVariations(docs, id).Ok?
    ensures var r := ProductVariations(docs, id).value; var d := docs[id];
      (a in r.byAxis ==>
        forall y :: y in r.byAxis[a] <==> exists v :: v in d.variations && Eligible(v) && a in v.options && v.options[a] == y) &&
      (x in r.matrix ==>
        forall w :: w in r.matrix[x] <==>
          exists v :: v in d.variations && Eligible(v) && d.axes[0] in v.options && v.options[d.axes[0]] == x && w in OtherValues(v, d.axes[0]))
  {
    var d := docs[id];
    var offered := Matching(d.variations, map[]);
    AxisValuesMeans(offered, a);
    if |d.axes| > 0 {
      SecondValuesMeans(offered, d.axes[0], x);
    }
  }

  method GetProductVariations(store: ProductStore, id: Id) returns (r: Result<VariationsReport>)
    ensures r == ProductVariations(store.docs, id)
  {
    var p := store.Load(id);
    if p == null {
      return Fail(NotFound);
    }
    if !p.hasVariations {
      return Ok(VariationsReport(false, p.axes, map[], map[], p.variations));
    }
    var byAxis, offered := ScanOffered(p.variations, p.axes);
    var matrix: map<string, set<string>> := map[];
    if |p.axes| > 0 {
      matrix := FirstAxisMatrix(offered, p.axes[0]);
    }
    ghost var expected := ProductVariations(store.docs, id);
    assert expected.Ok? && expected.value.byAxis == byAxis;
    assert expected.value.matrix == matrix;
    r := Ok(VariationsReport(true, p.axes, byAxis, matrix, p.variations));
  }

  /** The first `items.forEach` of getProductVariations: the values each axis takes over the variations on offer. */
  method ScanOffered(vs: seq<Variation>, axes: seq<string>) returns (byAxis: map<string, set<string>>, offered: seq<Variation>)
    ensures offered == Matching(vs, map[])
    ensures byAxis == map a | a in axes :: AxisValues(offered, a)
  {
    byAxis := map a | a in axes :: {};
    offered := [];
    var i := 0;
    while i < |vs|
      invariant 0 <= i <= |vs|
      invariant offered == Matching(vs[..i], map[])
      invariant Tracks(byAxis, axes, offered)
    {
      var v := vs[i];
      MatchingNext(vs, i, map[]);
      if v.isActive && v.quantity > v.reservedStock {
        TracksStep(byAxis, axes, offered, v);
        byAxis := AddValues(byAxis, v);
        offered := offered + [v];
      }
      i := i + 1;
    }
    assert vs[..|vs|] == vs;
    TracksIsMap(byAxis, axes, offered);
  }

  lemma SecondValuesNext(vs: seq<Variation>, v: Variation, first: string)
    ensures forall x :: SecondValues(vs + [v], first, x) == SecondValues(vs, first, x) + (if first in v.options && v.options[first] == x then OtherValues(v, first) else {})
  {
    assert (vs + [v])[..|vs|] == vs;
  }

  /** A value the first axis never takes has no second values. */
  lemma {:induction false} SecondValuesOutside(vs: seq<Variation>, first: string, x: string)
    requires x !in AxisValues(vs, first)
    ensures SecondValues(vs, first, x) == {}
  {
    if |vs| > 0 {
      SecondValuesOutside(vs[..|vs| - 1], first, x);
    }
  }

  /** The matrix of getProductVariations, built in one pass over the variations on offer. */
  method FirstAxisMatrix(offered: seq<Variation>, first: string) returns (matrix: map<string, set<string>>)
    ensures matrix == map x | x in AxisValues(offered, first) :: SecondValues(offered, first, x)
  {
    matrix := map[];
    var j := 0;
    while j < |offered|
      invariant 0 <= j <= |offered|
      invariant forall x :: x in matrix <==> x in AxisValues(offered[..j], first)
      invariant forall x :: x in matrix ==> matrix[x] == SecondValues(offered[..j], first, x)
    {
      var v := offered[j];
      assert offered[..j + 1] == offered[..j] + [v];
      AxisValuesNext(offered[..j], v);
      SecondValuesNext(offered[..j], v, first);
      if first in v.options {
        var x := v.options[first];
        if x !in matrix {
          SecondValuesOutside(offered[..j], first, x);
        }
        matrix := matrix[x := (if x in matrix then matrix[x] else {}) + OtherValues(v, first)];
      }
      j := j + 1;
    }
    assert offered[..|offered|] == offered;
  }
}
