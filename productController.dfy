/**
 * The seller's bulk product import: each row of the uploaded list is either
 * created as a product of the seller or reported as an error under its
 * spreadsheet row number (list position + 2), and the answer counts both.
 */
module ProductImport {
  import opened Base
  import opened ProductModel

  /** One uploaded row; an absent text field is "" and an absent number is None. */
  datatype ImportRow = ImportRow(
    title: string,
    description: string,
    price: Option<int>,
    quantity: Option<int>,
    category: Option<Id>,
    imageCover: string,
    sku: Option<string>,
    status: Option<string>,
    discountPercentage: Option<int>)

  /** The required-field guard: each of the six must be truthy, so a price or quantity of 0 is missing. */
  predicate HasRequired(r: ImportRow) {
    && r.title != "" && r.description != ""
    && NumOr(r.price, 0) != 0 && NumOr(r.quantity, 0) != 0
    && r.category.Some? && r.imageCover != ""
  }

  datatype RowFailure = Missing | Rejected
  datatype RowError = RowError(row: nat, failure: RowFailure)

  /** Products, created ones in order, and row errors in order. */
  datatype Imported = Imported(docs: map<Id, ProductDoc>, created: seq<ProductDoc>, errors: seq<RowError>)

  /** Some stored product already carries this sku. */
  predicate SkuTaken(docs: map<Id, ProductDoc>, c: string) {
    exists id | id in docs :: docs[id].sku == Some(c)
  }

  /**
   * The generated sku from attempt `a` on: the first of the candidates
   * `gen(i, a)`, …, `gen(i, 4)` that no product carries, else none.
   */
  function FreeFrom(docs: map<Id, ProductDoc>, i: nat, gen: (nat, nat) -> string, a: nat): Option<string>
    decreases 5 - a
  {
    if a >= 5 then None
    else if !SkuTaken(docs, gen(i, a)) then Some(gen(i, a))
    else FreeFrom(docs, i, gen, a + 1)
  }

  /**
   * What the handler takes from its surroundings: the caller's seller
   * profile id, the slug library, the random sku candidates (attempt a of
   * row i), the high-resolution-clock fallback sku of row i, and the id
   * generator.
   */
  datatype Env = Env(seller: Id, slugify: string -> string, gen: (nat, nat) -> string, fallback: nat -> string, idOf: nat -> Id)

  /** The sku a row is stored with: the supplied one, else a free candidate, else the fallback. */
  function ChosenSku(docs: map<Id, ProductDoc>, r: ImportRow, i: nat, e: Env): (s: string)
    ensures e.fallback(i) != "" ==> s != ""
    ensures StrOr(r.sku, "") == "" && s != e.fallback(i) ==> !SkuTaken(docs, s)
  {
    if StrOr(r.sku, "") != "" then r.sku.value
    else
      FreeFromRules(docs, i, e.gen, 0);
      var c := FreeFrom(docs, i, e.gen, 0);
      if c.Some? && c.value != "" then c.value else e.fallback(i)
  }

  /**
   * A supplied sku is kept; otherwise the sku is one of the five candidates
   * for the row that no stored product carries, or the fallback, and it is
   * the fallback when all five are taken.
   */
  lemma ChosenSkuRules(docs: map<Id, ProductDoc>, r: ImportRow, i: nat, e: Env)
    ensures StrOr(r.sku, "") != "" ==> ChosenSku(docs, r, i, e) == r.sku.value
    ensures StrOr(r.sku, "") == "" ==> (
      var s := ChosenSku(docs, r, i, e);
      s == e.fallback(i) || exists a :: 0 <= a < 5 && s == e.gen(i, a) && !SkuTaken(docs, s))
    ensures StrOr(r.sku, "") == "" && (forall a :: 0 <= a < 5 ==> SkuTaken(docs, e.gen(i, a))) ==>
      ChosenSku(docs, r, i, e) == e.fallback(i)
  {
    FreeFromRules(docs, i, e.gen, 0);
  }

  lemma {:induction false} FreeFromRules(docs: map<Id, ProductDoc>, i: nat, gen: (nat, nat) -> string, a: nat)
    ensures var c := FreeFrom(docs, i, gen, a);
      && (c.Some? ==> exists b :: a <= b < 5 && c.value == gen(i, b) && !SkuTaken(docs, c.value))
      && ((forall b :: a <= b < 5 ==> SkuTaken(docs, gen(i, b))) ==> c.None?)
    decreases 5 - a
  {
    if a < 5 && SkuTaken(docs, gen(i, a)) {
      FreeFromRules(docs, i, gen, a + 1);
    }
  }

  /** The sku retry loop: at most five attempts, each a sku lookup. */
  method PickSku(docs: map<Id, ProductDoc>, r: ImportRow, i: nat, e: Env) returns (sku: string)
    ensures sku == ChosenSku(docs, r, i, e)
  {
    if StrOr(r.sku, "") != "" {
      return r.sku.value;
    }
    sku := "";
    var unique := false;
    var attempt := 0;
    while !unique && attempt < 5
      invariant 0 <= attempt <= 5
      invariant !unique ==> sku == "" && FreeFrom(docs, i, e.gen, attempt) == FreeFrom(docs, i, e.gen, 0)
      invariant unique ==> Some(sku) == FreeFrom(docs, i, e.gen, 0)
      decreases 5 - attempt, if unique then 0 else 1
    {
      var candidate := e.gen(i, attempt);
      if !SkuTaken(docs, candidate) {
        sku := candidate;
        unique := true;
      }
      attempt := attempt + 1;
    }
    if sku == "" {
      sku := e.fallback(i);
    }
  }

  /** The product a complete row creates: the row's fields, then slug, sku, the seller and the defaults. */
  function NewProduct(id: Id, r: ImportRow, sku: string, seller: Id, status: PublishStatus): (d: ProductDoc)
    requires r.price.Some? && r.quantity.Some?
    ensures d.seller == Some(seller) && d.sku == Some(sku) && d.variations == [] && d.sold == 0
    ensures d.title == r.title && d.price == r.price.value && d.quantity == r.quantity.value
  {
    ProductDoc(id, r.title, r.description, Some(sku), r.category, Some(seller), r.imageCover, status,
      r.quantity.value, 0, r.price.value, if r.discountPercentage.Some? then r.discountPercentage.value else 0, 0,
      0, 10, false, [], [], false, [], [], 0, [], [])
  }

  /** `product.status || "published"`, checked against the enum. */
  function StatusOf(r: ImportRow): Option<PublishStatus> {
    var s := StrOr(r.status, "published");
    if s == "published" then Some(Published) else if s == "draft" then Some(Draft) else None
  }

  /** The schema's checks, read off the row: the product a complete row makes carries these values. */
  predicate RowValid(r: ImportRow) {
    && 3 <= |r.title| <= 100 && 10 <= |r.description| <= 500
    && r.category.Some? && r.imageCover != ""
    && NumOr(r.quantity, 0) >= 1 && NumOr(r.price, 0) <= 250000
    && 0 <= (if r.discountPercentage.Some? then r.discountPercentage.value else 0) <= 100
  }

  /** Whether a complete row's create succeeds: the status is in the enum, the slug is non-empty and the schema accepts the product. */
  predicate Accepted(r: ImportRow, e: Env) {
    StatusOf(r).Some? && e.slugify(r.title) != "" && RowValid(r)
  }

  /** The schema accepts a complete row's product, whatever its sku, exactly when RowValid holds. */
  lemma SchemaOfRow(r: ImportRow, i: nat, e: Env, sku: string, status: PublishStatus)
    requires HasRequired(r)
    ensures SchemaValid(NewProduct(e.idOf(i), r, sku, e.seller, status)) <==> RowValid(r)
  {
  }

  /** The product an accepted row i stores, after the pre-save hook. */
  function Stored(docs: map<Id, ProductDoc>, r: ImportRow, i: nat, e: Env): (d: ProductDoc)
    requires HasRequired(r)
    ensures d.seller == Some(e.seller) && d.sku.Some? && d.variations == []
  {
    PreSave(NewProduct(e.idOf(i), r, ChosenSku(docs, r, i, e), e.seller, if StatusOf(r).Some? then StatusOf(r).value else Published))
  }

  /** How row i ends: reported missing, reported rejected, or created (None). */
  function Classify(r: ImportRow, i: nat, e: Env): (c: Option<RowFailure>)
    ensures c == Some(Missing) <==> !HasRequired(r)
    ensures c.None? <==> HasRequired(r) && StatusOf(r).Some? && e.slugify(r.title) != "" && RowValid(r)
  {
    if !HasRequired(r) then Some(Missing)
    else if !Accepted(r, e) then Some(Rejected)
    else None
  }

  /** The error a classification adds for row i. */
  function ErrorFor(c: Option<RowFailure>, i: nat): seq<RowError> {
    if c.Some? then [RowError(i + 2, c.value)] else []
  }

  /** The outcome of row i: an error for a missing field or a rejected create, else the created product. */
  function ImportStep(st: Imported, r: ImportRow, i: nat, e: Env): (st': Imported)
    ensures |st'.created| + |st'.errors| == |st.created| + |st.errors| + 1
    ensures st'.errors == st.errors + ErrorFor(Classify(r, i, e), i)
  {
    if !HasRequired(r) then st.(errors := st.errors + [RowError(i + 2, Missing)])
    else if !Accepted(r, e) then st.(errors := st.errors + [RowError(i + 2, Rejected)])
    else
      var d := Stored(st.docs, r, i, e);
      Imported(st.docs[d.id := d], st.created + [d], st.errors)
  }

  /** The state after the first k rows. */
  function ImportFirst(st: Imported, rows: seq<ImportRow>, k: nat, e: Env): Imported
    requires k <= |rows|
  {
    if k == 0 then st
    else ImportStep(ImportFirst(st, rows, k - 1, e), rows[k - 1], k - 1, e)
  }

  /** The classification of every row. */
  function Classes(rows: seq<ImportRow>, e: Env): (cs: seq<Option<RowFailure>>)
    ensures |cs| == |rows| && forall i :: 0 <= i < |rows| ==> cs[i] == Classify(rows[i], i, e)
  {
    seq(|rows|, i requires 0 <= i < |rows| => Classify(rows[i], i, e))
  }

  /** The error list of a run of classified rows. */
  function ErrorsFrom(cs: seq<Option<RowFailure>>): seq<RowError> {
    if |cs| == 0 then [] else ErrorsFrom(cs[..|cs| - 1]) + ErrorFor(cs[|cs| - 1], |cs| - 1)
  }

  /** The errors of the first k rows, which depend on the rows alone. */
  function ErrorsOf(rows: seq<ImportRow>, k: nat, e: Env): seq<RowError>
    requires k <= |rows|
  {
    if k == 0 then [] else ErrorsOf(rows, k - 1, e) + ErrorFor(Classify(rows[k - 1], k - 1, e), k - 1)
  }

  /** Every row ends in exactly one of the two lists, and the errors are those the rows' classes give. */
  lemma {:induction false} ImportCounts(docs: map<Id, ProductDoc>, rows: seq<ImportRow>, k: nat, e: Env)
    requires k <= |rows|
    ensures var st := ImportFirst(Imported(docs, [], []), rows, k, e);
      |st.created| + |st.errors| == k && st.errors == ErrorsOf(rows, k, e)
  {
    if k > 0 {
      ImportCounts(docs, rows, k - 1, e);
    }
  }

  lemma {:induction false} ErrorsOfClasses(rows: seq<ImportRow>, k: nat, e: Env)
    requires k <= |rows|
    ensures ErrorsOf(rows, k, e) == ErrorsFrom(Classes(rows, e)[..k])
  {
    if k > 0 {
      ErrorsOfClasses(rows, k - 1, e);
      var cs := Classes(rows, e);
      assert cs[..k][..k - 1] == cs[..k - 1];
    }
  }

  /** The error rows are at least 2, below `bound`, and strictly increasing along the list. */
  predicate RowsBelow(errors: seq<RowError>, bound: nat) {
    |errors| == 0 || (
      var last := errors[|errors| - 1].row;
      2 <= last < bound && RowsBelow(errors[..|errors| - 1], last))
  }

  /** What RowsBelow says, position by position. */
  lemma {:induction false} RowsBelowMeaning(errors: seq<RowError>, bound: nat)
    requires RowsBelow(errors, bound)
    ensures forall j :: 0 <= j < |errors| ==> 2 <= errors[j].row < bound
    ensures forall j, j' :: 0 <= j < j' < |errors| ==> errors[j].row < errors[j'].row
  {
    if |errors| > 0 {
      var n := |errors| - 1;
      RowsBelowMeaning(errors[..n], errors[n].row);
      assert forall j :: 0 <= j < n ==> errors[..n][j] == errors[j];
    }
  }

  lemma {:induction false} RowsBelowWeaker(errors: seq<RowError>, b: nat, b': nat)
    requires RowsBelow(errors, b) && b <= b'
    ensures RowsBelow(errors, b')
  {
  }

  lemma {:induction false} ErrorsIncrease(cs: seq<Option<RowFailure>>)
    ensures RowsBelow(ErrorsFrom(cs), |cs| + 2)
  {
    if |cs| > 0 {
      var n := |cs| - 1;
      ErrorsIncrease(cs[..n]);
      var prev := ErrorsFrom(cs[..n]);
      if cs[n].None? {
        assert ErrorsFrom(cs) == prev;
        RowsBelowWeaker(prev, n + 2, n + 3);
      } else {
        assert (prev + ErrorFor(cs[n], n))[..|prev|] == prev;
      }
    }
  }

  /** The errors are exactly the classified rows: a row is reported, with its failure, exactly when it has a class. */
  lemma {:induction false} ErrorsExact(cs: seq<Option<RowFailure>>)
    ensures forall i :: 0 <= i < |cs| && cs[i].Some? ==> RowError(i + 2, cs[i].value) in ErrorsFrom(cs)
    ensures forall x :: x in ErrorsFrom(cs) ==> 2 <= x.row < |cs| + 2 && cs[x.row - 2] == Some(x.failure)
  {
    if |cs| > 0 {
      var n := |cs| - 1;
      ErrorsExact(cs[..n]);
      var prev := ErrorsFrom(cs[..n]);
      assert forall x :: x in ErrorsFrom(cs) <==> x in prev || x in ErrorFor(cs[n], n);
      assert forall i :: 0 <= i < n ==> cs[..n][i] == cs[i];
    }
  }

  /**
   * The answer's error list names rows 2 to |rows| + 1 in increasing order;
   * a row missing a required field is reported as missing, and a complete
   * row is reported as rejected exactly when its create is refused.
   */
  lemma ErrorReport(docs: map<Id, ProductDoc>, rows: seq<ImportRow>, e: Env)
    ensures var errs := ImportFirst(Imported(docs, [], []), rows, |rows|, e).errors;
      && (forall j :: 0 <= j < |errs| ==> 2 <= errs[j].row < |rows| + 2)
      && (forall j, j' :: 0 <= j < j' < |errs| ==> errs[j].row < errs[j'].row)
      && (forall i :: 0 <= i < |rows| && !HasRequired(rows[i]) ==> RowError(i + 2, Missing) in errs)
      && (forall i :: 0 <= i < |rows| && HasRequired(rows[i]) ==> (RowError(i + 2, Rejected) in errs <==> !Accepted(rows[i], e)))
  {
    var cs := Classes(rows, e);
    ImportCounts(docs, rows, |rows|, e);
    ErrorsOfClasses(rows, |rows|, e);
    assert cs[..|rows|] == cs;
    ClassifiedErrors(rows, e);
  }

  /** ErrorReport, stated on the classification alone. */
  lemma ClassifiedErrors(rows: seq<ImportRow>, e: Env)
    ensures var errs := ErrorsFrom(Classes(rows, e));
      && (forall j :: 0 <= j < |errs| ==> 2 <= errs[j].row < |rows| + 2)
      && (forall j, j' :: 0 <= j < j' < |errs| ==> errs[j].row < errs[j'].row)
      && (forall i :: 0 <= i < |rows| && !HasRequired(rows[i]) ==> RowError(i + 2, Missing) in errs)
      && (forall i :: 0 <= i < |rows| && HasRequired(rows[i]) ==> (RowError(i + 2, Rejected) in errs <==> !Accepted(rows[i], e)))
  {
    var cs := Classes(rows, e);
    ErrorsIncrease(cs);
    RowsBelowMeaning(ErrorsFrom(cs), |rows| + 2);
    ClassifiedRows(rows, e);
  }

  /** Each row is reported with the failure it is classified with. */
  lemma ClassifiedRows(rows: seq<ImportRow>, e: Env)
    ensures var errs := ErrorsFrom(Classes(rows, e));
      && (forall i :: 0 <= i < |rows| && !HasRequired(rows[i]) ==> RowError(i + 2, Missing) in errs)
      && (forall i :: 0 <= i < |rows| && HasRequired(rows[i]) ==> (RowError(i + 2, Rejected) in errs <==> !Accepted(rows[i], e)))
  {
    var cs := Classes(rows, e);
    var errs := ErrorsFrom(cs);
    ErrorsExact(cs);
    forall i | 0 <= i < |rows| && HasRequired(rows[i])
      ensures RowError(i + 2, Rejected) in errs <==> !Accepted(rows[i], e)
    {
      if RowError(i + 2, Rejected) in errs {
        assert cs[i] == Some(Rejected);
      }
    }
  }

  /** Every created product belongs to the caller's seller profile, carries a sku and has no variations. */
  lemma {:induction false} CreatedBelongToSeller(docs: map<Id, ProductDoc>, rows: seq<ImportRow>, k: nat, e: Env)
    requires k <= |rows|
    ensures var created := ImportFirst(Imported(docs, [], []), rows, k, e).created;
      forall d :: d in created ==> d.seller == Some(e.seller) && d.sku.Some? && d.variations == []
  {
    if k > 0 {
      CreatedBelongToSeller(docs, rows, k - 1, e);
    }
  }

  datatype Report = Report(successCount: nat, failureCount: nat, created: seq<ProductDoc>, errors: seq<RowError>)

  /** One pass of the loop body, on the store. */
  method ImportOne(store: ProductStore, st: Imported, r: ImportRow, i: nat, e: Env) returns (st': Imported)
    requires store.Valid() && store.docs == st.docs
    modifies store
    ensures store.Valid()
    ensures st' == ImportStep(st, r, i, e) && store.docs == st'.docs
  {
    if !HasRequired(r) {
      return st.(errors := st.errors + [RowError(i + 2, Missing)]);
    }
    var sku := PickSku(store.docs, r, i, e);
    var status := StatusOf(r);
    var d := NewProduct(e.idOf(i), r, sku, e.seller, if status.Some? then status.value else Published);
    if status.None? || e.slugify(r.title) == "" {
      return st.(errors := st.errors + [RowError(i + 2, Rejected)]);
    }
    SchemaOfRow(r, i, e, sku, status.value);
    var p := new Product.FromDoc(d);
    var saved := store.Save(p);
    if saved.Failed? {
      return st.(errors := st.errors + [RowError(i + 2, Rejected)]);
    }
    st' := Imported(store.docs, st.created + [p.Doc()], st.errors);
  }

  /** bulkImportProducts; `seller` is the caller's seller profile, None when there is none (404). */
  method BulkImportProducts(store: ProductStore, seller: Option<Id>, rows: seq<ImportRow>, slugify: string -> string,
                            gen: (nat, nat) -> string, fallback: nat -> string, idOf: nat -> Id) returns (r: Result<Report>)
    requires store.Valid()
    modifies store
    ensures store.Valid()
    ensures seller.None? ==> r == Fail(NotFound) && store.docs == old(store.docs)
    ensures seller.Some? && rows == [] ==> r == Fail(BadRequest) && store.docs == old(store.docs)
    ensures seller.Some? && rows != [] ==> (
      var st := ImportFirst(Imported(old(store.docs), [], []), rows, |rows|, Env(seller.value, slugify, gen, fallback, idOf));
      && r == Ok(Report(|st.created|, |st.errors|, st.created, st.errors))
      && store.docs == st.docs)
  {
    if seller.None? {
      return Fail(NotFound);
    }
    if |rows| == 0 {
      return Fail(BadRequest);
    }
    var e := Env(seller.value, slugify, gen, fallback, idOf);
    var st := Imported(store.docs, [], []);
    ghost var st0 := st;
    for i := 0 to |rows|
      invariant store.Valid()
      invariant st == ImportFirst(st0, rows, i, e) && store.docs == st.docs
    {
      ghost var prev := st;
      st := ImportOne(store, st, rows[i], i, e);
      assert st == ImportFirst(st0, rows, i + 1, e) by {
        assert ImportFirst(st0, rows, i + 1, e) == ImportStep(prev, rows[i], i, e);
      }
    }
    r := Ok(Report(|st.created|, |st.errors|, st.created, st.errors));
  }
}
