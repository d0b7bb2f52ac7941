/**
 * The storefront's featured products: the admin stores a new set of nine
 * existing products, and the most recently updated set is the one shown.
 */
module FeaturedAdmin {
  import opened Base
  import opened Listing
  import opened FeaturedProductModel

  datatype Saved = Saved(r: Result<FeaturedDoc>, after: seq<FeaturedDoc>)

  /** The distinct ids of `products` that name an existing product (`find({ _id: { $in: products } })`). */
  function Found(products: seq<Id>, existing: set<Id>): set<Id> {
    set p | p in products && p in existing
  }

  /**
   * setFeaturedProducts: a missing list or one of another length than 9 is
   * 400, and so is a list that does not find nine products; otherwise a new
   * set is created by the caller at `now`.
   */
  function SetFeaturedRequest(fs: seq<FeaturedDoc>, next: Id, products: Option<seq<Id>>, existing: set<Id>,
                              caller: Id, now: Time): (s: Saved)
    ensures products.None? || |products.value| != 9 ==> s.r == Fail(BadRequest)
    ensures s.r.Fail? ==> s.after == fs
    ensures s.r.Ok? ==> (
      && products.Some? && |Found(products.value, existing)| == 9
      && s.r.value == FeaturedDoc(next, products.value, caller, now)
      && s.after == fs + [s.r.value])
  {
    if products.None? || |products.value| != 9 then Saved(Fail(BadRequest), fs)
    else if |Found(products.value, existing)| != 9 then Saved(Fail(BadRequest), fs)
    else
      var d := FeaturedDoc(next, products.value, caller, now);
      if !FeaturedValid(d) then Saved(Fail(Invalid), fs) else Saved(Ok(d), fs + [d])
  }

  function UpdatedAt(f: FeaturedDoc): int {
    f.updatedAt
  }

  /** getFeaturedProducts: `findOne().sort({ updatedAt: -1 })`, or null. */
  function GetFeatured(fs: seq<FeaturedDoc>): (r: Option<FeaturedDoc>)
    ensures r.None? <==> |fs| == 0
    ensures r.Some? ==> exists k :: 0 <= k < |fs| && r.value == fs[k]
    ensures r.Some? ==> forall i :: 0 <= i < |fs| ==> fs[i].updatedAt <= r.value.updatedAt
  {
    if |fs| == 0 then None
    else
      SortDescHead(fs, UpdatedAt);
      Some(SortDesc(fs, UpdatedAt)[0])
  }

  /** The collection, with ids drawn from a counter. */
  class FeaturedStore {
    var sets: seq<FeaturedDoc>
    var nextId: Id

    constructor ()
      ensures sets == [] && nextId == 0
    {
      sets := [];
      nextId := 0;
    }

    method Create(d: FeaturedDoc)
      requires d.id == nextId
      modifies this
      ensures nextId == old(nextId) + 1
      ensures sets == old(sets) + [d]
    {
      sets := sets + [d];
      nextId := nextId + 1;
    }
  }

  method SetFeaturedProducts(store: FeaturedStore, products: Option<seq<Id>>, existing: set<Id>, caller: Id, now: Time)
    returns (r: Result<FeaturedDoc>)
    modifies store
    ensures Saved(r, store.sets) == SetFeaturedRequest(old(store.sets), old(store.nextId), products, existing, caller, now)
  {
    if products.None? || |products.value| != 9 {
      return Fail(BadRequest);
    }
    if |Found(products.value, existing)| != 9 {
      return Fail(BadRequest);
    }
    var d := FeaturedDoc(store.nextId, products.value, caller, now);
    if !FeaturedValid(d) {
      return Fail(Invalid);
    }
    store.Create(d);
    r := Ok(d);
  }

  function Elems(s: seq<Id>): set<Id> {
    set x | x in s
  }

  /** A subset is no larger. */
  lemma {:induction false} SubsetCard(a: set<Id>, b: set<Id>)
    requires a <= b
    ensures |a| <= |b|
    decreases |a|
  {
    if a != {} {
      var x :| x in a;
      SubsetCard(a - {x}, b - {x});
    }
  }

  /** A list has as many distinct elements as entries exactly when no entry repeats. */
  lemma {:induction false} DistinctCard(s: seq<Id>)
    ensures |Elems(s)| <= |s|
    ensures |Elems(s)| == |s| <==> Distinct(s)
  {
    if |s| > 0 {
      var init, x := s[..|s| - 1], s[|s| - 1];
      DistinctCard(init);
      assert s == init + [x];
      var e := Elems(init);
      assert Elems(s) == e + {x};
      if x in init {
        assert Elems(s) == e;
        var k :| 0 <= k < |init| && init[k] == x;
        assert s[k] == s[|s| - 1];
      } else {
        assert |e + {x}| == |e| + 1;
        if Distinct(init) {
          forall i, j | 0 <= i < j < |s|
            ensures s[i] != s[j]
          {
            if j == |s| - 1 {
              assert init[i] in init;
            } else {
              assert s[i] == init[i] && s[j] == init[j];
            }
          }
        } else {
          var i, j :| 0 <= i < j < |init| && init[i] == init[j];
          assert s[i] == s[j];
        }
        if Distinct(s) {
          forall i, j | 0 <= i < j < |init|
            ensures init[i] != init[j]
          {
            assert s[i] == init[i] && s[j] == init[j];
          }
        }
      }
    }
  }

  /** Nine distinct found ids means every id was found and none repeats. */
  lemma FoundNine(products: seq<Id>, existing: set<Id>)
    requires |products| == 9
    ensures |Found(products, existing)| == 9 <==> Distinct(products) && forall p :: p in products ==> p in existing
  {
    var all := Elems(products);
    var found := Found(products, existing);
    DistinctCard(products);
    SubsetCard(found, all);
    if |found| == 9 {
      forall p | p in products
        ensures p in existing
      {
        if p !in existing {
          assert p in all;
          SubsetCard(found, all - {p});
        }
      }
    }
    if Distinct(products) && forall p :: p in products ==> p in existing {
      assert found == all;
    }
  }

  /**
   * A set is stored exactly when it names nine distinct existing products
   * (nine copies of one product, which the hook alone would let through,
   * are refused); the stored set is appended and the others are kept.
   */
  lemma SetFeaturedRules(fs: seq<FeaturedDoc>, next: Id, products: Option<seq<Id>>, existing: set<Id>, caller: Id, now: Time)
    ensures var x := SetFeaturedRequest(fs, next, products, existing, caller, now);
      && (x.r.Ok? <==> products.Some? && |products.value| == 9 && Distinct(products.value)
                       && forall p :: p in products.value ==> p in existing)
      && (x.r.Ok? ==> x.r.value.products == products.value && x.r.value.updatedBy == caller && x.after == fs + [x.r.value])
      && (x.r.Fail? ==> x.r == Fail(BadRequest) && x.after == fs)
  {
    if products.Some? && |products.value| == 9 {
      FoundNine(products.value, existing);
    }
  }

  /** The set shown is one of the stored ones, updated no earlier than any other. */
  lemma GetFeaturedRules(fs: seq<FeaturedDoc>)
    ensures GetFeatured(fs).None? <==> |fs| == 0
    ensures GetFeatured(fs).Some? ==> GetFeatured(fs).value in fs && forall f :: f in fs ==> f.updatedAt <= GetFeatured(fs).value.updatedAt
  {
    if |fs| > 0 {
      var sorted := SortDesc(fs, UpdatedAt);
      SortDescMembers(fs, UpdatedAt);
      assert sorted[0] in sorted;
      forall f | f in fs
        ensures f.updatedAt <= sorted[0].updatedAt
      {
        var j :| 0 <= j < |sorted| && sorted[j] == f;
        if j > 0 {
          assert UpdatedAt(sorted[0]) >= UpdatedAt(sorted[j]);
        }
      }
    }
  }

  /** A set stored later than every other is the one shown afterwards. */
  lemma SetThenGet(fs: seq<FeaturedDoc>, next: Id, products: Option<seq<Id>>, existing: set<Id>, caller: Id, now: Time)
    requires forall f :: f in fs ==> f.updatedAt < now
    ensures var x := SetFeaturedRequest(fs, next, products, existing, caller, now);
      x.r.Ok? ==> GetFeatured(x.after) == Some(x.r.value)
  {
    var x := SetFeaturedRequest(fs, next, products, existing, caller, now);
    if x.r.Ok? {
      GetFeaturedRules(x.after);
      var g := GetFeatured(x.after).value;
      assert x.r.value in x.after;
    }
  }
}
