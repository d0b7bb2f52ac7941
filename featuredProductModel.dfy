/** The storefront's set of featured products. */
module FeaturedProductModel {
  import opened Base

  datatype FeaturedDoc = FeaturedDoc(id: Id, products: seq<Id>, updatedBy: Id, updatedAt: Time)

  /** The pre-save hook checks only the number of entries, not that they differ. */
  predicate FeaturedValid(f: FeaturedDoc) {
    |f.products| == 9
  }

  /** Nine copies of one product pass the hook. */
  lemma RepeatsPass(p: Id, editor: Id, at: Time)
    ensures FeaturedValid(FeaturedDoc(0, [p, p, p, p, p, p, p, p, p], editor, at))
  {
  }
}
