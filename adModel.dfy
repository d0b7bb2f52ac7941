/**
 * An ad in one of five storefront slots or the seller dashboard's slot:
 * the banner's document and checks with the ad's slot names.
 */
module AdModel {
  import opened Base
  import opened BannerModel

  const AdSlots: set<string> := {"ad1", "ad2", "ad3", "ad4", "ad5", "sellerAd"}

  predicate AdValid(d: PlacementDoc) {
    SaveValid(d, AdSlots)
  }

  /** Banners and ads share no slot name, so neither can stand for the other. */
  lemma SlotsDisjoint(d: PlacementDoc)
    ensures !(AdValid(d) && BannerValid(d))
  {
  }

  /** A saved structured ad has all three texts; a saved html ad has its content. */
  lemma AdKinds(d: PlacementDoc)
    requires AdValid(d)
    ensures d.kind == "structured" ==> Truthy(d.headline) && Truthy(d.description) && Truthy(d.ctaText)
    ensures d.kind == "html" ==> Truthy(d.htmlContent)
    ensures d.kind == "structured" || d.kind == "html"
  {
  }
}
