/**
 * A banner in one of three named slots. The ad schema is the same document
 * with other slot names, so the shape and its checks are stated once here
 * and parameterised by the slot names.
 */
module BannerModel {
  import opened Base

  const BannerSlots: set<string> := {"banner1", "banner2", "banner3"}
  const PlacementKinds: set<string> := {"structured", "html"}

  /** A banner or ad; `picture` is the banner's `image` and the ad's `background`. */
  datatype PlacementDoc = PlacementDoc(
    id: Id,
    slot: string,
    kind: string,
    picture: Option<string>,
    headline: Option<string>,
    description: Option<string>,
    ctaText: Option<string>,
    ctaLink: Option<string>,
    htmlContent: Option<string>,
    isActive: bool)

  predicate AtMost(x: Option<string>, n: nat) {
    x.None? || |x.value| <= n
  }

  /** The field validators: a known slot and kind, and the three length limits. */
  predicate FieldsValid(d: PlacementDoc, slots: set<string>) {
    && d.slot in slots
    && d.kind in PlacementKinds
    && AtMost(d.headline, 100) && AtMost(d.description, 500) && AtMost(d.ctaText, 50)
  }

  /**
   * The pre-save hook: a structured placement needs a headline, a
   * description and a call to action; an html one needs its content.
   */
  predicate HookPasses(d: PlacementDoc) {
    && (d.kind == "structured" ==> Truthy(d.headline) && Truthy(d.description) && Truthy(d.ctaText))
    && (d.kind == "html" ==> Truthy(d.htmlContent))
  }

  /** What a save or a create checks. */
  predicate SaveValid(d: PlacementDoc, slots: set<string>) {
    FieldsValid(d, slots) && HookPasses(d)
  }

  predicate BannerValid(d: PlacementDoc) {
    SaveValid(d, BannerSlots)
  }

  /** The unique index on `slot`. */
  predicate SlotsUnique(ds: seq<PlacementDoc>) {
    forall i, j :: 0 <= i < j < |ds| ==> ds[i].slot != ds[j].slot
  }

  /** A saved structured banner has a headline and a call to action within their limits, an html one has content, and the slot is one of three. */
  lemma BannerKinds(d: PlacementDoc)
    requires BannerValid(d)
    ensures d.kind == "structured" ==> d.headline.Some? && 0 < |d.headline.value| <= 100 && 0 < |d.ctaText.value| <= 50
    ensures d.kind == "html" ==> d.htmlContent.Some? && d.htmlContent.value != ""
    ensures d.slot == "banner1" || d.slot == "banner2" || d.slot == "banner3"
  {
  }

  /** The unique slot index leaves room for at most three banners. */
  lemma AtMostThreeBanners(ds: seq<PlacementDoc>)
    requires SlotsUnique(ds) && forall i :: 0 <= i < |ds| ==> ds[i].slot in BannerSlots
    ensures |ds| <= 3
  {
    var slots := set i | 0 <= i < |ds| :: ds[i].slot;
    assert slots <= BannerSlots;
    assert |BannerSlots| == 3;
    SlotCount(ds);
    SubsetSize(slots, BannerSlots);
  }

  /** With unique slots there are as many slots in use as placements. */
  lemma {:induction false} SlotCount(ds: seq<PlacementDoc>)
    requires SlotsUnique(ds)
    ensures |set i | 0 <= i < |ds| :: ds[i].slot| == |ds|
  {
    if |ds| > 0 {
      var init := ds[..|ds| - 1];
      assert SlotsUnique(init);
      SlotCount(init);
      var s0 := set i | 0 <= i < |init| :: init[i].slot;
      var s := set i | 0 <= i < |ds| :: ds[i].slot;
      assert s == s0 + {ds[|ds| - 1].slot};
      assert ds[|ds| - 1].slot !in s0;
    }
  }

  lemma SubsetSize(a: set<string>, b: set<string>)
    requires a <= b
    ensures |a| <= |b|
  {
    assert b == a + (b - a);
  }
}
