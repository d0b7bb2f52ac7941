/**
 * The admin's handlers for banners and ads (list, create, update, delete,
 * list active) and the seller dashboard's ad. Both collections behave the
 * same and differ only in their slot names.
 */
module PlacementAdmin {
  import opened Base
  import opened Listing
  import opened BannerModel
  import opened AdModel

  /** A request body: every field may be absent. */
  datatype PlacementBody = PlacementBody(
    slot: Option<string>,
    kind: Option<string>,
    picture: Option<string>,
    headline: Option<string>,
    description: Option<string>,
    ctaText: Option<string>,
    ctaLink: Option<string>,
    htmlContent: Option<string>,
    isActive: Option<bool>)

  /** `create(req.body)`: an absent slot or kind fails its `required` check; a new placement is active unless told otherwise. */
  function FromBody(id: Id, b: PlacementBody): PlacementDoc {
    PlacementDoc(id, Or(b.slot, ""), Or(b.kind, ""), b.picture, b.headline, b.description, b.ctaText, b.ctaLink, b.htmlContent, Or(b.isActive, true))
  }

  /** Whether another placement than the k-th (or any, for k = |ds|) holds the slot. */
  predicate SlotTaken(ds: seq<PlacementDoc>, slot: string, k: nat) {
    exists i :: 0 <= i < |ds| && i != k && ds[i].slot == slot
  }

  datatype Changed = Changed(r: Result<PlacementDoc>, after: seq<PlacementDoc>)

  /** createAd / createBanner: validation with the hook, then the unique index (a duplicate-key error). */
  function CreateRequest(ds: seq<PlacementDoc>, next: Id, slots: set<string>, b: PlacementBody): (c: Changed)
    ensures c.r.Fail? ==> c.after == ds && (c.r.failure == Invalid || c.r.failure == ServerError)
    ensures c.r == Fail(ServerError) ==> exists i :: 0 <= i < |ds| && ds[i].slot == Or(b.slot, "")
    ensures c.r.Ok? ==> (
      && c.r.value.id == next && SaveValid(c.r.value, slots)
      && (forall i :: 0 <= i < |ds| ==> ds[i].slot != c.r.value.slot)
      && c.after == ds + [c.r.value])
  {
    var d := FromBody(next, b);
    if !SaveValid(d, slots) then Changed(Fail(Invalid), ds)
    else if SlotTaken(ds, d.slot, |ds|) then Changed(Fail(ServerError), ds)
    else Changed(Ok(d), ds + [d])
  }

  /** Update validators look only at the paths the body sets: the enums and the length limits, not the hook. */
  predicate PatchValid(b: PlacementBody, slots: set<string>) {
    && (b.slot.Some? ==> b.slot.value in slots)
    && (b.kind.Some? ==> b.kind.value in PlacementKinds)
    && AtMost(b.headline, 100) && AtMost(b.description, 500) && AtMost(b.ctaText, 50)
  }

  function Patched(d: PlacementDoc, b: PlacementBody): PlacementDoc {
    PlacementDoc(d.id, Or(b.slot, d.slot), Or(b.kind, d.kind),
      if b.picture.Some? then b.picture else d.picture,
      if b.headline.Some? then b.headline else d.headline,
      if b.description.Some? then b.description else d.description,
      if b.ctaText.Some? then b.ctaText else d.ctaText,
      if b.ctaLink.Some? then b.ctaLink else d.ctaLink,
      if b.htmlContent.Some? then b.htmlContent else d.htmlContent,
      Or(b.isActive, d.isActive))
  }

  function IndexOf(ds: seq<PlacementDoc>, id: Id): (r: Option<nat>)
    ensures r.None? <==> forall k :: 0 <= k < |ds| ==> ds[k].id != id
    ensures r.Some? ==> r.value < |ds| && ds[r.value].id == id
  {
    FirstIndex(ds, (d: PlacementDoc) => d.id == id)
  }

  /** updateAd / updateBanner: `findByIdAndUpdate(id, req.body, { runValidators: true })`. */
  function UpdateRequest(ds: seq<PlacementDoc>, slots: set<string>, id: Id, b: PlacementBody): (c: Changed)
    ensures c.r == Fail(Invalid) <==> !PatchValid(b, slots)
    ensures c.r == Fail(NotFound) <==> PatchValid(b, slots) && IndexOf(ds, id).None?
    ensures c.r.Fail? ==> c.after == ds
    ensures c.r.Ok? ==> IndexOf(ds, id).Some? && var k := IndexOf(ds, id).value;
      && c.r.value.id == id
      && (forall i :: 0 <= i < |ds| && i != k ==> ds[i].slot != c.r.value.slot)
      && |c.after| == |ds| && c.after[k] == c.r.value
      && forall i :: 0 <= i < |ds| && i != k ==> c.after[i] == ds[i]
  {
    if !PatchValid(b, slots) then Changed(Fail(Invalid), ds)
    else match IndexOf(ds, id)
      case None => Changed(Fail(NotFound), ds)
      case Some(k) =>
        var d := Patched(ds[k], b);
        if SlotTaken(ds, d.slot, k) then Changed(Fail(ServerError), ds)
        else Changed(Ok(d), ds[k := d])
  }

  /** deleteAd / deleteBanner. */
  function DeleteRequest(ds: seq<PlacementDoc>, id: Id): (r: (Outcome, seq<PlacementDoc>))
    ensures r.0.Failed? <==> IndexOf(ds, id).None?
    ensures r.0.Failed? ==> r.0.failure == NotFound && r.1 == ds
    ensures r.0.Done? ==> IndexOf(ds, id).Some? && var k := IndexOf(ds, id).value;
      && |r.1| == |ds| - 1
      && forall i :: 0 <= i < |ds| && i != k ==> ds[i] in r.1
  {
    match IndexOf(ds, id)
    case None => (Failed(NotFound), ds)
    case Some(k) => (Done, RemoveAt(ds, k))
  }

  /** getActiveAds / getActiveBanners. */
  function ActiveOf(ds: seq<PlacementDoc>): (r: seq<PlacementDoc>)
    ensures forall d :: d in r <==> d in ds && d.isActive
    ensures |r| == Count(ds, (d: PlacementDoc) => d.isActive)
  {
    Filter(ds, (d: PlacementDoc) => d.isActive)
  }

  /** getSellerAd: `findOne({ slot: "sellerAd", isActive: true })`, or nothing. */
  function SellerAd(ds: seq<PlacementDoc>): (r: Option<PlacementDoc>)
    ensures r.None? <==> forall k :: 0 <= k < |ds| ==> !(ds[k].slot == "sellerAd" && ds[k].isActive)
    ensures r.Some? ==> r.value in ds && r.value.slot == "sellerAd" && r.value.isActive
  {
    match FirstIndex(ds, (d: PlacementDoc) => d.slot == "sellerAd" && d.isActive)
    case None => None
    case Some(k) => Some(ds[k])
  }

  /** One collection: the placements, the slot names of its schema, and the id counter. */
  class PlacementStore {
    const slots: set<string>
    var docs: seq<PlacementDoc>
    var nextId: Id

    ghost predicate Valid()
      reads this
    {
      SlotsUnique(docs) && forall i :: 0 <= i < |docs| ==> docs[i].id < nextId
    }

    constructor (names: set<string>)
      ensures slots == names && docs == [] && nextId == 0 && Valid()
    {
      slots := names;
      docs := [];
      nextId := 0;
    }

    method Insert(d: PlacementDoc)
      requires Valid() && d.id == nextId && !SlotTaken(docs, d.slot, |docs|)
      modifies this
      ensures Valid() && nextId == old(nextId) + 1
      ensures docs == old(docs) + [d]
    {
      docs := docs + [d];
      nextId := nextId + 1;
    }

    method Put(k: nat, d: PlacementDoc)
      requires Valid() && k < |docs| && d.id == docs[k].id && !SlotTaken(docs, d.slot, k)
      modifies this
      ensures Valid() && nextId == old(nextId)
      ensures docs == old(docs)[k := d]
    {
      docs := docs[k := d];
    }

    method Delete(k: nat)
      requires Valid() && k < |docs|
      modifies this
      ensures Valid() && nextId == old(nextId)
      ensures docs == RemoveAt(old(docs), k)
    {
      docs := RemoveAt(docs, k);
    }
  }

  method CreatePlacement(store: PlacementStore, b: PlacementBody) returns (r: Result<PlacementDoc>)
    requires store.Valid()
    modifies store
    ensures store.Valid()
    ensures Changed(r, store.docs) == CreateRequest(old(store.docs), old(store.nextId), store.slots, b)
  {
    var d := FromBody(store.nextId, b);
    if !SaveValid(d, store.slots) {
      return Fail(Invalid);
    }
    if SlotTaken(store.docs, d.slot, |store.docs|) {
      return Fail(ServerError);
    }
    store.Insert(d);
    r := Ok(d);
  }

  method UpdatePlacement(store: PlacementStore, id: Id, b: PlacementBody) returns (r: Result<PlacementDoc>)
    requires store.Valid()
    modifies store
    ensures store.Valid() && store.nextId == old(store.nextId)
    ensures Changed(r, store.docs) == UpdateRequest(old(store.docs), store.slots, id, b)
  {
    if !PatchValid(b, store.slots) {
      return Fail(Invalid);
    }
    var k := IndexOf(store.docs, id);
    if k.None? {
      return Fail(NotFound);
    }
    var d := Patched(store.docs[k.value], b);
    if SlotTaken(store.docs, d.slot, k.value) {
      return Fail(ServerError);
    }
    store.Put(k.value, d);
    r := Ok(d);
  }

  method DeletePlacement(store: PlacementStore, id: Id) returns (r: Outcome)
    requires store.Valid()
    modifies store
    ensures store.Valid() && store.nextId == old(store.nextId)
    ensures (r, store.docs) == DeleteRequest(old(store.docs), id)
  {
    var k := IndexOf(store.docs, id);
    if k.None? {
      return Failed(NotFound);
    }
    store.Delete(k.value);
    r := Done;
  }

  /** A created placement passed every check, holds a free slot, and is stored last. */
  lemma CreateRules(ds: seq<PlacementDoc>, next: Id, slots: set<string>, b: PlacementBody)
    requires SlotsUnique(ds)
    ensures var c := CreateRequest(ds, next, slots, b);
      && (c.r.Fail? ==> c.after == ds)
      && (c.r.Ok? ==> SaveValid(c.r.value, slots) && c.after == ds + [c.r.value] && c.r.value.id == next)
      && (c.r.Ok? ==> c.r.value.isActive == (b.isActive != Some(false)))
      && (c.r.Ok? ==> b.kind.Some? && ("" !in slots ==> b.slot.Some?))
      && (c.r == Fail(ServerError) <==> SaveValid(FromBody(next, b), slots) && exists i :: 0 <= i < |ds| && ds[i].slot == FromBody(next, b).slot)
      && SlotsUnique(c.after)
  {
  }

  /**
   * An update checks only the fields it sets, so a placement keeps
   * passing the field validators and keeps its slot unique, and only that
   * placement changes.
   */
  lemma UpdateRules(ds: seq<PlacementDoc>, slots: set<string>, id: Id, b: PlacementBody)
    requires SlotsUnique(ds)
    ensures var c := UpdateRequest(ds, slots, id, b);
      && (c.r.Fail? ==> c.after == ds)
      && (c.r == Fail(NotFound) <==> PatchValid(b, slots) && IndexOf(ds, id).None?)
      && (c.r.Ok? ==> var k := IndexOf(ds, id).value;
            && c.after == ds[k := c.r.value] && c.r.value.id == id
            && (FieldsValid(ds[k], slots) ==> FieldsValid(c.r.value, slots)))
      && SlotsUnique(c.after)
  {
  }

  /**
   * The pre-save hook does not run on an update: clearing the headline of
   * a structured placement is accepted and leaves a placement the hook would
   * have refused.
   */
  lemma UpdateSkipsHook(d: PlacementDoc, slots: set<string>)
    requires SaveValid(d, slots) && d.kind == "structured"
    ensures var b := PlacementBody(None, None, None, Some(""), None, None, None, None, None);
      var c := UpdateRequest([d], slots, d.id, b);
      c.r.Ok? && !HookPasses(c.r.value) && FieldsValid(c.r.value, slots)
  {
    var b := PlacementBody(None, None, None, Some(""), None, None, None, None, None);
    assert IndexOf([d], d.id) == Some(0);
    assert !SlotTaken([d], Patched(d, b).slot, 0);
  }

  /** Deleting removes that one placement and keeps the slots unique. */
  lemma DeleteRules(ds: seq<PlacementDoc>, id: Id)
    requires SlotsUnique(ds)
    ensures var (r, after) := DeleteRequest(ds, id);
      && (r.Failed? <==> IndexOf(ds, id).None?)
      && (r.Failed? ==> r.failure == NotFound && after == ds)
      && (r.Done? ==> var k := IndexOf(ds, id).value; after == ds[..k] + ds[k + 1..])
      && SlotsUnique(after)
  {
  }

  /** The public lists hold exactly the active placements; the seller ad is the active one in its slot. */
  lemma ActiveRules(ds: seq<PlacementDoc>)
    requires SlotsUnique(ds)
    ensures forall d :: d in ActiveOf(ds) <==> d in ds && d.isActive
    ensures SellerAd(ds).Some? <==> exists k :: 0 <= k < |ds| && ds[k].slot == "sellerAd" && ds[k].isActive
    ensures SellerAd(ds).Some? ==> SellerAd(ds).value in ds && SellerAd(ds).value.slot == "sellerAd" && SellerAd(ds).value.isActive
  {
  }
}
