/**
 * The courier endpoints: creating a courier's delivery profile (one per
 * user, by a unique index on `userId`), the courier's update of an order's
 * delivery status with the order status and credit it implies, and the
 * two order filters a courier sees.
 */
module DeliveryController {
  import opened Base
  import opened Listing
  import opened OrderModel
  import opened OrderController

  const CourierStatuses: set<string> := {"available", "busy", "offline"}
  const VehicleTypes: set<string> := {"bike", "car", "scooter", "bicycle"}

  /** The fixed fee a courier earns per delivered order. */
  const DeliveryFee := 10

  datatype ProfileDoc = ProfileDoc(
    userId: Id,
    status: string,
    currentCity: string,
    vehicleType: string,
    licenseNumber: string,
    rating: real,
    totalDeliveries: int,
    earnings: int)

  /** The schema's checks: the enumerations, the required strings and the rating range. */
  predicate ProfileValid(p: ProfileDoc) {
    && p.status in CourierStatuses
    && p.vehicleType in VehicleTypes
    && |p.currentCity| > 0 && |p.licenseNumber| > 0
    && 1.0 <= p.rating <= 5.0
  }

  /** The request body of createDeliveryProfile: the schema's fields the client may send, every one of them optional but the validated three. */
  datatype ProfileBody = ProfileBody(
    userId: Option<Id>,
    status: Option<string>,
    currentCity: string,
    vehicleType: string,
    licenseNumber: string,
    rating: Option<real>,
    totalDeliveries: Option<int>,
    earnings: Option<int>)

  /** What the create validator demands of the body. */
  predicate BodyAccepted(b: ProfileBody) {
    && 2 <= |b.currentCity| <= 50
    && b.vehicleType in VehicleTypes
    && 3 <= |b.licenseNumber| <= 50
  }

  /** `{ userId: caller, ...body }` with the schema defaults: a `userId` in the body replaces the caller's. */
  function NewProfile(caller: Id, b: ProfileBody): (p: ProfileDoc)
    ensures p.userId == (if b.userId.Some? then b.userId.value else caller)
  {
    ProfileDoc(Or(b.userId, caller), Or(b.status, "offline"), b.currentCity, b.vehicleType, b.licenseNumber,
      Or(b.rating, 5.0), Or(b.totalDeliveries, 0), Or(b.earnings, 0))
  }

  /**
   * createDeliveryProfile: a caller who has a profile is refused with 400;
   * a document the schema rejects fails validation; a document whose
   * `userId` already has a profile violates the unique index.
   */
  function CreateProfileRequest(profiles: map<Id, ProfileDoc>, caller: Id, b: ProfileBody): (r: Result<ProfileDoc>)
    ensures caller in profiles ==> r == Fail(BadRequest)
    ensures r.Fail? ==> r.failure in {BadRequest, Invalid, ServerError}
    ensures r.Ok? ==> (
      && caller !in profiles && r.value.userId !in profiles && ProfileValid(r.value)
      && r.value.userId == (if b.userId.Some? then b.userId.value else caller)
      && r.value.currentCity == b.currentCity && r.value.vehicleType == b.vehicleType && r.value.licenseNumber == b.licenseNumber)
  {
    if caller in profiles then Fail(BadRequest)
    else
      var p := NewProfile(caller, b);
      if !ProfileValid(p) then Fail(Invalid)
      else if p.userId in profiles then Fail(ServerError)
      else Ok(p)
  }

  /** A courier profile loaded for an update. */
  class Profile {
    var userId: Id
    var status: string
    var currentCity: string
    var vehicleType: string
    var licenseNumber: string
    var rating: real
    var totalDeliveries: int
    var earnings: int

    function Doc(): ProfileDoc
      reads this
    {
      ProfileDoc(userId, status, currentCity, vehicleType, licenseNumber, rating, totalDeliveries, earnings)
    }

    constructor FromDoc(d: ProfileDoc)
      ensures Doc() == d
    {
      userId, status, currentCity, vehicleType := d.userId, d.status, d.currentCity, d.vehicleType;
      licenseNumber, rating, totalDeliveries, earnings := d.licenseNumber, d.rating, d.totalDeliveries, d.earnings;
    }

    /** `totalDeliveries += 1; earnings += 10`. */
    method Credit()
      modifies this
      ensures Doc() == Credited(old(Doc()))
    {
      totalDeliveries := totalDeliveries + 1;
      earnings := earnings + DeliveryFee;
    }
  }

  function Credited(p: ProfileDoc): ProfileDoc {
    p.(totalDeliveries := p.totalDeliveries + 1, earnings := p.earnings + DeliveryFee)
  }

  /** The delivery profiles, keyed by the unique `userId`. */
  class ProfileStore {
    var profiles: map<Id, ProfileDoc>

    ghost predicate Valid()
      reads this
    {
      forall u :: u in profiles ==> profiles[u].userId == u && ProfileValid(profiles[u])
    }

    constructor ()
      ensures profiles == map[] && Valid()
    {
      profiles := map[];
    }

    /** `findOne({ userId: u })`. */
    method Load(u: Id) returns (p: Profile?)
      ensures p == null <==> u !in profiles
      ensures p != null ==> fresh(p) && p.Doc() == profiles[u]
    {
      if u !in profiles {
        return null;
      }
      p := new Profile.FromDoc(profiles[u]);
    }

    /** `create(p)` of a document whose `userId` is free. */
    method Insert(p: ProfileDoc)
      requires Valid() && p.userId !in profiles && ProfileValid(p)
      modifies this
      ensures Valid()
      ensures profiles == old(profiles)[p.userId := p]
    {
      profiles := profiles[p.userId := p];
    }

    /** `save()` of a loaded profile whose fields still pass the schema. */
    method Save(p: Profile)
      requires Valid() && p.userId in profiles && ProfileValid(p.Doc())
      modifies this
      ensures Valid()
      ensures profiles == old(profiles)[p.userId := p.Doc()]
    {
      profiles := profiles[p.userId := p.Doc()];
    }
  }

  method CreateDeliveryProfile(store: ProfileStore, caller: Id, b: ProfileBody) returns (r: Result<ProfileDoc>)
    requires store.Valid() && BodyAccepted(b)
    modifies store
    ensures store.Valid()
    ensures r == CreateProfileRequest(old(store.profiles), caller, b)
    ensures r.Ok? ==> store.profiles == old(store.profiles)[r.value.userId := r.value]
    ensures r.Fail? ==> store.profiles == old(store.profiles)
  {
    if caller in store.profiles {
      return Fail(BadRequest);
    }
    var p := NewProfile(caller, b);
    if !ProfileValid(p) {
      return Fail(Invalid);
    }
    if p.userId in store.profiles {
      return Fail(ServerError);
    }
    store.Insert(p);
    r := Ok(p);
  }

  /**
   * A second profile for the same user is refused: once the caller has a
   * profile every further create by the caller is a 400, and a profile can
   * only be stored under a user id that had none. A body naming another
   * user id makes the profile that user's, not the caller's.
   */
  lemma ProfileCreateRules(profiles: map<Id, ProfileDoc>, caller: Id, b: ProfileBody)
    ensures caller in profiles ==> CreateProfileRequest(profiles, caller, b) == Fail(BadRequest)
    ensures var r := CreateProfileRequest(profiles, caller, b);
      r.Ok? ==> (r.value.userId !in profiles && caller !in profiles &&
        r.value.userId == (if b.userId.Some? then b.userId.value else caller))
  {
  }

  /** With a valid body and the schema's default status and rating, a caller without a profile who names no other user gets one. */
  lemma ProfileCreatedForNewCourier(profiles: map<Id, ProfileDoc>, caller: Id, b: ProfileBody)
    requires caller !in profiles && BodyAccepted(b) && b.userId.None? && b.status.None? && b.rating.None?
    ensures var r := CreateProfileRequest(profiles, caller, b);
      r.Ok? && r.value.userId == caller && r.value.status == "offline" &&
      r.value.totalDeliveries == Or(b.totalDeliveries, 0) && r.value.earnings == Or(b.earnings, 0)
  {
  }

  /** The delivery statuses a courier may report. */
  const CourierMoves: set<string> := {"assigned", "picked_up", "in_transit", "delivered"}

  /**
   * The update a delivery status implies: the delivery status and notes
   * (absent notes leave the stored ones), plus pickedUpAt and status
   * "shipping" for a pickup, deliveredAt and status "delivered" for a
   * delivery.
   */
  function DeliveryUpdate(d: OrderDoc, deliveryStatus: string, notes: Option<string>, now: Time): (u: OrderDoc)
    ensures u.deliveryStatus == deliveryStatus
    ensures u.id == d.id && u.items == d.items && u.customer == d.customer && u.deliveryGuy == d.deliveryGuy
    ensures u.isPaid == d.isPaid && u.totalOrderPrice == d.totalOrderPrice
    ensures u.status == (if deliveryStatus == "picked_up" then Some("shipping") else if deliveryStatus == "delivered" then Some("delivered") else d.status)
  {
    var base := d.(deliveryStatus := deliveryStatus, deliveryNotes := if notes.Some? then notes else d.deliveryNotes);
    if deliveryStatus == "picked_up" then base.(pickedUpAt := Some(now), status := Some("shipping"))
    else if deliveryStatus == "delivered" then base.(deliveredAt := Some(now), status := Some("delivered"))
    else base
  }

  /** The order the caller may update: the one with this id assigned to them. */
  predicate AssignedOrder(orders: map<Id, OrderDoc>, caller: Id, id: Id) {
    id in orders && orders[id].deliveryGuy == Some(caller)
  }

  /** The courier's profiles after a status report: a delivery credits their profile, if they have one. */
  function CourierAfter(profiles: map<Id, ProfileDoc>, caller: Id, deliveryStatus: string): map<Id, ProfileDoc> {
    if deliveryStatus == "delivered" && caller in profiles then profiles[caller := Credited(profiles[caller])] else profiles
  }

  /**
   * The order fields a status report moves: the delivery status and notes,
   * the order status only for a pickup ("shipping") or a delivery
   * ("delivered"), and the matching timestamp; items, prices, payment and
   * the courier are untouched, and an accepted report keeps the order valid.
   */
  lemma DeliveryUpdateMeaning(d: OrderDoc, deliveryStatus: string, notes: Option<string>, now: Time)
    requires OrderValid(d) && deliveryStatus in CourierMoves && (notes.Some? ==> |notes.value| <= 500)
    ensures var u := DeliveryUpdate(d, deliveryStatus, notes, now);
      && OrderValid(u)
      && u.deliveryStatus == deliveryStatus
      && u.status == (if deliveryStatus == "picked_up" then Some("shipping") else if deliveryStatus == "delivered" then Some("delivered") else d.status)
      && (u.pickedUpAt != d.pickedUpAt ==> deliveryStatus == "picked_up")
      && (u.deliveredAt != d.deliveredAt ==> deliveryStatus == "delivered")
      && u.items == d.items && u.cartPrice == d.cartPrice && u.totalOrderPrice == d.totalOrderPrice
      && u.isPaid == d.isPaid && u.paymentMethod == d.paymentMethod && u.deliveryGuy == d.deliveryGuy
  {
  }

  /**
   * updateOrderStatus for couriers: an order not assigned to the caller is
   * a 404 with nothing changed; otherwise a delivery first credits the
   * caller's profile, then the order takes the update. Stock is never
   * touched.
   */
  method UpdateDeliveryStatus(orders: OrderStore, profiles: ProfileStore, caller: Id, id: Id,
                              deliveryStatus: string, notes: Option<string>, now: Time) returns (r: Result<OrderDoc>)
    requires orders.Valid() && profiles.Valid()
    requires deliveryStatus in CourierMoves && (notes.Some? ==> |notes.value| <= 500)
    modifies orders, profiles
    ensures orders.Valid() && profiles.Valid()
    ensures !AssignedOrder(old(orders.orders), caller, id) ==>
      r == Fail(NotFound) && orders.State() == old(orders.State()) && profiles.profiles == old(profiles.profiles)
    ensures AssignedOrder(old(orders.orders), caller, id) ==> (
      && r == Ok(DeliveryUpdate(old(orders.orders)[id], deliveryStatus, notes, now))
      && orders.State() == old(orders.State()).(orders := old(orders.orders)[id := r.value])
      && profiles.profiles == CourierAfter(old(profiles.profiles), caller, deliveryStatus))
  {
    if id !in orders.orders || orders.orders[id].deliveryGuy != Some(caller) {
      return Fail(NotFound);
    }
    var d := orders.orders[id];
    var u := DeliveryUpdate(d, deliveryStatus, notes, now);
    if deliveryStatus == "delivered" {
      var p := profiles.Load(caller);
      if p != null {
        p.Credit();
        profiles.Save(p);
      }
    }
    DeliveryUpdateMeaning(d, deliveryStatus, notes, now);
    orders.Replace(u);
    r := Ok(u);
  }

  /**
   * Nothing orders the delivery statuses: reporting "delivered" twice for
   * the same order credits the courier twice.
   */
  lemma DeliveredTwiceCreditsTwice(profiles: map<Id, ProfileDoc>, caller: Id)
    requires caller in profiles
    ensures var twice := CourierAfter(CourierAfter(profiles, caller, "delivered"), caller, "delivered");
      twice[caller].totalDeliveries == profiles[caller].totalDeliveries + 2 &&
      twice[caller].earnings == profiles[caller].earnings + 2 * DeliveryFee
  {
  }

  /** A repeated "delivered" report is still accepted, since the order keeps its courier. */
  lemma DeliveredStaysAssigned(orders: map<Id, OrderDoc>, caller: Id, id: Id, notes: Option<string>, now: Time)
    requires AssignedOrder(orders, caller, id)
    ensures AssignedOrder(orders[id := DeliveryUpdate(orders[id], "delivered", notes, now)], caller, id)
  {
  }

  /**
   * getNearbyOrders' filter: approved or shipping, not yet assigned, and in
   * the courier's city (`inCity`, the clause on the customer's city).
   */
  predicate Nearby(d: OrderDoc, inCity: OrderDoc -> bool) {
    (d.status == Some("Approved") || d.status == Some("shipping")) && d.deliveryStatus == "unassigned" && inCity(d)
  }

  /** getMyAssignedOrders' filter: the caller's orders still under way. */
  predicate InHand(d: OrderDoc, caller: Id) {
    d.deliveryGuy == Some(caller) && d.deliveryStatus in {"assigned", "picked_up", "in_transit"}
  }

  /** The nearby orders, in collection order; a caller without a profile gets 404. */
  function NearbyOrders(profiles: map<Id, ProfileDoc>, caller: Id, orders: seq<OrderDoc>, inCity: OrderDoc -> bool): (r: Result<seq<OrderDoc>>)
    ensures r.Fail? <==> caller !in profiles
    ensures r.Ok? ==> forall d :: d in r.value <==> d in orders && Nearby(d, inCity)
  {
    if caller !in profiles then Fail(NotFound) else Ok(Filter(orders, (d: OrderDoc) => Nearby(d, inCity)))
  }

  function AssignedOrders(caller: Id, orders: seq<OrderDoc>): (r: seq<OrderDoc>)
    ensures forall d :: d in r <==> d in orders && InHand(d, caller)
  {
    Filter(orders, (d: OrderDoc) => InHand(d, caller))
  }

  /** No order is both on offer nearby and in some courier's hands. */
  lemma NearbyAndAssignedDisjoint(profiles: map<Id, ProfileDoc>, caller: Id, orders: seq<OrderDoc>, inCity: OrderDoc -> bool)
    requires caller in profiles
    ensures forall d :: d in NearbyOrders(profiles, caller, orders, inCity).value ==> d !in AssignedOrders(caller, orders)
  {
  }

  /**
   * After a report the order is in the courier's hands exactly when the
   * report was not "delivered", and it is never on offer nearby again.
   */
  lemma ReportMovesOrder(d: OrderDoc, caller: Id, deliveryStatus: string, notes: Option<string>, now: Time, inCity: OrderDoc -> bool)
    requires d.deliveryGuy == Some(caller) && deliveryStatus in CourierMoves
    ensures InHand(DeliveryUpdate(d, deliveryStatus, notes, now), caller) <==> deliveryStatus != "delivered"
    ensures !Nearby(DeliveryUpdate(d, deliveryStatus, notes, now), inCity)
  {
  }
}
