/**
 * Seller profiles and the users they belong to, and the lookup every
 * seller endpoint starts with: return the caller's profile, or create it
 * from the caller's application when, and only when, that application is
 * approved.
 */
module SellerProfile {
  import opened Base
  import opened Listing
  import opened SellerApplicationModel

  /** The parts of a user record the seller flows read or change. */
  datatype UserDoc = UserDoc(email: string, phone: Option<string>, role: string)

  /** A seller profile; `userId` carries a unique index and the email is stored lower-cased. */
  datatype SellerDoc = SellerDoc(userId: Id, firstName: string, lastName: string, email: string, phone: string, country: string, address: string)

  /** The seller schema's checks: the two names of 2 to 30 characters and a non-empty email. */
  predicate SellerValid(s: SellerDoc) {
    Sized(s.firstName, 2, 30) && Sized(s.lastName, 2, 30) && |s.email| > 0
  }

  /** The profiles, keyed by the unique `userId`. */
  class SellerStore {
    var sellers: map<Id, SellerDoc>

    ghost predicate Valid()
      reads this
    {
      forall u :: u in sellers ==> sellers[u].userId == u && SellerValid(sellers[u])
    }

    constructor ()
      ensures sellers == map[] && Valid()
    {
      sellers := map[];
    }

    /** `sellerModel.create(s)` once the uniqueness of `userId` is established. */
    method Insert(s: SellerDoc)
      requires Valid() && s.userId !in sellers && SellerValid(s)
      modifies this
      ensures Valid()
      ensures sellers == old(sellers)[s.userId := s]
    {
      sellers := sellers[s.userId := s];
    }
  }

  /** `sellerApplicationModel.findOne({ user })`: the user's application, if any. */
  function ApplicationOf(apps: seq<ApplicationDoc>, user: Id): (r: Option<nat>)
    ensures r.None? <==> forall k :: 0 <= k < |apps| ==> apps[k].user != user
    ensures r.Some? ==> r.value < |apps| && apps[r.value].user == user
  {
    FirstIndex(apps, (a: ApplicationDoc) => a.user == user)
  }

  /** `application.phone || user.phone || ""`. */
  function PhoneOf(f: Form, u: UserDoc): string {
    if f.phone != "" then f.phone else StrOr(u.phone, "")
  }

  /** The profile made from an approved application: names and contact from the form, email and fallback phone from the user. */
  function ProfileFrom(uid: Id, f: Form, u: UserDoc): (s: SellerDoc)
    ensures s.userId == uid && s.firstName == f.firstName && s.lastName == f.lastName
    ensures s.phone == (if f.phone != "" then f.phone else if Truthy(u.phone) then u.phone.value else "")
    ensures s.email == Lower(u.email)
  {
    SellerDoc(uid, f.firstName, f.lastName, Lower(u.email), PhoneOf(f, u), f.country, f.address)
  }

  /** How the lookup ends; the two refusals are 403 answers, the second naming the application's status. */
  datatype Access = Existing(seller: SellerDoc) | Created(seller: SellerDoc) | NoApplication | NotApproved(status: string) | CreateFailed

  function AccessRequest(sellers: map<Id, SellerDoc>, apps: seq<ApplicationDoc>, uid: Id, u: UserDoc): (a: Access)
    ensures a.Existing? <==> uid in sellers
    ensures a.Existing? ==> a.seller == sellers[uid]
    ensures a == NoApplication <==> uid !in sellers && ApplicationOf(apps, uid).None?
    ensures a.NotApproved? ==> a.status != "approved"
    ensures a.Created? ==> (
      && uid !in sellers && ApplicationOf(apps, uid).Some? && apps[ApplicationOf(apps, uid).value].status == "approved"
      && a.seller.userId == uid && SellerValid(a.seller))
  {
    if uid in sellers then Existing(sellers[uid])
    else match ApplicationOf(apps, uid)
      case None => NoApplication
      case Some(k) =>
        if apps[k].status != "approved" then NotApproved(apps[k].status)
        else
          var s := ProfileFrom(uid, apps[k].form, u);
          if SellerValid(s) then Created(s) else CreateFailed
  }

  /**
   * findOrCreateSellerProfile. The duplicate-key branch, where a concurrent
   * request created the profile between the lookup and the create, cannot
   * arise when requests run one at a time.
   */
  method FindOrCreateSellerProfile(store: SellerStore, apps: seq<ApplicationDoc>, uid: Id, u: UserDoc) returns (r: Access)
    requires store.Valid()
    modifies store
    ensures store.Valid()
    ensures r == AccessRequest(old(store.sellers), apps, uid, u)
    ensures store.sellers == (if r.Created? then old(store.sellers)[uid := r.seller] else old(store.sellers))
  {
    if uid in store.sellers {
      return Existing(store.sellers[uid]);
    }
    var k := ApplicationOf(apps, uid);
    if k.None? {
      return NoApplication;
    }
    if apps[k.value].status != "approved" {
      return NotApproved(apps[k.value].status);
    }
    var s := ProfileFrom(uid, apps[k.value].form, u);
    if !SellerValid(s) {
      return CreateFailed;
    }
    store.Insert(s);
    r := Created(s);
  }

  /**
   * A profile is created only for a user without one whose application is
   * approved; any other status is refused with that status named; an
   * existing profile is returned as it is.
   */
  lemma AccessRules(sellers: map<Id, SellerDoc>, apps: seq<ApplicationDoc>, uid: Id, u: UserDoc)
    ensures var r := AccessRequest(sellers, apps, uid, u);
      && (uid in sellers <==> r.Existing?)
      && (r.Existing? ==> r.seller == sellers[uid])
      && (r.Created? ==> uid !in sellers && ApplicationOf(apps, uid).Some? && apps[ApplicationOf(apps, uid).value].status == "approved")
      && (r.NoApplication? <==> uid !in sellers && forall k :: 0 <= k < |apps| ==> apps[k].user != uid)
      && (r.NotApproved? ==> r.status != "approved" && exists k :: 0 <= k < |apps| && apps[k].user == uid && apps[k].status == r.status)
  {
  }

  /** Asking twice creates at most once: after a creation the next lookup returns the created profile. */
  lemma AccessTwice(sellers: map<Id, SellerDoc>, apps: seq<ApplicationDoc>, uid: Id, u: UserDoc, apps2: seq<ApplicationDoc>, u2: UserDoc)
    requires AccessRequest(sellers, apps, uid, u).Created?
    ensures var s := AccessRequest(sellers, apps, uid, u).seller;
      AccessRequest(sellers[uid := s], apps2, uid, u2) == Existing(s)
  {
  }
}
