/**
 * The seller application lifecycle: the eligibility check, submitting,
 * editing a pending application, and the admin's approve, decline and
 * under-review decisions. Approval also turns the user into a seller and
 * creates their seller profile.
 *
 * The request body is spread into the stored document after the handler's
 * own fields, so a body may carry `user` and `status`; nothing strips
 * them.
 */
module SellerApplicationController {
  import opened Base
  import opened Listing
  import opened SellerApplicationModel
  import opened SellerProfile

  /** The three collections the lifecycle touches, and the id generator of applications. */
  datatype Registry = Registry(apps: seq<ApplicationDoc>, nextId: Id, users: map<Id, UserDoc>, sellers: map<Id, SellerDoc>)

  /** How a handler ends: its answer and the collections afterwards (a failure may come after a write). */
  datatype Step = Step(r: Result<ApplicationDoc>, after: Registry)

  /** Distinct ids and users (the unique index on `user`), ids below the generator, every record valid. */
  predicate AppsValid(apps: seq<ApplicationDoc>, nextId: Id) {
    && (forall i, j :: 0 <= i < j < |apps| ==> apps[i].id != apps[j].id && apps[i].user != apps[j].user)
    && (forall i :: 0 <= i < |apps| ==> apps[i].id < nextId && ApplicationValid(apps[i]))
  }

  function ApplicationById(apps: seq<ApplicationDoc>, id: Id): (r: Option<nat>)
    ensures r.None? <==> forall k :: 0 <= k < |apps| ==> apps[k].id != id
    ensures r.Some? ==> r.value < |apps| && apps[r.value].id == id
  {
    FirstIndex(apps, (a: ApplicationDoc) => a.id == id)
  }

  /** The applications collection. */
  class ApplicationStore {
    var apps: seq<ApplicationDoc>
    var nextId: Id

    ghost predicate Valid()
      reads this
    {
      AppsValid(apps, nextId)
    }

    constructor ()
      ensures apps == [] && nextId == 0 && Valid()
    {
      apps, nextId := [], 0;
    }

    /** `create(a)` of a valid document for a user without an application. */
    method Insert(a: ApplicationDoc)
      requires Valid() && a.id == nextId && ApplicationValid(a) && ApplicationOf(apps, a.user).None?
      modifies this
      ensures Valid()
      ensures apps == old(apps) + [a] && nextId == old(nextId) + 1
    {
      apps, nextId := apps + [a], nextId + 1;
    }

    /** `findByIdAndDelete`. */
    method Delete(k: nat)
      requires Valid() && k < |apps|
      modifies this
      ensures Valid()
      ensures apps == RemoveAt(old(apps), k) && nextId == old(nextId)
    {
      apps := RemoveAt(apps, k);
    }

    /** `save()` or a validated update of the k-th record, keeping its id and not taking another record's user. */
    method Put(k: nat, a: ApplicationDoc)
      requires Valid() && k < |apps| && a.id == apps[k].id && ApplicationValid(a)
      requires a.user == apps[k].user || ApplicationOf(apps, a.user).None?
      modifies this
      ensures Valid()
      ensures apps == old(apps)[k := a] && nextId == old(nextId)
    {
      apps := apps[k := a];
    }
  }

  /** The user collection, of which the lifecycle changes only the role. */
  class UserStore {
    var users: map<Id, UserDoc>

    constructor (users0: map<Id, UserDoc>)
      ensures users == users0
    {
      users := users0;
    }

    /** `findByIdAndUpdate(u, { role })`. */
    method SetRole(u: Id, role: string)
      requires u in users
      modifies this
      ensures users == old(users)[u := old(users)[u].(role := role)]
    {
      users := users[u := users[u].(role := role)];
    }
  }

  function RegistryOf(apps: ApplicationStore, users: UserStore, sellers: SellerStore): Registry
    reads apps, users, sellers
  {
    Registry(apps.apps, apps.nextId, users.users, sellers.sellers)
  }

  /** What checkEligibility answers: whether the caller may apply, and the status of their application if they have one. */
  datatype Eligibility = Eligibility(canApply: bool, status: Option<string>)

  function CheckEligibility(role: string, apps: seq<ApplicationDoc>, uid: Id): (e: Eligibility)
    ensures role == "seller" ==> !e.canApply
    ensures role != "seller" ==> (e.canApply <==> (ApplicationOf(apps, uid).None? || apps[ApplicationOf(apps, uid).value].status == "declined"))
  {
    if role == "seller" then Eligibility(false, None)
    else match ApplicationOf(apps, uid)
      case None => Eligibility(true, None)
      case Some(k) => Eligibility(apps[k].status == "declined", Some(apps[k].status))
  }

  /** The statuses that block a new application. */
  const OpenStatuses: set<string> := {"pending", "approved", "under_review"}

  /**
   * submitApplication: an open application or an existing seller profile
   * is a 400; a declined application is deleted first, and only then is the
   * new one validated and inserted, so a rejected submission still loses
   * the declined record.
   */
  function SubmitRequest(g: Registry, caller: Id, f: Form, user: Option<Id>, status: Option<string>): (s: Step)
    ensures s.after.users == g.users && s.after.sellers == g.sellers
    ensures caller in g.sellers ==> s == Step(Fail(BadRequest), g)
    ensures s.r == Fail(BadRequest) ==> s.after == g
    ensures s.r.Ok? ==> (s.r.value.id == g.nextId && s.r.value.user == Or(user, caller) && s.r.value.form == f &&
      |s.after.apps| > 0 && s.after.apps[|s.after.apps| - 1] == s.r.value && s.after.nextId == g.nextId + 1)
    ensures var k := ApplicationOf(g.apps, caller);
      k.Some? && g.apps[k.value].status in OpenStatuses ==> s == Step(Fail(BadRequest), g)
    ensures var k := ApplicationOf(g.apps, caller);
      caller !in g.sellers && (k.None? || g.apps[k.value].status !in OpenStatuses) ==>
        && s.r != Fail(BadRequest)
        && (s.r == Fail(Invalid) <==> !ApplicationValid(NewApplication(g.nextId, Or(user, caller), f, status)))
        && var kept := if k.Some? && g.apps[k.value].status == "declined" then RemoveAt(g.apps, k.value) else g.apps;
           && (s.r.Ok? ==> s.after.apps[..|s.after.apps| - 1] == kept)
           && (s.r.Fail? ==> s.after.apps == kept)
  {
    var k := ApplicationOf(g.apps, caller);
    if k.Some? && g.apps[k.value].status in OpenStatuses then Step(Fail(BadRequest), g)
    else if caller in g.sellers then Step(Fail(BadRequest), g)
    else
      var mid := if k.Some? && g.apps[k.value].status == "declined" then g.(apps := RemoveAt(g.apps, k.value)) else g;
      var a := NewApplication(g.nextId, Or(user, caller), f, status);
      if !ApplicationValid(a) then Step(Fail(Invalid), mid)
      else if ApplicationOf(mid.apps, a.user).Some? then Step(Fail(ServerError), mid)
      else
        assert (mid.apps + [a])[..|mid.apps|] == mid.apps;
        Step(Ok(a), mid.(apps := mid.apps + [a], nextId := g.nextId + 1))
  }

  method SubmitApplication(apps: ApplicationStore, users: UserStore, sellers: SellerStore,
                           caller: Id, f: Form, user: Option<Id>, status: Option<string>) returns (r: Result<ApplicationDoc>)
    requires apps.Valid()
    modifies apps
    ensures apps.Valid()
    ensures Step(r, RegistryOf(apps, users, sellers)) == SubmitRequest(old(RegistryOf(apps, users, sellers)), caller, f, user, status)
  {
    var k := ApplicationOf(apps.apps, caller);
    if k.Some? && apps.apps[k.value].status in OpenStatuses {
      return Fail(BadRequest);
    }
    if caller in sellers.sellers {
      return Fail(BadRequest);
    }
    if k.Some? && apps.apps[k.value].status == "declined" {
      apps.Delete(k.value);
    }
    var a := NewApplication(apps.nextId, Or(user, caller), f, status);
    if !ApplicationValid(a) {
      return Fail(Invalid);
    }
    if ApplicationOf(apps.apps, a.user).Some? {
      return Fail(ServerError);
    }
    apps.Insert(a);
    r := Ok(a);
  }

  /** The fields of the update body; an absent one leaves the stored value. */
  datatype FormPatch = FormPatch(
    firstName: Option<string>,
    lastName: Option<string>,
    businessName: Option<string>,
    businessType: Option<string>,
    businessCategory: Option<string>,
    businessDescription: Option<string>,
    phone: Option<string>,
    country: Option<string>,
    city: Option<string>,
    address: Option<string>,
    taxId: Option<Option<string>>,
    website: Option<Option<string>>,
    bank: Option<BankInfo>)

  function Patched(f: Form, p: FormPatch): Form {
    Form(Or(p.firstName, f.firstName), Or(p.lastName, f.lastName), Or(p.businessName, f.businessName),
      Or(p.businessType, f.businessType), Or(p.businessCategory, f.businessCategory),
      Or(p.businessDescription, f.businessDescription), Or(p.phone, f.phone), Or(p.country, f.country),
      Or(p.city, f.city), Or(p.address, f.address), Or(p.taxId, f.taxId), Or(p.website, f.website), Or(p.bank, f.bank))
  }

  /**
   * updateMyApplication: only a pending application can be edited (404
   * otherwise). The body goes to a validated update as it is, `status` and
   * `user` included.
   */
  function UpdateRequest(g: Registry, caller: Id, p: FormPatch, user: Option<Id>, status: Option<string>): (s: Step)
    ensures s.r.Fail? ==> s.after == g
    ensures s.r == Fail(NotFound) <==> ApplicationOf(g.apps, caller).None? || g.apps[ApplicationOf(g.apps, caller).value].status != "pending"
    ensures s.r.Ok? ==> (s.after.users == g.users && s.after.sellers == g.sellers && |s.after.apps| == |g.apps| &&
      s.r.value.form == Patched(g.apps[ApplicationOf(g.apps, caller).value].form, p) &&
      s.r.value.status == Or(status, "pending"))
  {
    var k := ApplicationOf(g.apps, caller);
    if k.None? || g.apps[k.value].status != "pending" then Step(Fail(NotFound), g)
    else
      var a := g.apps[k.value];
      var u := a.(form := Patched(a.form, p), user := Or(user, a.user), status := Or(status, a.status));
      if !ApplicationValid(u) then Step(Fail(Invalid), g)
      else if u.user != a.user && ApplicationOf(g.apps, u.user).Some? then Step(Fail(ServerError), g)
      else Step(Ok(u), g.(apps := g.apps[k.value := u]))
  }

  method UpdateMyApplication(apps: ApplicationStore, users: UserStore, sellers: SellerStore,
                             caller: Id, p: FormPatch, user: Option<Id>, status: Option<string>) returns (r: Result<ApplicationDoc>)
    requires apps.Valid()
    modifies apps
    ensures apps.Valid()
    ensures Step(r, RegistryOf(apps, users, sellers)) == UpdateRequest(old(RegistryOf(apps, users, sellers)), caller, p, user, status)
  {
    var k := ApplicationOf(apps.apps, caller);
    if k.None? || apps.apps[k.value].status != "pending" {
      return Fail(NotFound);
    }
    var a := apps.apps[k.value];
    var u := a.(form := Patched(a.form, p), user := Or(user, a.user), status := Or(status, a.status));
    if !ApplicationValid(u) {
      return Fail(Invalid);
    }
    if u.user != a.user && ApplicationOf(apps.apps, u.user).Some? {
      return Fail(ServerError);
    }
    apps.Put(k.value, u);
    r := Ok(u);
  }

  /** The seller profile approval creates: names, phone, country and address from the form, the user's email. */
  function ApprovedSeller(a: ApplicationDoc, u: UserDoc): SellerDoc {
    SellerDoc(a.user, a.form.firstName, a.form.lastName, Lower(u.email), a.form.phone, a.form.country, a.form.address)
  }

  /**
   * approveApplication: unknown is 404, already approved or a user who
   * already has a profile is 400, and a deleted user makes the populated
   * `application.user` null and the handler throw. Otherwise the
   * application is saved as approved, the user's role becomes "seller" and
   * the profile is created, in that order.
   */
  function ApproveRequest(g: Registry, admin: Id, id: Id, reason: Option<string>, now: Time): (s: Step)
    ensures s.r == Fail(NotFound) <==> ApplicationById(g.apps, id).None?
    ensures s.r.Fail? && s.r != Fail(Invalid) ==> s.after == g
    ensures s.r.Ok? ==> (s.r.value.status == "approved" && s.r.value.reviewedBy == Some(admin) && s.r.value.reviewedAt == Some(now) &&
      s.r.value.user in s.after.users && s.after.users[s.r.value.user].role == "seller" &&
      s.r.value.user !in g.sellers && s.r.value.user in s.after.sellers)
  {
    match ApplicationById(g.apps, id)
    case None => Step(Fail(NotFound), g)
    case Some(k) =>
      var a := g.apps[k];
      if a.status == "approved" then Step(Fail(BadRequest), g)
      else if a.user !in g.users then Step(Fail(ServerError), g)
      else if a.user in g.sellers then Step(Fail(BadRequest), g)
      else
        var d := a.(status := "approved", reviewedBy := Some(admin), reviewedAt := Some(now),
          approvalReason := Some(StrOr(reason, "Application meets all requirements")));
        if !ApplicationValid(d) then Step(Fail(Invalid), g)
        else
          var saved := g.(apps := g.apps[k := d], users := g.users[a.user := g.users[a.user].(role := "seller")]);
          var s := ApprovedSeller(a, g.users[a.user]);
          if !SellerValid(s) then Step(Fail(Invalid), saved)
          else Step(Ok(d), saved.(sellers := g.sellers[a.user := s]))
  }

  method ApproveApplication(apps: ApplicationStore, users: UserStore, sellers: SellerStore,
                            admin: Id, id: Id, reason: Option<string>, now: Time) returns (r: Result<ApplicationDoc>)
    requires apps.Valid() && sellers.Valid()
    modifies apps, users, sellers
    ensures apps.Valid() && sellers.Valid()
    ensures Step(r, RegistryOf(apps, users, sellers)) == ApproveRequest(old(RegistryOf(apps, users, sellers)), admin, id, reason, now)
  {
    var k := ApplicationById(apps.apps, id);
    if k.None? {
      return Fail(NotFound);
    }
    var a := apps.apps[k.value];
    if a.status == "approved" {
      return Fail(BadRequest);
    }
    if a.user !in users.users {
      return Fail(ServerError);
    }
    if a.user in sellers.sellers {
      return Fail(BadRequest);
    }
    var d := a.(status := "approved", reviewedBy := Some(admin), reviewedAt := Some(now),
      approvalReason := Some(StrOr(reason, "Application meets all requirements")));
    if !ApplicationValid(d) {
      return Fail(Invalid);
    }
    var s := ApprovedSeller(a, users.users[a.user]);
    apps.Put(k.value, d);
    users.SetRole(a.user, "seller");
    if !SellerValid(s) {
      return Fail(Invalid);
    }
    sellers.Insert(s);
    r := Ok(d);
  }

  /**
   * declineApplication: a missing or empty reason is 400 before any
   * lookup, unknown is 404, already declined is 400; otherwise the
   * application is saved as declined with the reason.
   */
  function DeclineRequest(g: Registry, admin: Id, id: Id, reason: Option<string>, now: Time): (s: Step)
    ensures !Truthy(reason) ==> s == Step(Fail(BadRequest), g)
    ensures s.r.Fail? ==> s.after == g
    ensures s.r.Ok? ==> (s.r.value.status == "declined" && s.r.value.declineReason == reason && s.r.value.reviewedBy == Some(admin) &&
      s.after.users == g.users && s.after.sellers == g.sellers && |s.after.apps| == |g.apps|)
  {
    if !Truthy(reason) then Step(Fail(BadRequest), g)
    else match ApplicationById(g.apps, id)
      case None => Step(Fail(NotFound), g)
      case Some(k) =>
        var a := g.apps[k];
        if a.status == "declined" then Step(Fail(BadRequest), g)
        else
          var d := a.(status := "declined", reviewedBy := Some(admin), reviewedAt := Some(now), declineReason := reason);
          if !ApplicationValid(d) then Step(Fail(Invalid), g)
          else Step(Ok(d), g.(apps := g.apps[k := d]))
  }

  method DeclineApplication(apps: ApplicationStore, users: UserStore, sellers: SellerStore,
                            admin: Id, id: Id, reason: Option<string>, now: Time) returns (r: Result<ApplicationDoc>)
    requires apps.Valid()
    modifies apps
    ensures apps.Valid()
    ensures Step(r, RegistryOf(apps, users, sellers)) == DeclineRequest(old(RegistryOf(apps, users, sellers)), admin, id, reason, now)
  {
    if !Truthy(reason) {
      return Fail(BadRequest);
    }
    var k := ApplicationById(apps.apps, id);
    if k.None? {
      return Fail(NotFound);
    }
    var a := apps.apps[k.value];
    if a.status == "declined" {
      return Fail(BadRequest);
    }
    var d := a.(status := "declined", reviewedBy := Some(admin), reviewedAt := Some(now), declineReason := reason);
    if !ApplicationValid(d) {
      return Fail(Invalid);
    }
    apps.Put(k.value, d);
    r := Ok(d);
  }

  /** setUnderReview: any status, approved and declined included, moves to under_review; unknown is 404. */
  function UnderReviewRequest(g: Registry, admin: Id, id: Id, notes: Option<string>, now: Time): (s: Step)
    ensures s.r.Fail? ==> s.after == g
    ensures s.r == Fail(NotFound) <==> ApplicationById(g.apps, id).None?
    ensures s.r.Ok? ==> (s.r.value.id == id && s.r.value.status == "under_review" && s.r.value.reviewedBy == Some(admin) &&
      s.after.users == g.users && s.after.sellers == g.sellers && |s.after.apps| == |g.apps|)
  {
    match ApplicationById(g.apps, id)
    case None => Step(Fail(NotFound), g)
    case Some(k) =>
      var d := g.apps[k].(status := "under_review", reviewedBy := Some(admin), reviewedAt := Some(now), notes := Some(StrOr(notes, "")));
      if !ApplicationValid(d) then Step(Fail(Invalid), g)
      else Step(Ok(d), g.(apps := g.apps[k := d]))
  }

  method SetUnderReview(apps: ApplicationStore, users: UserStore, sellers: SellerStore,
                        admin: Id, id: Id, notes: Option<string>, now: Time) returns (r: Result<ApplicationDoc>)
    requires apps.Valid()
    modifies apps
    ensures apps.Valid()
    ensures Step(r, RegistryOf(apps, users, sellers)) == UnderReviewRequest(old(RegistryOf(apps, users, sellers)), admin, id, notes, now)
  {
    var k := ApplicationById(apps.apps, id);
    if k.None? {
      return Fail(NotFound);
    }
    var d := apps.apps[k.value].(status := "under_review", reviewedBy := Some(admin), reviewedAt := Some(now), notes := Some(StrOr(notes, "")));
    if !ApplicationValid(d) {
      return Fail(Invalid);
    }
    apps.Put(k.value, d);
    r := Ok(d);
  }

  /**
   * What checkEligibility promises, submit keeps: a caller told they may
   * apply, with no seller profile and a valid form, gets their application
   * stored as pending, in place of the declined one if there was one, and
   * it is then their only application.
   */
  lemma EligibleSubmitSucceeds(g: Registry, role: string, caller: Id, f: Form)
    requires AppsValid(g.apps, g.nextId) && FormValid(f)
    requires CheckEligibility(role, g.apps, caller).canApply && caller !in g.sellers
    ensures var st := SubmitRequest(g, caller, f, None, None);
      && st.r.Ok? && st.r.value.status == "pending" && st.r.value.user == caller
      && AppsValid(st.after.apps, st.after.nextId)
      && (forall j :: 0 <= j < |st.after.apps| && st.after.apps[j].user == caller ==> st.after.apps[j] == st.r.value)
  {
    var k := ApplicationOf(g.apps, caller);
    var mid := if k.Some? then RemoveAt(g.apps, k.value) else g.apps;
    if k.Some? {
      RemoveKeepsValid(g.apps, g.nextId, k.value);
    }
    var a := NewApplication(g.nextId, caller, f, None);
    EligibleStep(g, caller, f, mid, a);
    AppendKeepsValid(mid, g.nextId, a);
  }

  /** The step a submission by an eligible caller takes: the declined record (if any) goes, the new one is appended. */
  lemma EligibleStep(g: Registry, caller: Id, f: Form, mid: seq<ApplicationDoc>, a: ApplicationDoc)
    requires AppsValid(g.apps, g.nextId) && FormValid(f) && caller !in g.sellers
    requires var k := ApplicationOf(g.apps, caller);
      && (k.None? || g.apps[k.value].status == "declined")
      && mid == (if k.Some? then RemoveAt(g.apps, k.value) else g.apps)
    requires a == NewApplication(g.nextId, caller, f, None)
    ensures ApplicationValid(a) && ApplicationOf(mid, caller).None?
    ensures SubmitRequest(g, caller, f, None, None) == Step(Ok(a), g.(apps := mid + [a], nextId := g.nextId + 1))
  {
    var k := ApplicationOf(g.apps, caller);
    if k.Some? {
      assert g.apps[k.value].status !in OpenStatuses;
      RemoveKeepsValid(g.apps, g.nextId, k.value);
    }
  }

  /** Deleting a record keeps the collection valid and leaves no record of that user. */
  lemma RemoveKeepsValid(apps: seq<ApplicationDoc>, nextId: Id, k: nat)
    requires AppsValid(apps, nextId) && k < |apps|
    ensures AppsValid(RemoveAt(apps, k), nextId)
    ensures forall j :: 0 <= j < |apps| - 1 ==> RemoveAt(apps, k)[j].user != apps[k].user
  {
    var r := RemoveAt(apps, k);
    forall j | 0 <= j < |r|
      ensures r[j].user != apps[k].user
    {
      var i := if j < k then j else j + 1;
      assert r[j] == apps[i] && i != k;
    }
  }

  /** Appending a valid record of a new user under the next id keeps the collection valid. */
  lemma AppendKeepsValid(apps: seq<ApplicationDoc>, nextId: Id, a: ApplicationDoc)
    requires AppsValid(apps, nextId) && a.id == nextId && ApplicationValid(a)
    requires forall j :: 0 <= j < |apps| ==> apps[j].user != a.user
    ensures AppsValid(apps + [a], nextId + 1)
    ensures forall j :: 0 <= j < |apps + [a]| && (apps + [a])[j].user == a.user ==> (apps + [a])[j] == a
  {
  }

  /**
   * Approval is the only path to a profile through the lifecycle: an
   * approved request leaves the application approved, the user a seller
   * and a profile carrying the application's names and phone; refusals
   * change nothing.
   */
  lemma ApproveRules(g: Registry, admin: Id, id: Id, reason: Option<string>, now: Time)
    ensures var st := ApproveRequest(g, admin, id, reason, now);
      && (st.r == Fail(NotFound) ==> ApplicationById(g.apps, id).None? && st.after == g)
      && (st.r.Ok? ==> (
        var k := ApplicationById(g.apps, id).value;
        var u := g.apps[k].user;
        && g.apps[k].status != "approved" && u !in g.sellers
        && st.after.apps[k].status == "approved" && st.after.apps[k].approvalReason.Some?
        && st.after.users[u].role == "seller"
        && u in st.after.sellers && st.after.sellers[u].firstName == g.apps[k].form.firstName
        && st.after.sellers[u].phone == g.apps[k].form.phone))
  {
  }

  /**
   * Nothing in the update keeps an applicant from setting their own
   * status: a pending application updated with status "approved" (and an
   * otherwise unchanged form) is stored approved, and the seller lookup
   * then creates the applicant's profile without any admin decision.
   */
  lemma SelfApprovalOpensProfile(g: Registry, caller: Id, u: UserDoc)
    requires AppsValid(g.apps, g.nextId) && caller !in g.sellers
    requires var k := ApplicationOf(g.apps, caller); k.Some? && g.apps[k.value].status == "pending"
    requires var f := g.apps[ApplicationOf(g.apps, caller).value].form; |u.email| > 0
    ensures var st := UpdateRequest(g, caller, FormPatch(None, None, None, None, None, None, None, None, None, None, None, None, None), None, Some("approved"));
      st.r.Ok? && st.r.value.status == "approved" && st.r.value.reviewedBy == g.apps[ApplicationOf(g.apps, caller).value].reviewedBy &&
      AccessRequest(st.after.sellers, st.after.apps, caller, u).Created?
  {
    var k := ApplicationOf(g.apps, caller).value;
    var a := g.apps[k];
    var p := FormPatch(None, None, None, None, None, None, None, None, None, None, None, None, None);
    assert Patched(a.form, p) == a.form;
    var d := a.(status := "approved");
    var apps := g.apps[k := d];
    forall j | 0 <= j < |apps| && j != k
      ensures apps[j].user != caller
    {
      assert apps[j] == g.apps[j];
    }
    assert apps[k].user == caller;
    assert Lower(u.email)[0] == LowerChar(u.email[0]);
  }

  /** Decline and under-review move any other status to theirs; approval and decline refuse a repeat of themselves. */
  lemma StatusMoves(g: Registry, admin: Id, id: Id, text: Option<string>, now: Time)
    requires ApplicationById(g.apps, id).Some?
    ensures var a := g.apps[ApplicationById(g.apps, id).value];
      && (a.status == "approved" ==> ApproveRequest(g, admin, id, text, now).r == Fail(BadRequest))
      && (a.status == "declined" && Truthy(text) ==> DeclineRequest(g, admin, id, text, now).r == Fail(BadRequest))
      && (DeclineRequest(g, admin, id, text, now).r.Ok? ==> DeclineRequest(g, admin, id, text, now).r.value.status == "declined" && a.status != "declined")
      && (UnderReviewRequest(g, admin, id, text, now).r.Ok? ==> UnderReviewRequest(g, admin, id, text, now).r.value.status == "under_review")
      && (ApplicationValid(a) && AtMost(text, 1000) ==> UnderReviewRequest(g, admin, id, text, now).r.Ok?)
  {
  }
}
