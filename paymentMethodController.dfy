/**
 * The customer's saved cards: add, list, read, make default, soft-delete
 * (promoting another card when the default goes) and rename. Every handler
 * is scoped to the caller's own cards that are still active.
 */
module PaymentMethodController {
  import opened Base
  import opened Listing
  import opened PaymentMethodModel

  /** The add request's body; `isDefault` may be left out. */
  datatype AddBody = AddBody(
    cardholderName: string,
    last4: string,
    brand: string,
    expiryMonth: int,
    expiryYear: int,
    token: string,
    isDefault: Option<bool>)

  /** `/^[a-zA-Z\s]+$/`. */
  predicate IsName(s: string) {
    |s| > 0 && forall i :: 0 <= i < |s| ==> ('a' <= s[i] <= 'z' || 'A' <= s[i] <= 'Z' || IsSpace(s[i]))
  }

  /** The request validator's name rule: 2 to 50 letters and spaces. */
  predicate NameAccepted(s: string) {
    2 <= |s| <= 50 && IsName(s)
  }

  /** express-validator's `isNumeric`: an optional sign, then digits with at most one decimal point not at the end. */
  predicate IsNumeric(s: string) {
    var t := if |s| > 0 && (s[0] == '+' || s[0] == '-') then s[1..] else s;
    && |t| > 0
    && IsDigit(t[|t| - 1])
    && (forall i :: 0 <= i < |t| ==> IsDigit(t[i]) || t[i] == '.')
    && (forall i, j :: 0 <= i < j < |t| && t[i] == '.' ==> t[j] != '.')
  }

  /**
   * The add validator. Its expiry-year bounds use the year in which the
   * validator module was loaded, `loadYear`, not the year of the request.
   */
  predicate AddAccepted(b: AddBody, loadYear: int) {
    && NameAccepted(b.cardholderName)
    && |b.last4| == 4 && IsNumeric(b.last4)
    && b.brand in Brands
    && 1 <= b.expiryMonth <= 12
    && loadYear <= b.expiryYear <= loadYear + 20
    && |b.token| >= 10
  }

  /** The card as `create` builds it: the caller's, active, brand lower-cased, not default unless asked. */
  function NewMethod(id: Id, caller: Id, b: AddBody, now: Time): (m: MethodDoc)
    ensures m.id == id && m.user == caller && m.isActive && m.createdAt == now
    ensures m.isDefault <==> b.isDefault == Some(true)
  {
    MethodDoc(id, caller, b.cardholderName, b.last4, Lower(b.brand), b.expiryMonth, b.expiryYear,
              Or(b.isDefault, false), b.token, true, now)
  }

  /** What a state-changing request answers and the collection afterwards. */
  datatype Changed = Changed(r: Result<MethodDoc>, after: seq<MethodDoc>)

  datatype Removed = Removed(r: Outcome, after: seq<MethodDoc>)

  /** `create`: the schema check in `year`, then the hook, then the insert. */
  function AddRequest(ms: seq<MethodDoc>, next: Id, caller: Id, b: AddBody, now: Time, year: int): (c: Changed)
    ensures c.r.Fail? <==> !MethodValid(NewMethod(next, caller, b, now), year)
    ensures c.r.Fail? ==> c.r == Fail(Invalid) && c.after == ms
    ensures c.r.Ok? ==> (c.r.value.id == next && c.r.value.user == caller && c.r.value.isActive &&
      |c.after| == |ms| + 1 && c.after[|ms|] == c.r.value)
  {
    var m := NewMethod(next, caller, b, now);
    if !MethodValid(m, year) then Changed(Fail(Invalid), ms)
    else Changed(Ok(m), Hooked(ms, m, m.isDefault) + [m])
  }

  /** `findOne({ _id: id, user: caller, isActive: true })`. */
  function FindOwn(ms: seq<MethodDoc>, caller: Id, id: Id): (r: Option<nat>)
    ensures r.None? <==> forall k :: 0 <= k < |ms| ==> !(ms[k].id == id && ms[k].user == caller && ms[k].isActive)
    ensures r.Some? ==> r.value < |ms| && ms[r.value].id == id && ms[r.value].user == caller && ms[r.value].isActive
  {
    FirstIndex(ms, (m: MethodDoc) => m.id == id && m.user == caller && m.isActive)
  }

  /** `findOne({ user: caller, isActive: true })` with no sort: the first such card in storage order. */
  function FirstActive(ms: seq<MethodDoc>, caller: Id): (r: Option<nat>)
    ensures r.None? <==> forall k :: 0 <= k < |ms| ==> !(ms[k].user == caller && ms[k].isActive)
    ensures r.Some? ==> r.value < |ms| && ms[r.value].user == caller && ms[r.value].isActive
    ensures r.Some? ==> forall k :: 0 <= k < r.value ==> !(ms[k].user == caller && ms[k].isActive)
  {
    FirstIndex(ms, (m: MethodDoc) => m.user == caller && m.isActive)
  }

  predicate OwnActive(m: MethodDoc, caller: Id) {
    m.user == caller && m.isActive
  }

  function CreatedAt(m: MethodDoc): int {
    m.createdAt
  }

  /** getMyPaymentMethods: `sort({ isDefault: -1, createdAt: -1 })` over the caller's active cards. */
  function MyMethods(ms: seq<MethodDoc>, caller: Id): (r: seq<MethodDoc>)
    ensures |r| == Count(ms, (m: MethodDoc) => OwnActive(m, caller) && m.isDefault) + Count(ms, (m: MethodDoc) => OwnActive(m, caller) && !m.isDefault)
    ensures forall i :: 0 <= i < |r| ==> r[i].user == caller && r[i].isActive
  {
    var a := Filter(ms, (m: MethodDoc) => OwnActive(m, caller) && m.isDefault);
    var b := Filter(ms, (m: MethodDoc) => OwnActive(m, caller) && !m.isDefault);
    var r := SortDesc(a, CreatedAt) + SortDesc(b, CreatedAt);
    assert forall i :: 0 <= i < |r| ==> r[i].user == caller && r[i].isActive by {
      SortDescMembers(a, CreatedAt);
      SortDescMembers(b, CreatedAt);
      forall i | 0 <= i < |r|
        ensures r[i].user == caller && r[i].isActive
      {
        if i < |SortDesc(a, CreatedAt)| {
          assert r[i] in SortDesc(a, CreatedAt);
        } else {
          assert r[i] in SortDesc(b, CreatedAt);
        }
      }
    }
    assert r == SortDesc(Filter(ms, (m: MethodDoc) => OwnActive(m, caller) && m.isDefault), CreatedAt)
    + SortDesc(Filter(ms, (m: MethodDoc) => OwnActive(m, caller) && !m.isDefault), CreatedAt);
    r
  }

  /** getPaymentMethod. */
  function GetRequest(ms: seq<MethodDoc>, caller: Id, id: Id): (r: Result<MethodDoc>)
    ensures r.Fail? <==> forall k :: 0 <= k < |ms| ==> !(ms[k].id == id && OwnActive(ms[k], caller))
    ensures r.Fail? ==> r.failure == NotFound
    ensures r.Ok? ==> r.value in ms && r.value.id == id && OwnActive(r.value, caller)
  {
    match FindOwn(ms, caller, id)
    case None => Fail(NotFound)
    case Some(k) => Ok(ms[k])
  }

  /**
   * setDefaultPaymentMethod: clear every other card of the caller first,
   * then save the card with the flag on. The save can still fail the
   * schema check (an expiry year now in the past), after the clearing.
   */
  function SetDefaultRequest(ms: seq<MethodDoc>, caller: Id, id: Id, year: int): (c: Changed)
    ensures c.r == Fail(NotFound) <==> FindOwn(ms, caller, id).None?
    ensures c.r == Fail(NotFound) ==> c.after == ms
    ensures c.r.Fail? ==> c.r.failure == NotFound || c.r.failure == Invalid
    ensures |c.after| == |ms|
    ensures c.r.Ok? ==> (
      && c.r.value.id == id && OwnActive(c.r.value, caller) && c.r.value.isDefault
      && forall i :: 0 <= i < |ms| && ms[i].user == caller && ms[i].id != id ==> !c.after[i].isDefault)
    ensures forall i :: 0 <= i < |ms| && ms[i].user != caller ==> c.after[i] == ms[i]
  {
    match FindOwn(ms, caller, id)
    case None => Changed(Fail(NotFound), ms)
    case Some(k) =>
      var cleared := ClearOthers(ms, caller, id);
      var d := cleared[k].(isDefault := true);
      if !MethodValid(d, year) then Changed(Fail(Invalid), cleared)
      else Changed(Ok(d), Hooked(cleared, d, !cleared[k].isDefault)[k := d])
  }

  /**
   * removePaymentMethod: mark the card inactive and save it (its flag is
   * not modified, so the hook is idle); if it was the default, make the
   * caller's first remaining active card the default by saving it.
   */
  function RemoveRequest(ms: seq<MethodDoc>, caller: Id, id: Id, year: int): (c: Removed)
    ensures c.r == Failed(NotFound) <==> FindOwn(ms, caller, id).None?
    ensures c.r == Failed(NotFound) ==> c.after == ms
    ensures c.r.Failed? ==> c.r.failure == NotFound || c.r.failure == Invalid
    ensures |c.after| == |ms|
    ensures c.r.Done? ==> FindOwn(ms, caller, id).Some? && !c.after[FindOwn(ms, caller, id).value].isActive
    ensures forall i :: 0 <= i < |ms| && ms[i].user != caller ==> c.after[i] == ms[i]
  {
    match FindOwn(ms, caller, id)
    case None => Removed(Failed(NotFound), ms)
    case Some(k) =>
      var d := ms[k].(isActive := false);
      if !MethodValid(d, year) then Removed(Failed(Invalid), ms)
      else
        var ms1 := ms[k := d];
        if !d.isDefault then Removed(Done, ms1)
        else match FirstActive(ms1, caller)
          case None => Removed(Done, ms1)
          case Some(j) =>
            var n := ms1[j].(isDefault := true);
            if !MethodValid(n, year) then Removed(Failed(Invalid), ms1)
            else Removed(Done, Hooked(ms1, n, !ms1[j].isDefault)[j := n])
  }

  /**
   * updatePaymentMethod: `findOneAndUpdate` with the name only. Update
   * validators check only the updated path, and a name the request
   * validator accepts always passes them; the save hook does not run.
   */
  function UpdateRequest(ms: seq<MethodDoc>, caller: Id, id: Id, name: string): (c: Changed)
    requires NameAccepted(name)
    ensures c.r.Fail? <==> FindOwn(ms, caller, id).None?
    ensures c.r.Fail? ==> c.r.failure == NotFound && c.after == ms
    ensures c.r.Ok? ==> FindOwn(ms, caller, id).Some? && var k := FindOwn(ms, caller, id).value;
      && c.r.value == ms[k].(cardholderName := name)
      && |c.after| == |ms| && c.after[k] == c.r.value
      && forall i :: 0 <= i < |ms| && i != k ==> c.after[i] == ms[i]
  {
    match FindOwn(ms, caller, id)
    case None => Changed(Fail(NotFound), ms)
    case Some(k) =>
      var d := ms[k].(cardholderName := name);
      Changed(Ok(d), ms[k := d])
  }

  /** The collection, with ids drawn from a counter. */
  class PaymentMethodStore {
    var methods: seq<MethodDoc>
    var nextId: Id

    ghost predicate Valid()
      reads this
    {
      DistinctIds(methods) && forall i :: 0 <= i < |methods| ==> methods[i].id < nextId
    }

    constructor ()
      ensures methods == [] && nextId == 0 && Valid()
    {
      methods := [];
      nextId := 0;
    }

    /** `updateMany({ user, _id: { $ne: id } }, { isDefault: false })`. */
    method ClearDefaults(user: Id, id: Id)
      requires Valid()
      modifies this
      ensures Valid() && nextId == old(nextId)
      ensures methods == ClearOthers(old(methods), user, id)
    {
      methods := ClearOthers(methods, user, id);
    }

    /** `doc.save()` on the k-th card: the hook, then the write. */
    method Save(k: nat, d: MethodDoc, defaultModified: bool)
      requires Valid() && k < |methods| && d.id == methods[k].id
      modifies this
      ensures Valid() && nextId == old(nextId)
      ensures methods == Hooked(old(methods), d, defaultModified)[k := d]
    {
      if d.isDefault && defaultModified {
        methods := ClearOthers(methods, d.user, d.id);
      }
      methods := methods[k := d];
    }

    /** `create(d)` with a fresh id: the hook, then the insert. */
    method Create(d: MethodDoc)
      requires Valid() && d.id == nextId
      modifies this
      ensures Valid() && nextId == old(nextId) + 1
      ensures methods == Hooked(old(methods), d, d.isDefault) + [d]
    {
      if d.isDefault {
        methods := ClearOthers(methods, d.user, d.id);
      }
      methods := methods + [d];
      nextId := nextId + 1;
    }
  }

  method AddPaymentMethod(store: PaymentMethodStore, caller: Id, b: AddBody, now: Time, loadYear: int, year: int) returns (r: Result<MethodDoc>)
    requires store.Valid() && AddAccepted(b, loadYear)
    modifies store
    ensures store.Valid()
    ensures Changed(r, store.methods) == AddRequest(old(store.methods), old(store.nextId), caller, b, now, year)
  {
    var m := NewMethod(store.nextId, caller, b, now);
    if !MethodValid(m, year) {
      return Fail(Invalid);
    }
    store.Create(m);
    r := Ok(m);
  }

  method SetDefaultPaymentMethod(store: PaymentMethodStore, caller: Id, id: Id, year: int) returns (r: Result<MethodDoc>)
    requires store.Valid()
    modifies store
    ensures store.Valid() && store.nextId == old(store.nextId)
    ensures Changed(r, store.methods) == SetDefaultRequest(old(store.methods), caller, id, year)
  {
    var k := FindOwn(store.methods, caller, id);
    if k.None? {
      return Fail(NotFound);
    }
    store.ClearDefaults(caller, id);
    var d := store.methods[k.value].(isDefault := true);
    if !MethodValid(d, year) {
      return Fail(Invalid);
    }
    store.Save(k.value, d, !store.methods[k.value].isDefault);
    r := Ok(d);
  }

  method RemovePaymentMethod(store: PaymentMethodStore, caller: Id, id: Id, year: int) returns (r: Outcome)
    requires store.Valid()
    modifies store
    ensures store.Valid() && store.nextId == old(store.nextId)
    ensures Removed(r, store.methods) == RemoveRequest(old(store.methods), caller, id, year)
  {
    var k := FindOwn(store.methods, caller, id);
    if k.None? {
      return Failed(NotFound);
    }
    var d := store.methods[k.value].(isActive := false);
    if !MethodValid(d, year) {
      return Failed(Invalid);
    }
    store.Save(k.value, d, false);
    if !d.isDefault {
      return Done;
    }
    var j := FirstActive(store.methods, caller);
    if j.None? {
      return Done;
    }
    var n := store.methods[j.value].(isDefault := true);
    if !MethodValid(n, year) {
      return Failed(Invalid);
    }
    store.Save(j.value, n, !store.methods[j.value].isDefault);
    r := Done;
  }

  method UpdatePaymentMethod(store: PaymentMethodStore, caller: Id, id: Id, name: string) returns (r: Result<MethodDoc>)
    requires store.Valid() && NameAccepted(name)
    modifies store
    ensures store.Valid() && store.nextId == old(store.nextId)
    ensures Changed(r, store.methods) == UpdateRequest(old(store.methods), caller, id, name)
  {
    var k := FindOwn(store.methods, caller, id);
    if k.None? {
      return Fail(NotFound);
    }
    var d := store.methods[k.value].(cardholderName := name);
    store.Save(k.value, d, false);
    r := Ok(d);
  }

  /** A body the validator accepts is stored unless the schema disagrees: same year and four plain digits. */
  lemma AcceptedBodyStored(ms: seq<MethodDoc>, next: Id, caller: Id, b: AddBody, now: Time, year: int)
    requires AddAccepted(b, year) && IsDigits(b.last4)
    ensures AddRequest(ms, next, caller, b, now, year).r == Ok(NewMethod(next, caller, b, now))
  {
    var m := NewMethod(next, caller, b, now);
    assert Lower(b.brand) == b.brand;
  }

  /** `isNumeric` lets a signed last4 through the validator; the schema then refuses it. */
  lemma SignedLast4Refused(ms: seq<MethodDoc>, next: Id, caller: Id, now: Time, year: int)
    ensures var b := AddBody("Ann Lee", "-123", "visa", 1, year, "tok_123456", None);
      AddAccepted(b, year) && AddRequest(ms, next, caller, b, now, year) == Changed(Fail(Invalid), ms)
  {
    var b := AddBody("Ann Lee", "-123", "visa", 1, year, "tok_123456", None);
    assert !IsDigit(b.last4[0]);
    assert IsName(b.cardholderName) by {
      forall i | 0 <= i < 7
        ensures 'a' <= b.cardholderName[i] <= 'z' || 'A' <= b.cardholderName[i] <= 'Z' || IsSpace(b.cardholderName[i])
      {
      }
    }
    var t := b.last4[1..];
    assert t == "123";
    forall i | 0 <= i < |t|
      ensures IsDigit(t[i])
    {
    }
  }

  /** Adding keeps every user at one default card at most; a default card becomes the caller's only one. */
  lemma AddKeepsOneDefault(ms: seq<MethodDoc>, next: Id, caller: Id, b: AddBody, now: Time, year: int)
    requires OneDefaultEach(ms) && forall i :: 0 <= i < |ms| ==> ms[i].id < next
    ensures var c := AddRequest(ms, next, caller, b, now, year);
      && OneDefaultEach(c.after)
      && (c.r.Ok? ==> c.after[|ms|] == c.r.value && |c.after| == |ms| + 1)
      && (c.r.Ok? && c.r.value.isDefault ==> forall i :: 0 <= i < |ms| && c.after[i].user == caller ==> !c.after[i].isDefault)
  {
  }

  /**
   * After a successful call the chosen card is the caller's only default and
   * nothing else about any card has changed; a failed save leaves the
   * caller with no default card but, possibly, the chosen one.
   */
  lemma SetDefaultRules(ms: seq<MethodDoc>, caller: Id, id: Id, year: int)
    requires DistinctIds(ms)
    ensures var c := SetDefaultRequest(ms, caller, id, year);
      && |c.after| == |ms|
      && (c.r.Fail? && c.r.failure == NotFound <==> FindOwn(ms, caller, id).None?)
      && (c.r.Fail? && c.r.failure == NotFound ==> c.after == ms)
      && (c.r.Ok? ==> c.r.value.id == id && c.r.value.user == caller && c.r.value.isDefault && c.r.value.isActive)
      && (c.r.Ok? ==> forall i :: 0 <= i < |ms| ==> c.after[i] == (if ms[i].id == id then c.r.value else if ms[i].user == caller then ms[i].(isDefault := false) else ms[i]))
      && (c.r.Fail? && c.r.failure == Invalid ==> forall i :: 0 <= i < |ms| && c.after[i].user == caller && c.after[i].id != id ==> !c.after[i].isDefault)
  {
    match FindOwn(ms, caller, id)
    case None =>
    case Some(k) =>
      var cleared := ClearOthers(ms, caller, id);
      assert forall i :: 0 <= i < |ms| && ms[i].id == id ==> i == k;
  }

  /** Setting a default keeps every user at one default card at most. */
  lemma SetDefaultKeepsOneDefault(ms: seq<MethodDoc>, caller: Id, id: Id, year: int)
    requires DistinctIds(ms) && OneDefaultEach(ms)
    ensures OneDefaultEach(SetDefaultRequest(ms, caller, id, year).after)
  {
    SetDefaultRules(ms, caller, id, year);
  }

  /** Renaming changes the name of the one card and nothing else. */
  lemma UpdateRules(ms: seq<MethodDoc>, caller: Id, id: Id, name: string)
    requires NameAccepted(name)
    ensures var c := UpdateRequest(ms, caller, id, name);
      && (c.r.Fail? <==> FindOwn(ms, caller, id).None?)
      && (c.r.Fail? ==> c.after == ms && c.r.failure == NotFound)
      && (c.r.Ok? ==> var k := FindOwn(ms, caller, id).value;
            c.r.value == ms[k].(cardholderName := name) && c.after == ms[k := c.r.value])
      && OneDefaultEach(c.after) == OneDefaultEach(ms)
  {
    match FindOwn(ms, caller, id)
    case None =>
    case Some(k) =>
      var after := ms[k := ms[k].(cardholderName := name)];
      assert forall i :: 0 <= i < |ms| ==> after[i].user == ms[i].user && after[i].isDefault == ms[i].isDefault;
  }

  /**
   * Removal is a soft delete: the card stays in the collection, inactive,
   * and only the caller's cards can change.
   */
  lemma RemoveRules(ms: seq<MethodDoc>, caller: Id, id: Id, year: int)
    ensures var c := RemoveRequest(ms, caller, id, year);
      && |c.after| == |ms|
      && (c.r == Failed(NotFound) <==> FindOwn(ms, caller, id).None?)
      && (c.r == Failed(NotFound) ==> c.after == ms)
      && (forall i :: 0 <= i < |ms| && ms[i].user != caller ==> c.after[i] == ms[i])
      && (c.r.Done? ==> var k := FindOwn(ms, caller, id).value;
            c.after[k] == ms[k].(isActive := false, isDefault := c.after[k].isDefault))
      && (c.r.Done? && !ms[FindOwn(ms, caller, id).value].isDefault ==>
            var k := FindOwn(ms, caller, id).value; c.after == ms[k := ms[k].(isActive := false)])
  {
  }

  /**
   * When the default card is removed and the caller has another active
   * card, the first of them in storage order becomes the default and the
   * removed card loses the flag; with no other active card the removed card
   * keeps it.
   */
  lemma RemovePromotes(ms: seq<MethodDoc>, caller: Id, id: Id, year: int)
    requires DistinctIds(ms) && OneDefaultEach(ms)
    requires FindOwn(ms, caller, id).Some? && ms[FindOwn(ms, caller, id).value].isDefault
    ensures var c := RemoveRequest(ms, caller, id, year);
      var k := FindOwn(ms, caller, id).value;
      c.r.Done? ==>
        && (FirstActive(c.after, caller).Some? ==>
              c.after[FirstActive(c.after, caller).value].isDefault && !c.after[k].isDefault)
        && (FirstActive(c.after, caller).None? ==> c.after[k].isDefault)
  {
    var k := FindOwn(ms, caller, id).value;
    var d := ms[k].(isActive := false);
    var ms1 := ms[k := d];
    if MethodValid(d, year) {
      match FirstActive(ms1, caller)
      case None =>
      case Some(j) =>
        var n := ms1[j].(isDefault := true);
        if MethodValid(n, year) {
          assert j != k;
          assert !ms1[j].isDefault;
          var after := Hooked(ms1, n, true)[j := n];
          assert forall i :: 0 <= i < |ms| ==> after[i].user == ms1[i].user && after[i].isActive == ms1[i].isActive;
          FirstActiveSameOwners(ms1, after, caller);
        }
    }
  }

  /** The first active card of a user depends only on the owners and the active flags. */
  lemma FirstActiveSameOwners(a: seq<MethodDoc>, b: seq<MethodDoc>, caller: Id)
    requires |a| == |b|
    requires forall i :: 0 <= i < |a| ==> b[i].user == a[i].user && b[i].isActive == a[i].isActive
    ensures FirstActive(b, caller) == FirstActive(a, caller)
  {
  }

  /** Removing keeps every user at one default card at most. */
  lemma RemoveKeepsOneDefault(ms: seq<MethodDoc>, caller: Id, id: Id, year: int)
    requires DistinctIds(ms) && OneDefaultEach(ms)
    ensures OneDefaultEach(RemoveRequest(ms, caller, id, year).after)
  {
    match FindOwn(ms, caller, id)
    case None =>
    case Some(k) =>
      DeactivateKeeps(ms, k);
      var ms1 := ms[k := ms[k].(isActive := false)];
      match FirstActive(ms1, caller)
      case None =>
      case Some(j) =>
        PromoteKeepsOneDefault(ms1, j);
  }

  /** Deactivating a card keeps the ids distinct and the defaults at one per user. */
  lemma DeactivateKeeps(ms: seq<MethodDoc>, k: nat)
    requires DistinctIds(ms) && OneDefaultEach(ms) && k < |ms|
    ensures var ms1 := ms[k := ms[k].(isActive := false)];
      DistinctIds(ms1) && OneDefaultEach(ms1)
  {
    var ms1 := ms[k := ms[k].(isActive := false)];
    assert forall i :: 0 <= i < |ms| ==> ms1[i].user == ms[i].user && ms1[i].isDefault == ms[i].isDefault && ms1[i].id == ms[i].id;
  }

  /** Promoting the j-th card to default through the save hook keeps the defaults at one per user. */
  lemma PromoteKeepsOneDefault(ms: seq<MethodDoc>, j: nat)
    requires DistinctIds(ms) && OneDefaultEach(ms) && j < |ms|
    ensures var n := ms[j].(isDefault := true);
      OneDefaultEach(Hooked(ms, n, !ms[j].isDefault)[j := n])
  {
    var n := ms[j].(isDefault := true);
    if ms[j].isDefault {
      assert Hooked(ms, n, false)[j := n] == ms;
    } else {
      var r := ClearOthers(ms, n.user, n.id)[j := n];
      forall a, b | 0 <= a < |r| && 0 <= b < |r| && r[a].user == r[b].user && r[a].isDefault && r[b].isDefault
        ensures a == b
      {
        if a != j && b != j {
          assert r[a] == ms[a] && r[b] == ms[b];
        }
      }
    }
  }

  /** The listing holds exactly the caller's active cards, as many as are stored. */
  lemma MyMethodsMembers(ms: seq<MethodDoc>, caller: Id)
    ensures var l := MyMethods(ms, caller);
      && (forall m :: m in l <==> m in ms && OwnActive(m, caller))
      && |l| == Count(ms, (m: MethodDoc) => OwnActive(m, caller) && m.isDefault) + Count(ms, (m: MethodDoc) => OwnActive(m, caller) && !m.isDefault)
  {
    SortDescMembers(Filter(ms, (m: MethodDoc) => OwnActive(m, caller) && m.isDefault), CreatedAt);
    SortDescMembers(Filter(ms, (m: MethodDoc) => OwnActive(m, caller) && !m.isDefault), CreatedAt);
  }

  /** Defaults come first, and within each group the newest card comes first. */
  lemma MyMethodsOrder(ms: seq<MethodDoc>, caller: Id)
    ensures var l := MyMethods(ms, caller);
      && (forall i, j :: 0 <= i < j < |l| && l[j].isDefault ==> l[i].isDefault)
      && (forall i, j :: 0 <= i < j < |l| && l[i].isDefault == l[j].isDefault ==> l[i].createdAt >= l[j].createdAt)
  {
    var a := Filter(ms, (m: MethodDoc) => OwnActive(m, caller) && m.isDefault);
    var b := Filter(ms, (m: MethodDoc) => OwnActive(m, caller) && !m.isDefault);
    assert MyMethods(ms, caller) == SortDesc(a, CreatedAt) + SortDesc(b, CreatedAt);
    SortDescMembers(a, CreatedAt);
    SortDescMembers(b, CreatedAt);
    GroupsOrdered(SortDesc(a, CreatedAt), SortDesc(b, CreatedAt));
  }

  lemma GroupsOrdered(sa: seq<MethodDoc>, sb: seq<MethodDoc>)
    requires forall m :: m in sa ==> m.isDefault
    requires forall m :: m in sb ==> !m.isDefault
    requires DescendingBy(sa, CreatedAt) && DescendingBy(sb, CreatedAt)
    ensures var l := sa + sb;
      && (forall i, j :: 0 <= i < j < |l| && l[j].isDefault ==> l[i].isDefault)
      && (forall i, j :: 0 <= i < j < |l| && l[i].isDefault == l[j].isDefault ==> l[i].createdAt >= l[j].createdAt)
  {
    var l := sa + sb;
    assert forall i :: 0 <= i < |l| ==> (l[i].isDefault <==> i < |sa|) by {
      forall i | 0 <= i < |l|
        ensures l[i].isDefault <==> i < |sa|
      {
        if i < |sa| {
          assert l[i] == sa[i] && sa[i] in sa;
        } else {
          assert l[i] == sb[i - |sa|] && sb[i - |sa|] in sb;
        }
      }
    }
    forall i, j | 0 <= i < j < |l| && l[i].isDefault == l[j].isDefault
      ensures l[i].createdAt >= l[j].createdAt
    {
      if j < |sa| {
        assert CreatedAt(sa[i]) >= CreatedAt(sa[j]);
      } else {
        assert CreatedAt(sb[i - |sa|]) >= CreatedAt(sb[j - |sa|]);
      }
    }
  }

  /** A card is returned exactly when it is the caller's and still active. */
  lemma GetRules(ms: seq<MethodDoc>, caller: Id, id: Id)
    ensures GetRequest(ms, caller, id).Ok? <==> exists k :: 0 <= k < |ms| && ms[k].id == id && ms[k].user == caller && ms[k].isActive
    ensures GetRequest(ms, caller, id).Ok? ==> var m := GetRequest(ms, caller, id).value; m in ms && m.id == id && OwnActive(m, caller)
    ensures GetRequest(ms, caller, id).Fail? ==> GetRequest(ms, caller, id).failure == NotFound
  {
  }
}
