/**
 * The privacy-policy handlers: the public read of the active policy and
 * the admin's list, create, update, activate and delete.
 */
module PrivacyPolicyController {
  import opened Base
  import opened Listing
  import opened PrivacyPolicyModel

  datatype Changed = Changed(r: Result<PolicyDoc>, after: seq<PolicyDoc>)

  /** `findOne({ isActive: true })`: the first active policy in storage order. */
  function ActiveIndex(ps: seq<PolicyDoc>): (r: Option<nat>)
    ensures r.None? <==> forall k :: 0 <= k < |ps| ==> !ps[k].isActive
    ensures r.Some? ==> r.value < |ps| && ps[r.value].isActive
    ensures r.Some? ==> forall k :: 0 <= k < r.value ==> !ps[k].isActive
  {
    FirstIndex(ps, (p: PolicyDoc) => p.isActive)
  }

  /** `findById(id)`. */
  function IndexOf(ps: seq<PolicyDoc>, id: Id): (r: Option<nat>)
    ensures r.None? <==> forall k :: 0 <= k < |ps| ==> ps[k].id != id
    ensures r.Some? ==> r.value < |ps| && ps[r.value].id == id
  {
    FirstIndex(ps, (p: PolicyDoc) => p.id == id)
  }

  /** getPrivacyPolicy. */
  function GetRequest(ps: seq<PolicyDoc>): (r: Result<PolicyDoc>)
    ensures r.Fail? <==> forall k :: 0 <= k < |ps| ==> !ps[k].isActive
    ensures r.Fail? ==> r.failure == NotFound
    ensures r.Ok? ==> r.value.isActive && exists k :: 0 <= k < |ps| && r.value == ps[k] && forall j :: 0 <= j < k ==> !ps[j].isActive
  {
    match ActiveIndex(ps)
    case None => Fail(NotFound)
    case Some(k) => Ok(ps[k])
  }

  function CreatedAt(p: PolicyDoc): int {
    p.createdAt
  }

  /** getAllPrivacyPolicies: every policy, newest first. */
  function AllPolicies(ps: seq<PolicyDoc>): seq<PolicyDoc> {
    SortDesc(ps, CreatedAt)
  }

  /** The content the schema sees when the body may leave it out. */
  function ContentOf(content: Option<string>): string {
    Or(content, "")
  }

  /** createPrivacyPolicy: an active policy, version "1.0" unless given; the hook deactivates the rest. */
  function CreateRequest(ps: seq<PolicyDoc>, next: Id, caller: Id, content: Option<string>, version: Option<string>, now: Time): (c: Changed)
    ensures c.r.Fail? ==> c.r == Fail(Invalid) && c.after == ps
    ensures content.None? ==> c.r == Fail(Invalid)
    ensures c.r.Ok? ==> (
      && c.r.value.id == next && c.r.value.isActive && c.r.value.updatedBy == caller && c.r.value.createdAt == now
      && |c.after| == |ps| + 1 && c.after[|ps|] == c.r.value
      && forall i :: 0 <= i < |ps| && ps[i].id != next ==> !c.after[i].isActive)
  {
    var d := PolicyDoc(next, ContentOf(content), StrOr(version, "1.0"), caller, true, now);
    if !PolicyValid(d) then Changed(Fail(Invalid), ps)
    else Changed(Ok(d), Hooked(ps, d, true) + [d])
  }

  /**
   * updatePrivacyPolicy: `findByIdAndUpdate` of content, version (again
   * "1.0" unless given) and updatedBy. An absent content is dropped from
   * the update; a given one must pass the length check. No save hook runs.
   */
  function UpdateRequest(ps: seq<PolicyDoc>, caller: Id, id: Id, content: Option<string>, version: Option<string>): (c: Changed)
    ensures c.r == Fail(Invalid) <==> content.Some? && !ContentValid(content.value)
    ensures c.r.Fail? ==> c.after == ps && (c.r.failure == Invalid || c.r.failure == NotFound)
    ensures c.r.Ok? ==> IndexOf(ps, id).Some? && var k := IndexOf(ps, id).value;
      && c.r.value.id == id && c.r.value.updatedBy == caller && c.r.value.isActive == ps[k].isActive
      && c.r.value.content == (if content.Some? then content.value else ps[k].content)
      && |c.after| == |ps| && c.after[k] == c.r.value
      && forall i :: 0 <= i < |ps| && i != k ==> c.after[i] == ps[i]
  {
    if content.Some? && !ContentValid(content.value) then Changed(Fail(Invalid), ps)
    else match IndexOf(ps, id)
      case None => Changed(Fail(NotFound), ps)
      case Some(k) =>
        var d := ps[k].(content := Or(content, ps[k].content), version := StrOr(version, "1.0"), updatedBy := caller);
        Changed(Ok(d), ps[k := d])
  }

  /** activatePrivacyPolicy: set the flag and save; the hook runs only if the flag was off. */
  function ActivateRequest(ps: seq<PolicyDoc>, id: Id): (c: Changed)
    ensures c.r.Fail? <==> IndexOf(ps, id).None?
    ensures c.r.Fail? ==> c.r.failure == NotFound && c.after == ps
    ensures c.r.Ok? ==> (
      && c.r.value == ps[IndexOf(ps, id).value].(isActive := true)
      && |c.after| == |ps| && c.after[IndexOf(ps, id).value] == c.r.value)
  {
    match IndexOf(ps, id)
    case None => Changed(Fail(NotFound), ps)
    case Some(k) =>
      var d := ps[k].(isActive := true);
      Changed(Ok(d), Hooked(ps, d, !ps[k].isActive)[k := d])
  }

  /** deletePrivacyPolicy: the active policy is refused. */
  function DeleteRequest(ps: seq<PolicyDoc>, id: Id): (r: (Outcome, seq<PolicyDoc>))
    ensures r.0 == Failed(NotFound) <==> IndexOf(ps, id).None?
    ensures r.0 == Failed(BadRequest) <==> IndexOf(ps, id).Some? && ps[IndexOf(ps, id).value].isActive
    ensures r.0.Failed? ==> r.1 == ps
    ensures r.0.Done? ==> IndexOf(ps, id).Some? && var k := IndexOf(ps, id).value;
      && !ps[k].isActive && |r.1| == |ps| - 1
      && forall i :: 0 <= i < |ps| && i != k ==> ps[i] in r.1
  {
    match IndexOf(ps, id)
    case None => (Failed(NotFound), ps)
    case Some(k) =>
      if ps[k].isActive then (Failed(BadRequest), ps)
      else (Done, RemoveAt(ps, k))
  }

  class PolicyStore {
    var policies: seq<PolicyDoc>
    var nextId: Id

    /** Ids are distinct and below the counter, and every stored policy passed the schema. */
    ghost predicate Valid()
      reads this
    {
      && DistinctIds(policies)
      && (forall i :: 0 <= i < |policies| ==> policies[i].id < nextId)
      && (forall i :: 0 <= i < |policies| ==> PolicyValid(policies[i]))
    }

    constructor ()
      ensures policies == [] && nextId == 0 && Valid()
    {
      policies := [];
      nextId := 0;
    }

    /** `create(d)` with the next id: the hook, then the insert. */
    method Create(d: PolicyDoc)
      requires Valid() && d.id == nextId && PolicyValid(d)
      modifies this
      ensures Valid() && nextId == old(nextId) + 1
      ensures policies == Hooked(old(policies), d, d.isActive) + [d]
    {
      if d.isActive {
        policies := DeactivateOthers(policies, d.id);
      }
      policies := policies + [d];
      nextId := nextId + 1;
    }

    /** `doc.save()` on the k-th policy. */
    method Save(k: nat, d: PolicyDoc, activeModified: bool)
      requires Valid() && k < |policies| && d.id == policies[k].id && PolicyValid(d)
      modifies this
      ensures Valid() && nextId == old(nextId)
      ensures policies == Hooked(old(policies), d, activeModified)[k := d]
    {
      if d.isActive && activeModified {
        policies := DeactivateOthers(policies, d.id);
      }
      policies := policies[k := d];
    }

    /** `findByIdAndUpdate` on the k-th policy, which bypasses the save hook. */
    method Put(k: nat, d: PolicyDoc)
      requires Valid() && k < |policies| && d.id == policies[k].id && PolicyValid(d)
      modifies this
      ensures Valid() && nextId == old(nextId)
      ensures policies == old(policies)[k := d]
    {
      policies := policies[k := d];
    }

    /** `findByIdAndDelete` of the k-th policy. */
    method Delete(k: nat)
      requires Valid() && k < |policies|
      modifies this
      ensures Valid() && nextId == old(nextId)
      ensures policies == RemoveAt(old(policies), k)
    {
      policies := RemoveAt(policies, k);
    }
  }

  method CreatePrivacyPolicy(store: PolicyStore, caller: Id, content: Option<string>, version: Option<string>, now: Time) returns (r: Result<PolicyDoc>)
    requires store.Valid()
    modifies store
    ensures store.Valid()
    ensures Changed(r, store.policies) == CreateRequest(old(store.policies), old(store.nextId), caller, content, version, now)
  {
    var d := PolicyDoc(store.nextId, ContentOf(content), StrOr(version, "1.0"), caller, true, now);
    if !PolicyValid(d) {
      return Fail(Invalid);
    }
    store.Create(d);
    r := Ok(d);
  }

  method UpdatePrivacyPolicy(store: PolicyStore, caller: Id, id: Id, content: Option<string>, version: Option<string>) returns (r: Result<PolicyDoc>)
    requires store.Valid()
    modifies store
    ensures store.Valid() && store.nextId == old(store.nextId)
    ensures Changed(r, store.policies) == UpdateRequest(old(store.policies), caller, id, content, version)
  {
    if content.Some? && !ContentValid(content.value) {
      return Fail(Invalid);
    }
    var k := IndexOf(store.policies, id);
    if k.None? {
      return Fail(NotFound);
    }
    var p := store.policies[k.value];
    var d := p.(content := Or(content, p.content), version := StrOr(version, "1.0"), updatedBy := caller);
    store.Put(k.value, d);
    r := Ok(d);
  }

  method ActivatePrivacyPolicy(store: PolicyStore, id: Id) returns (r: Result<PolicyDoc>)
    requires store.Valid()
    modifies store
    ensures store.Valid() && store.nextId == old(store.nextId)
    ensures Changed(r, store.policies) == ActivateRequest(old(store.policies), id)
  {
    var k := IndexOf(store.policies, id);
    if k.None? {
      return Fail(NotFound);
    }
    var d := store.policies[k.value].(isActive := true);
    store.Save(k.value, d, !store.policies[k.value].isActive);
    r := Ok(d);
  }

  method DeletePrivacyPolicy(store: PolicyStore, id: Id) returns (r: Outcome)
    requires store.Valid()
    modifies store
    ensures store.Valid() && store.nextId == old(store.nextId)
    ensures (r, store.policies) == DeleteRequest(old(store.policies), id)
  {
    var k := IndexOf(store.policies, id);
    if k.None? {
      return Failed(NotFound);
    }
    if store.policies[k.value].isActive {
      return Failed(BadRequest);
    }
    store.Delete(k.value);
    r := Done;
  }

  /** When only one policy is active, the public read returns that one. */
  lemma GetOnlyActive(ps: seq<PolicyDoc>, k: nat)
    requires OneActive(ps) && k < |ps| && ps[k].isActive
    ensures GetRequest(ps) == Ok(ps[k])
  {
  }

  /** The public read fails exactly when no policy is active. */
  lemma GetRules(ps: seq<PolicyDoc>)
    ensures GetRequest(ps).Fail? <==> forall k :: 0 <= k < |ps| ==> !ps[k].isActive
    ensures GetRequest(ps).Fail? ==> GetRequest(ps).failure == NotFound
    ensures GetRequest(ps).Ok? ==> GetRequest(ps).value in ps && GetRequest(ps).value.isActive
  {
  }

  /** The admin list holds every policy, newest first. */
  lemma AllPoliciesRules(ps: seq<PolicyDoc>)
    ensures var l := AllPolicies(ps);
      && |l| == |ps|
      && (forall p :: p in l <==> p in ps)
      && (forall i, j :: 0 <= i < j < |l| ==> l[i].createdAt >= l[j].createdAt)
  {
    SortDescMembers(ps, CreatedAt);
    var l := AllPolicies(ps);
    forall i, j | 0 <= i < j < |l|
      ensures l[i].createdAt >= l[j].createdAt
    {
      assert CreatedAt(l[i]) >= CreatedAt(l[j]);
    }
  }

  /**
   * A created policy needs given content of at least 100 characters; it is
   * stored last, active, with version "1.0" unless one is given, and it
   * becomes the only active policy, the public one.
   */
  lemma CreateRules(ps: seq<PolicyDoc>, next: Id, caller: Id, content: Option<string>, version: Option<string>, now: Time)
    requires forall i :: 0 <= i < |ps| ==> ps[i].id < next
    ensures var c := CreateRequest(ps, next, caller, content, version, now);
      && (c.r.Ok? <==> content.Some? && |content.value| >= 100)
      && (c.r.Fail? ==> c.r.failure == Invalid && c.after == ps)
      && (c.r.Ok? ==>
            && c.r.value == PolicyDoc(next, content.value, if version.Some? && version.value != "" then version.value else "1.0", caller, true, now)
            && |c.after| == |ps| + 1 && c.after[|ps|] == c.r.value
            && (forall i :: 0 <= i < |ps| ==> c.after[i] == ps[i].(isActive := false))
            && OneActive(c.after)
            && GetRequest(c.after) == c.r)
  {
    var c := CreateRequest(ps, next, caller, content, version, now);
    if c.r.Ok? {
      GetOnlyActive(c.after, |ps|);
    }
  }

  /**
   * Activating a policy makes it the public one and the only active one;
   * nothing else about any policy changes.
   */
  lemma ActivateRules(ps: seq<PolicyDoc>, id: Id)
    requires DistinctIds(ps) && OneActive(ps)
    ensures var c := ActivateRequest(ps, id);
      && (c.r.Fail? <==> IndexOf(ps, id).None?)
      && (c.r.Fail? ==> c.r.failure == NotFound && c.after == ps)
      && (c.r.Ok? ==> var k := IndexOf(ps, id).value;
            && c.r.value == ps[k].(isActive := true)
            && |c.after| == |ps|
            && (forall i :: 0 <= i < |ps| ==> c.after[i] == (if i == k then c.r.value else ps[i].(isActive := false)))
            && OneActive(c.after)
            && GetRequest(c.after) == c.r)
  {
    match IndexOf(ps, id)
    case None =>
    case Some(k) =>
      var d := ps[k].(isActive := true);
      HookKeepsOneActive(ps, k, d, !ps[k].isActive);
      var after := Hooked(ps, d, !ps[k].isActive)[k := d];
      if ps[k].isActive {
        assert forall i :: 0 <= i < |ps| && i != k ==> !ps[i].isActive;
        assert forall i :: 0 <= i < |ps| ==> after[i] == (if i == k then d else ps[i].(isActive := false));
      }
      GetOnlyActive(after, k);
  }

  /** An update never changes which policies are active, and touches only the one policy. */
  lemma UpdateRules(ps: seq<PolicyDoc>, caller: Id, id: Id, content: Option<string>, version: Option<string>)
    ensures var c := UpdateRequest(ps, caller, id, content, version);
      && |c.after| == |ps|
      && (forall i :: 0 <= i < |ps| ==> c.after[i].isActive == ps[i].isActive && c.after[i].id == ps[i].id && c.after[i].createdAt == ps[i].createdAt)
      && (c.r.Fail? ==> c.after == ps)
      && (c.r.Fail? && c.r.failure == NotFound <==> (content.None? || ContentValid(content.value)) && IndexOf(ps, id).None?)
      && (c.r.Ok? ==> var k := IndexOf(ps, id).value;
            && c.after == ps[k := c.r.value]
            && c.r.value.content == (if content.Some? then content.value else ps[k].content)
            && c.r.value.version == StrOr(version, "1.0") && c.r.value.updatedBy == caller)
      && OneActive(c.after) == OneActive(ps)
  {
  }

  /** The active policy cannot be deleted; any other policy is removed and nothing else is. */
  lemma DeleteRules(ps: seq<PolicyDoc>, id: Id)
    ensures var (r, after) := DeleteRequest(ps, id);
      && (r == Failed(NotFound) <==> IndexOf(ps, id).None?)
      && (r == Failed(BadRequest) <==> IndexOf(ps, id).Some? && ps[IndexOf(ps, id).value].isActive)
      && (r.Failed? ==> after == ps)
      && (r.Done? ==> after == ps[..IndexOf(ps, id).value] + ps[IndexOf(ps, id).value + 1..])
  {
  }

  /** Deleting an inactive policy keeps the public policy as it was. */
  lemma DeleteKeepsPublic(ps: seq<PolicyDoc>, k: nat)
    requires k < |ps| && !ps[k].isActive
    ensures GetRequest(RemoveAt(ps, k)) == GetRequest(ps)
  {
    var after := RemoveAt(ps, k);
    match ActiveIndex(ps)
    case None =>
      forall i | 0 <= i < |after|
        ensures !after[i].isActive
      {
        assert after[i] == ps[if i < k then i else i + 1];
      }
      assert ActiveIndex(after).None?;
    case Some(j) =>
      var j' := if j < k then j else j - 1;
      assert after[j'] == ps[j];
      forall i | 0 <= i < j'
        ensures !after[i].isActive
      {
        assert after[i] == ps[if i < k then i else i + 1];
      }
      var a := ActiveIndex(after);
      assert a.Some? && a.value == j' by {
        assert after[j'].isActive;
      }
  }

  /** Deleting keeps at most one policy active and leaves the public policy in place. */
  lemma DeleteKeepsOneActive(ps: seq<PolicyDoc>, id: Id)
    ensures var (r, after) := DeleteRequest(ps, id);
      && (OneActive(ps) ==> OneActive(after))
      && GetRequest(after) == GetRequest(ps)
  {
    match IndexOf(ps, id)
    case None =>
    case Some(k) =>
      if !ps[k].isActive {
        DeleteKeepsPublic(ps, k);
        if OneActive(ps) {
          RemoveAtKeepsOneActive(ps, k);
        }
      }
  }

  /** Removing one policy from a list with at most one active policy leaves at most one. */
  lemma RemoveAtKeepsOneActive(ps: seq<PolicyDoc>, k: nat)
    requires k < |ps| && OneActive(ps)
    ensures OneActive(RemoveAt(ps, k))
  {
    var after := RemoveAt(ps, k);
    forall i, j | 0 <= i < |after| && 0 <= j < |after| && after[i].isActive && after[j].isActive
      ensures i == j
    {
      var i' := if i < k then i else i + 1;
      var j' := if j < k then j else j + 1;
      assert ps[i'].isActive && ps[j'].isActive;
    }
  }
}
