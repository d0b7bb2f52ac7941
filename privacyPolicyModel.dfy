/**
 * A privacy-policy version. Its pre-save hook keeps at most one policy
 * active: saving a policy whose `isActive` has just been turned on
 * deactivates every other policy.
 */
module PrivacyPolicyModel {
  import opened Base

  datatype PolicyDoc = PolicyDoc(id: Id, content: string, version: string, updatedBy: Id, isActive: bool, createdAt: Time)

  /** `content` is required and at least 100 characters long. */
  predicate ContentValid(c: string) {
    |c| >= 100
  }

  /** The schema's checks; `updatedBy` is always an id here. */
  predicate PolicyValid(p: PolicyDoc) {
    ContentValid(p.content) && p.version != ""
  }

  /** `updateMany({ _id: { $ne: id } }, { isActive: false })`. */
  function DeactivateOthers(ps: seq<PolicyDoc>, id: Id): (r: seq<PolicyDoc>)
    ensures |r| == |ps|
    ensures forall i :: 0 <= i < |ps| ==> r[i] == (if ps[i].id != id then ps[i].(isActive := false) else ps[i])
  {
    seq(|ps|, i requires 0 <= i < |ps| => if ps[i].id != id then ps[i].(isActive := false) else ps[i])
  }

  /** The pre-save hook: it runs only when the save turns `isActive` on. */
  function Hooked(ps: seq<PolicyDoc>, d: PolicyDoc, activeModified: bool): seq<PolicyDoc> {
    if d.isActive && activeModified then DeactivateOthers(ps, d.id) else ps
  }

  /** At most one policy is active. */
  predicate OneActive(ps: seq<PolicyDoc>) {
    forall i, j :: 0 <= i < |ps| && 0 <= j < |ps| && ps[i].isActive && ps[j].isActive ==> i == j
  }

  predicate DistinctIds(ps: seq<PolicyDoc>) {
    forall i, j :: 0 <= i < j < |ps| ==> ps[i].id != ps[j].id
  }

  /**
   * Saving the k-th policy with `isActive` turned on leaves it the only
   * active policy; a save that does not turn it on touches no other policy.
   */
  lemma HookKeepsOneActive(ps: seq<PolicyDoc>, k: nat, d: PolicyDoc, activeModified: bool)
    requires DistinctIds(ps) && k < |ps| && d.id == ps[k].id
    ensures d.isActive && activeModified ==> OneActive(Hooked(ps, d, activeModified)[k := d])
    ensures d.isActive && activeModified ==> var r := Hooked(ps, d, activeModified)[k := d]; forall i :: 0 <= i < |ps| && i != k ==> !r[i].isActive
    ensures !(d.isActive && activeModified) ==> Hooked(ps, d, activeModified)[k := d] == ps[k := d]
  {
    if d.isActive && activeModified {
      assert forall i :: 0 <= i < |ps| && i != k ==> ps[i].id != d.id;
    }
  }
}
