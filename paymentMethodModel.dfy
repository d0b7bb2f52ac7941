/**
 * A saved payment card: the schema's field checks and the pre-save hook
 * that keeps one default card per user by clearing `isDefault` on the
 * user's other cards.
 */
module PaymentMethodModel {
  import opened Base

  const Brands: set<string> := {"visa", "mastercard", "amex", "discover", "diners", "jcb"}

  datatype MethodDoc = MethodDoc(
    id: Id,
    user: Id,
    cardholderName: string,
    last4: string,
    brand: string,
    expiryMonth: int,
    expiryYear: int,
    isDefault: bool,
    token: string,
    isActive: bool,
    createdAt: Time)

  /** `/^\d{4}$/`. */
  predicate IsLast4(s: string) {
    |s| == 4 && IsDigits(s)
  }

  /**
   * The schema's checks in the year `year`: a name of at most 50
   * characters, four digits, a known brand (after lower-casing), a month in
   * 1..12, an expiry year from `year` to `year + 20`, and a token.
   */
  predicate MethodValid(m: MethodDoc, year: int) {
    && 0 < |m.cardholderName| <= 50
    && IsLast4(m.last4)
    && m.brand in Brands
    && 1 <= m.expiryMonth <= 12
    && year <= m.expiryYear <= year + 20
    && m.token != ""
  }

  /** `updateMany({ user, _id: { $ne: id } }, { isDefault: false })`, active or not. */
  function ClearOthers(ms: seq<MethodDoc>, user: Id, id: Id): (r: seq<MethodDoc>)
    ensures |r| == |ms|
    ensures forall i :: 0 <= i < |ms| ==> r[i] == (if ms[i].user == user && ms[i].id != id then ms[i].(isDefault := false) else ms[i])
  {
    seq(|ms|, i requires 0 <= i < |ms| => if ms[i].user == user && ms[i].id != id then ms[i].(isDefault := false) else ms[i])
  }

  /** The pre-save hook: only a save that turns `isDefault` on clears the user's other cards. */
  function Hooked(ms: seq<MethodDoc>, d: MethodDoc, defaultModified: bool): seq<MethodDoc> {
    if d.isDefault && defaultModified then ClearOthers(ms, d.user, d.id) else ms
  }

  /** The user has at most one default card. */
  predicate OneDefault(ms: seq<MethodDoc>, user: Id) {
    forall i, j :: 0 <= i < |ms| && 0 <= j < |ms| && ms[i].user == user && ms[j].user == user && ms[i].isDefault && ms[j].isDefault ==> i == j
  }

  /** No user has two default cards. */
  predicate OneDefaultEach(ms: seq<MethodDoc>) {
    forall i, j :: 0 <= i < |ms| && 0 <= j < |ms| && ms[i].user == ms[j].user && ms[i].isDefault && ms[j].isDefault ==> i == j
  }

  /** Ids are distinct. */
  predicate DistinctIds(ms: seq<MethodDoc>) {
    forall i, j :: 0 <= i < j < |ms| ==> ms[i].id != ms[j].id
  }

  /**
   * Saving the k-th card as a default, when that turns the flag on, leaves
   * it the user's only default; a save that does not touch the flag leaves
   * every other card as it was.
   */
  lemma HookKeepsOneDefault(ms: seq<MethodDoc>, k: nat, d: MethodDoc, defaultModified: bool)
    requires DistinctIds(ms) && k < |ms| && d.id == ms[k].id && d.user == ms[k].user
    ensures d.isDefault && defaultModified ==> OneDefault(Hooked(ms, d, defaultModified)[k := d], d.user)
    ensures !(d.isDefault && defaultModified) ==> Hooked(ms, d, defaultModified)[k := d] == ms[k := d]
  {
    if d.isDefault && defaultModified {
      var r := Hooked(ms, d, defaultModified)[k := d];
      assert forall i :: 0 <= i < |r| && i != k ==> ms[i].id != d.id;
    }
  }
}
