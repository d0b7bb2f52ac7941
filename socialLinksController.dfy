/**
 * The public read of the social links and the admin's update, which edits
 * the stored record in place or creates the first one.
 */
module SocialLinksController {
  import opened Base
  import opened Listing
  import opened SocialLinksModel

  /** The update body; each link may be absent. */
  datatype LinksBody = LinksBody(whatsapp: Option<string>, phone: Option<string>, instagram: Option<string>, facebook: Option<string>, twitter: Option<string>, website: Option<string>)

  /** What the public read shows: six strings. */
  datatype Shown = Shown(whatsapp: string, phone: string, instagram: string, facebook: string, twitter: string, website: string)

  function ShownOf(d: LinksDoc): Shown {
    Shown(d.whatsapp, d.phone, d.instagram, d.facebook, d.twitter, d.website)
  }

  function CreatedAt(d: LinksDoc): int {
    d.createdAt
  }

  /** getSocialLinks: the newest record, or six empty strings when there is none. */
  function GetRequest(ls: seq<LinksDoc>): (r: Shown)
    ensures |ls| == 0 ==> r == Shown("", "", "", "", "", "")
    ensures |ls| > 0 ==> exists k :: 0 <= k < |ls| && r == ShownOf(ls[k]) && forall i :: 0 <= i < |ls| ==> ls[i].createdAt <= ls[k].createdAt
  {
    if |ls| == 0 then Shown("", "", "", "", "", "")
    else
      var d := SortDesc(ls, CreatedAt)[0];
      assert exists k :: 0 <= k < |ls| && d == ls[k] && forall i :: 0 <= i < |ls| ==> ls[i].createdAt <= ls[k].createdAt by {
        SortDescHead(ls, CreatedAt);
        var k :| 0 <= k < |ls| && ls[k] == d;
        assert forall i :: 0 <= i < |ls| ==> CreatedAt(ls[i]) <= CreatedAt(d);
      }
      ShownOf(d)
  }

  /** The existing record with each truthy value from the body written over it. */
  function Merged(d: LinksDoc, b: LinksBody, caller: Id): LinksDoc {
    d.(whatsapp := StrOr(b.whatsapp, d.whatsapp), phone := StrOr(b.phone, d.phone),
       instagram := StrOr(b.instagram, d.instagram), facebook := StrOr(b.facebook, d.facebook),
       twitter := StrOr(b.twitter, d.twitter), website := StrOr(b.website, d.website),
       updatedBy := Some(caller))
  }

  /** The first record, from the body with "" for every falsy value. */
  function Fresh(id: Id, b: LinksBody, caller: Id, now: Time): LinksDoc {
    LinksDoc(id, StrOr(b.whatsapp, ""), StrOr(b.phone, ""), StrOr(b.instagram, ""), StrOr(b.facebook, ""),
             StrOr(b.twitter, ""), StrOr(b.website, ""), Some(caller), now)
  }

  datatype Changed = Changed(r: Result<LinksDoc>, after: seq<LinksDoc>)

  /**
   * updateSocialLinks: `findOne({})` with no sort takes the first record in
   * storage order; the save or the create runs the validators.
   */
  function UpdateRequest(ls: seq<LinksDoc>, next: Id, b: LinksBody, caller: Id, now: Time): (c: Changed)
    ensures c.r.Fail? ==> c.r.failure == Invalid && c.after == ls
    ensures c.r.Ok? ==> (
      && LinksValid(c.r.value) && c.r.value.updatedBy == Some(caller)
      && |c.after| == (if |ls| > 0 then |ls| else 1) && c.after[0] == c.r.value
      && c.r.value.id == (if |ls| > 0 then ls[0].id else next)
      && forall i :: 1 <= i < |ls| ==> c.after[i] == ls[i])
    ensures var kept := if |ls| > 0 then ls[0] else LinksDoc(next, "", "", "", "", "", "", Some(caller), now);
      c.r.Ok? <==>
        && WhatsappOk(if Truthy(b.whatsapp) then b.whatsapp.value else kept.whatsapp)
        && PhoneOk(if Truthy(b.phone) then b.phone.value else kept.phone)
        && UrlOk(if Truthy(b.instagram) then b.instagram.value else kept.instagram)
        && UrlOk(if Truthy(b.facebook) then b.facebook.value else kept.facebook)
        && UrlOk(if Truthy(b.twitter) then b.twitter.value else kept.twitter)
        && UrlOk(if Truthy(b.website) then b.website.value else kept.website)
  {
    if |ls| > 0 then
      var d := Merged(ls[0], b, caller);
      if LinksValid(d) then Changed(Ok(d), ls[0 := d]) else Changed(Fail(Invalid), ls)
    else
      var d := Fresh(next, b, caller, now);
      if LinksValid(d) then Changed(Ok(d), [d]) else Changed(Fail(Invalid), ls)
  }

  class SocialLinksStore {
    var links: seq<LinksDoc>
    var nextId: Id

    constructor ()
      ensures links == [] && nextId == 0
    {
      links := [];
      nextId := 0;
    }

    /** Assigning the fields of the first record and saving it. */
    method SaveFirst(d: LinksDoc)
      requires |links| > 0
      modifies this
      ensures nextId == old(nextId)
      ensures links == old(links)[0 := d]
    {
      links := links[0 := d];
    }

    method Create(d: LinksDoc)
      modifies this
      ensures nextId == old(nextId) + 1
      ensures links == old(links) + [d]
    {
      links := links + [d];
      nextId := nextId + 1;
    }
  }

  method UpdateSocialLinks(store: SocialLinksStore, b: LinksBody, caller: Id, now: Time) returns (r: Result<LinksDoc>)
    modifies store
    ensures Changed(r, store.links) == UpdateRequest(old(store.links), old(store.nextId), b, caller, now)
  {
    if |store.links| > 0 {
      var d := Merged(store.links[0], b, caller);
      if !LinksValid(d) {
        return Fail(Invalid);
      }
      store.SaveFirst(d);
      r := Ok(d);
    } else {
      var d := Fresh(store.nextId, b, caller, now);
      if !LinksValid(d) {
        return Fail(Invalid);
      }
      store.Create(d);
      r := Ok(d);
    }
  }

  /**
   * On an existing record each link becomes the supplied value when that is
   * non-empty and keeps its old value otherwise, so no link can be cleared;
   * the editor is always the caller.
   */
  lemma UpdateKeepsOrReplaces(ls: seq<LinksDoc>, next: Id, b: LinksBody, caller: Id, now: Time)
    requires |ls| > 0
    ensures var c := UpdateRequest(ls, next, b, caller, now);
      c.r.Ok? ==>
        && c.r.value.updatedBy == Some(caller)
        && c.r.value.whatsapp == (if Truthy(b.whatsapp) then b.whatsapp.value else ls[0].whatsapp)
        && c.r.value.phone == (if Truthy(b.phone) then b.phone.value else ls[0].phone)
        && c.r.value.instagram == (if Truthy(b.instagram) then b.instagram.value else ls[0].instagram)
        && c.r.value.facebook == (if Truthy(b.facebook) then b.facebook.value else ls[0].facebook)
        && c.r.value.twitter == (if Truthy(b.twitter) then b.twitter.value else ls[0].twitter)
        && c.r.value.website == (if Truthy(b.website) then b.website.value else ls[0].website)
        && (ls[0].phone != "" ==> c.r.value.phone != "")
        && (ls[0].website != "" ==> c.r.value.website != "")
        && c.after == ls[0 := c.r.value] && c.r.value.id == ls[0].id
  {
  }

  /**
   * A record is created only when none exists, from the body with "" for
   * every absent value, edited by the caller.
   */
  lemma UpdateCreatesOnlyFirst(ls: seq<LinksDoc>, next: Id, b: LinksBody, caller: Id, now: Time)
    ensures var c := UpdateRequest(ls, next, b, caller, now);
      && (c.r.Ok? && |ls| == 0 ==> c.after == [c.r.value] && c.r.value.updatedBy == Some(caller) && c.r.value.id == next)
      && (|ls| > 0 ==> |c.after| == |ls|)
      && (c.r.Fail? ==> c.r.failure == Invalid && c.after == ls)
      && (|ls| == 0 && b == LinksBody(None, None, None, None, None, None) ==> c.r.Ok? && ShownOf(c.r.value) == Shown("", "", "", "", "", ""))
  {
    if |ls| == 0 {
      EmptyLinksValid(next, Some(caller), now);
    }
  }

  /**
   * Starting from at most one record, an update leaves at most one, and
   * after a successful update the public read shows what was saved.
   */
  lemma SingleRecord(ls: seq<LinksDoc>, next: Id, b: LinksBody, caller: Id, now: Time)
    requires |ls| <= 1
    ensures var c := UpdateRequest(ls, next, b, caller, now);
      && |c.after| <= 1
      && (c.r.Ok? ==> GetRequest(c.after) == ShownOf(c.r.value))
  {
    var c := UpdateRequest(ls, next, b, caller, now);
    if c.r.Ok? {
      assert c.after == [c.r.value];
      assert |SortDesc(c.after, CreatedAt)| == 1;
      assert SortDesc(c.after, CreatedAt)[0] in multiset(c.after);
    }
  }

  /** The empty store shows six empty strings; otherwise the newest record. */
  lemma GetRules(ls: seq<LinksDoc>)
    ensures |ls| == 0 ==> GetRequest(ls) == Shown("", "", "", "", "", "")
    ensures |ls| > 0 ==> exists d :: d in ls && GetRequest(ls) == ShownOf(d) && forall e :: e in ls ==> e.createdAt <= d.createdAt
  {
    if |ls| > 0 {
      var s := SortDesc(ls, CreatedAt);
      SortDescMembers(ls, CreatedAt);
      assert s[0] in s;
      forall e | e in ls
        ensures e.createdAt <= s[0].createdAt
      {
        assert e in s;
        var j :| 0 <= j < |s| && s[j] == e;
        if j > 0 {
          assert CreatedAt(s[0]) >= CreatedAt(s[j]);
        }
      }
    }
  }
}
