/**
 * The site's social links. Every field may be empty; a non-empty value
 * must look like a URL, a phone number, or (for WhatsApp) either.
 */
module SocialLinksModel {
  import opened Base

  datatype LinksDoc = LinksDoc(
    id: Id,
    whatsapp: string,
    phone: string,
    instagram: string,
    facebook: string,
    twitter: string,
    website: string,
    updatedBy: Option<Id>,
    createdAt: Time)

  /** The URL validators: empty, or `http://` / `https://` at the start; the rest is not checked. */
  predicate UrlOk(v: string) {
    v == "" || IsHttpUrl(v)
  }

  /** The phone validator: empty, or an optional "+" and one or more digits. */
  predicate PhoneOk(v: string) {
    v == "" || IsPhoneNumber(v)
  }

  /** The WhatsApp validator: empty, a URL, or a phone number. */
  predicate WhatsappOk(v: string) {
    v == "" || IsHttpUrl(v) || IsPhoneNumber(v)
  }

  predicate LinksValid(d: LinksDoc) {
    && WhatsappOk(d.whatsapp)
    && PhoneOk(d.phone)
    && UrlOk(d.instagram) && UrlOk(d.facebook) && UrlOk(d.twitter) && UrlOk(d.website)
  }

  /** A record of empty strings passes every validator. */
  lemma EmptyLinksValid(id: Id, editor: Option<Id>, at: Time)
    ensures LinksValid(LinksDoc(id, "", "", "", "", "", "", editor, at))
  {
  }

  /** Only the prefix of a URL is checked: anything may follow it. */
  lemma UrlPrefixOnly(rest: string)
    ensures UrlOk("https://" + rest) && UrlOk("http://" + rest)
  {
    assert ("https://" + rest)[..8] == "https://";
    assert ("http://" + rest)[..7] == "http://";
  }

  /** A phone number is a WhatsApp value, and a URL is not a phone number. */
  lemma PhoneRules(v: string)
    ensures PhoneOk(v) ==> WhatsappOk(v)
    ensures IsHttpUrl(v) ==> !IsPhoneNumber(v)
  {
    if IsHttpUrl(v) {
      assert v[0] == 'h';
      assert !IsDigit(v[0]);
    }
  }
}
