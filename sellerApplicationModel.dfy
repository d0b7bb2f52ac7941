/**
 * The seller application document and its schema: the applicant's form,
 * the review status and review fields, and the checks a save or a
 * validated update applies. `user` carries a unique index, so a user has at
 * most one application.
 */
module SellerApplicationModel {
  import opened Base

  const ApplicationStatuses: set<string> := {"pending", "approved", "declined", "under_review"}
  const BusinessTypes: set<string> := {"individual", "company", "partnership"}

  datatype BankInfo = BankInfo(accountHolderName: string, bankName: string, accountNumber: string, routingNumber: Option<string>)

  /** What the applicant fills in. */
  datatype Form = Form(
    firstName: string,
    lastName: string,
    businessName: string,
    businessType: string,
    businessCategory: string,
    businessDescription: string,
    phone: string,
    country: string,
    city: string,
    address: string,
    taxId: Option<string>,
    website: Option<string>,
    bank: BankInfo)

  datatype ApplicationDoc = ApplicationDoc(
    id: Id,
    user: Id,
    form: Form,
    status: string,
    reviewedBy: Option<Id>,
    reviewedAt: Option<Time>,
    approvalReason: Option<string>,
    declineReason: Option<string>,
    notes: Option<string>)

  /** The taxId validator `!v || v.length >= 5`. */
  predicate TaxIdValid(v: Option<string>) {
    v.None? || v.value == "" || |v.value| >= 5
  }

  /** The website validator: empty, or starting with "http://" or "https://". */
  predicate WebsiteValid(v: Option<string>) {
    v.None? || v.value == "" || IsHttpUrl(v.value)
  }

  /** `minlength`/`maxlength` of a required string: both bounds, and the empty string is missing. */
  predicate Sized(s: string, lo: nat, hi: nat) {
    0 < |s| && lo <= |s| <= hi
  }

  predicate AtMost(v: Option<string>, hi: nat) {
    v.None? || |v.value| <= hi
  }

  predicate FormValid(f: Form) {
    && Sized(f.firstName, 2, 30) && Sized(f.lastName, 2, 30)
    && Sized(f.businessName, 2, 100)
    && f.businessType in BusinessTypes
    && Sized(f.businessCategory, 1, 50)
    && Sized(f.businessDescription, 50, 1000)
    && |f.phone| > 0 && |f.country| > 0 && |f.city| > 0
    && Sized(f.address, 1, 200)
    && TaxIdValid(f.taxId) && WebsiteValid(f.website)
    && |f.bank.accountHolderName| > 0 && |f.bank.bankName| > 0 && |f.bank.accountNumber| > 0
  }

  /** Everything the schema checks when an application is saved. */
  predicate ApplicationValid(a: ApplicationDoc) {
    && FormValid(a.form)
    && a.status in ApplicationStatuses
    && AtMost(a.approvalReason, 500) && AtMost(a.declineReason, 500) && AtMost(a.notes, 1000)
  }

  /**
   * The two optional validators accept the empty value; a taxId of one to
   * four characters is refused and one of five is accepted; a website needs
   * one of the two schemes at its very start.
   */
  lemma OptionalValidators(v: string)
    ensures TaxIdValid(Some("")) && WebsiteValid(Some(""))
    ensures 0 < |v| < 5 ==> !TaxIdValid(Some(v))
    ensures TaxIdValid(Some("12345"))
    ensures WebsiteValid(Some("https://shop.example"))
    ensures !WebsiteValid(Some("ftp://shop.example")) && !WebsiteValid(Some("shop.example")) && !WebsiteValid(Some(" http://shop.example"))
  {
    assert "https://shop.example"[..8] == "https://";
    NotHttpUrl("ftp://shop.example");
    NotHttpUrl("shop.example");
    NotHttpUrl(" http://shop.example");
  }

  /** A new application made from a form: pending, never reviewed. */
  function NewApplication(id: Id, user: Id, f: Form, status: Option<string>): (a: ApplicationDoc)
    ensures a.user == user && a.form == f
    ensures status.None? ==> a.status == "pending"
    ensures a.reviewedBy.None? && a.reviewedAt.None?
  {
    ApplicationDoc(id, user, f, if status.Some? then status.value else "pending", None, None, None, None, None)
  }
}
