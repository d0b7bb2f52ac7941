/**
 * Sales targets: a seller sets a monthly or yearly revenue target (which
 * retires the seller's active ones), reads the active target with the
 * revenue made inside its window, and the admin lists every active target
 * with its progress.
 */
module SalesTargetAdmin {
  import opened Base
  import opened Listing
  import opened OrderModel
  import opened SalesTargetModel
  import opened StatsController

  /** The current month's and year's windows, read from the clock: the first day up to the last day at midnight. */
  datatype TargetWindows = TargetWindows(monthStart: Time, monthEnd: Time, yearStart: Time, yearEnd: Time)

  datatype Saved = Saved(r: Result<TargetDoc>, after: seq<TargetDoc>)

  /** `updateMany({ seller, isActive: true }, { isActive: false })`. */
  function Retire(ts: seq<TargetDoc>, s: Id): (r: seq<TargetDoc>)
    ensures |r| == |ts|
    ensures forall i :: 0 <= i < |ts| ==> r[i] == (if ts[i].seller == s && ts[i].isActive then ts[i].(isActive := false) else ts[i])
  {
    seq(|ts|, i requires 0 <= i < |ts| => if ts[i].seller == s && ts[i].isActive then ts[i].(isActive := false) else ts[i])
  }

  /**
   * setSellerSalesTarget: no seller profile is 404; a missing or zero
   * amount, a missing or empty period, and a period other than `monthly`
   * or `yearly` are 400. Otherwise the seller's active targets are retired
   * first, and then the new target is created with the current window;
   * the schema refuses a negative amount after the retirement has been
   * written.
   */
  function SetTargetRequest(ts: seq<TargetDoc>, next: Id, seller: Option<Id>, amount: Option<int>, period: Option<string>,
                            w: TargetWindows): (s: Saved)
    ensures seller.None? ==> s.r == Fail(NotFound)
    ensures seller.Some? && (amount.None? || amount.value == 0 || period.None? || period.value !in {"monthly", "yearly"}) ==>
      s.r == Fail(BadRequest)
    ensures s.r == Fail(NotFound) || s.r == Fail(BadRequest) ==> s.after == ts
    ensures s.r == Fail(Invalid) ==> seller.Some? && s.after == Retire(ts, seller.value)
    ensures s.r.Ok? ==> (
      && seller.Some? && amount.Some? && period.Some?
      && s.r.value == TargetDoc(next, seller.value, amount.value, period.value, s.r.value.startDate, s.r.value.endDate, true)
      && TargetValid(s.r.value)
      && s.after == Retire(ts, seller.value) + [s.r.value])
  {
    if seller.None? then Saved(Fail(NotFound), ts)
    else if amount.None? || amount.value == 0 || period.None? || period.value == "" then Saved(Fail(BadRequest), ts)
    else if period.value != "monthly" && period.value != "yearly" then Saved(Fail(BadRequest), ts)
    else
      var monthly := period.value == "monthly";
      var d := TargetDoc(next, seller.value, amount.value, period.value,
                         if monthly then w.monthStart else w.yearStart,
                         if monthly then w.monthEnd else w.yearEnd, true);
      var retired := Retire(ts, seller.value);
      if !TargetValid(d) then Saved(Fail(Invalid), retired)
      else Saved(Ok(d), retired + [d])
  }

  predicate DistinctIds(ts: seq<TargetDoc>) {
    forall i, j :: 0 <= i < j < |ts| ==> ts[i].id != ts[j].id
  }

  /** The sales-target collection, with ids drawn from a counter. */
  class TargetStore {
    var targets: seq<TargetDoc>
    var nextId: Id

    ghost predicate Valid()
      reads this
    {
      DistinctIds(targets) && forall i :: 0 <= i < |targets| ==> targets[i].id < nextId
    }

    constructor ()
      ensures targets == [] && nextId == 0 && Valid()
    {
      targets := [];
      nextId := 0;
    }

    method RetireSeller(s: Id)
      requires Valid()
      modifies this
      ensures Valid() && nextId == old(nextId)
      ensures targets == Retire(old(targets), s)
    {
      targets := Retire(targets, s);
    }

    method Create(d: TargetDoc)
      requires Valid() && d.id == nextId
      modifies this
      ensures Valid() && nextId == old(nextId) + 1
      ensures targets == old(targets) + [d]
    {
      targets := targets + [d];
      nextId := nextId + 1;
    }
  }

  method SetSellerSalesTarget(store: TargetStore, seller: Option<Id>, amount: Option<int>, period: Option<string>,
                              w: TargetWindows) returns (r: Result<TargetDoc>)
    requires store.Valid()
    modifies store
    ensures store.Valid()
    ensures Saved(r, store.targets) == SetTargetRequest(old(store.targets), old(store.nextId), seller, amount, period, w)
  {
    if seller.None? {
      return Fail(NotFound);
    }
    if amount.None? || amount.value == 0 || period.None? || period.value == "" {
      return Fail(BadRequest);
    }
    var p := period.value;
    var start, end;
    if p == "monthly" {
      start, end := w.monthStart, w.monthEnd;
    } else if p == "yearly" {
      start, end := w.yearStart, w.yearEnd;
    } else {
      return Fail(BadRequest);
    }
    store.RetireSeller(seller.value);
    var d := TargetDoc(store.nextId, seller.value, amount.value, p, start, end, true);
    if !TargetValid(d) {
      return Fail(Invalid);
    }
    store.Create(d);
    r := Ok(d);
  }

  /**
   * Setting a target: refused requests change nothing; a stored target is
   * the seller's only active one, with a positive amount; a negative amount
   * is refused after the seller's targets were retired, so the seller is
   * left with none active; no other seller's target changes.
   */
  lemma SetTargetRules(ts: seq<TargetDoc>, next: Id, seller: Option<Id>, amount: Option<int>, period: Option<string>, w: TargetWindows)
    ensures var x := SetTargetRequest(ts, next, seller, amount, period, w);
      && (seller.None? ==> x.r == Fail(NotFound))
      && (x.r == Fail(NotFound) || x.r == Fail(BadRequest) ==> x.after == ts)
      && (seller.Some? && (amount.None? || amount == Some(0) || period.None? || period == Some("")) ==> x.r == Fail(BadRequest))
      && (x.r.Ok? ==> && x.r.value.seller == seller.value && x.r.value.targetAmount > 0
                      && x.r.value.period in TargetPeriods && x.r.value.isActive
                      && x.after[|x.after| - 1] == x.r.value
                      && forall i :: 0 <= i < |x.after| - 1 ==> !(x.after[i].seller == seller.value && x.after[i].isActive))
      && (x.r == Fail(Invalid) ==> forall i :: 0 <= i < |x.after| ==> !(x.after[i].seller == seller.value && x.after[i].isActive))
      && (seller.Some? && amount.Some? && amount.value < 0 && period.Some? && period.value in TargetPeriods ==> x.r == Fail(Invalid))
      && (forall i :: 0 <= i < |ts| && seller.Some? && ts[i].seller != seller.value ==> x.after[i] == ts[i])
      && |ts| <= |x.after|
  {
  }

  /** The seller's active target and the progress made in its window. */
  datatype TargetReport = TargetReport(target: TargetDoc, currentRevenue: int, progress: Option<real>)

  /** `(revenue / amount) * 100` rounded to two places; a zero amount gives no finite number (JSON null). */
  function Progress(revenue: int, amount: int): (r: Option<real>)
    ensures r.None? <==> amount == 0
    ensures r.Some? ==> var exact := revenue as real / amount as real * 100.0; exact - 0.005 < r.value <= exact + 0.005
  {
    if amount == 0 then None else Some(Rounded(revenue as real / amount as real * 100.0))
  }

  /** The seller's revenue from live orders created inside the target's window. */
  function TargetRevenue(orders: seq<OrderDoc>, t: TargetDoc, created: OrderDoc -> int): int {
    Revenue(SellerMatch(orders, t.seller, Within(t.startDate, t.endDate, created)), t.seller)
  }

  function ReportOf(orders: seq<OrderDoc>, t: TargetDoc, created: OrderDoc -> int): TargetReport {
    var rev := TargetRevenue(orders, t, created);
    TargetReport(t, rev, Progress(rev, t.targetAmount))
  }

  function ActiveOf(s: Id): TargetDoc -> bool {
    (t: TargetDoc) => t.seller == s && t.isActive
  }

  /** getSellerSalesTarget: 404 without a profile, no data without an active target, else the first active one in storage order. */
  function GetTargetRequest(ts: seq<TargetDoc>, orders: seq<OrderDoc>, seller: Option<Id>, created: OrderDoc -> int): (r: Result<Option<TargetReport>>)
    ensures r.Fail? <==> seller.None?
    ensures r.Fail? ==> r.failure == NotFound
    ensures r == Ok(None) <==> seller.Some? && forall k :: 0 <= k < |ts| ==> !(ts[k].seller == seller.value && ts[k].isActive)
    ensures r.Ok? && r.value.Some? ==> (
      && r.value.value.target in ts && r.value.value.target.seller == seller.value && r.value.value.target.isActive
      && r.value.value.currentRevenue == TargetRevenue(orders, r.value.value.target, created))
  {
    if seller.None? then Fail(NotFound)
    else
      var k := FirstIndex(ts, ActiveOf(seller.value));
      if k.None? then Ok(None) else Ok(Some(ReportOf(orders, ts[k.value], created)))
  }

  method GetSellerSalesTarget(ts: seq<TargetDoc>, orders: seq<OrderDoc>, seller: Option<Id>, created: OrderDoc -> int)
    returns (r: Result<Option<TargetReport>>)
    ensures r == GetTargetRequest(ts, orders, seller, created)
  {
    if seller.None? {
      return Fail(NotFound);
    }
    var k := FirstIndex(ts, ActiveOf(seller.value));
    if k.None? {
      return Ok(None);
    }
    var t := ts[k.value];
    var revenue, _ := SellerTotals(SellerMatch(orders, t.seller, Within(t.startDate, t.endDate, created)), t.seller);
    r := Ok(Some(TargetReport(t, revenue, Progress(revenue, t.targetAmount))));
  }

  /** The progress is the percentage of the amount reached, to within half a hundredth. */
  lemma ProgressClose(revenue: int, amount: int)
    requires amount != 0
    ensures var x := revenue as real / amount as real * 100.0;
      Progress(revenue, amount).Some? && x - 0.005 < Progress(revenue, amount).value <= x + 0.005
  {
  }

  /**
   * The report is about an active target of the seller, and the one
   * reported is the first such in storage order; there is none exactly
   * when the seller has no active target.
   */
  lemma GetTargetRules(ts: seq<TargetDoc>, orders: seq<OrderDoc>, s: Id, created: OrderDoc -> int)
    ensures var r := GetTargetRequest(ts, orders, Some(s), created);
      && r.Ok?
      && (r.value.None? <==> forall i :: 0 <= i < |ts| ==> !(ts[i].seller == s && ts[i].isActive))
      && (r.value.Some? ==> var t := r.value.value.target;
           t in ts && t.seller == s && t.isActive
           && r.value.value.currentRevenue == Revenue(Filter(orders, Within(t.startDate, t.endDate, created)), s))
  {
    var r := GetTargetRequest(ts, orders, Some(s), created);
    if r.value.Some? {
      var t := r.value.value.target;
      RevenueIgnoresMatch(Filter(orders, Within(t.startDate, t.endDate, created)), s);
    }
  }

  /** After a target is stored, reading the seller's target reports that new target. */
  lemma SetThenGet(ts: seq<TargetDoc>, next: Id, s: Id, amount: Option<int>, period: Option<string>, w: TargetWindows,
                   orders: seq<OrderDoc>, created: OrderDoc -> int)
    ensures var x := SetTargetRequest(ts, next, Some(s), amount, period, w);
      x.r.Ok? ==> GetTargetRequest(x.after, orders, Some(s), created) == Ok(Some(ReportOf(orders, x.r.value, created)))
  {
    var x := SetTargetRequest(ts, next, Some(s), amount, period, w);
    if x.r.Ok? {
      SetTargetRules(ts, next, Some(s), amount, period, w);
      var k := FirstIndex(x.after, ActiveOf(s));
      assert ActiveOf(s)(x.after[|x.after| - 1]);
    }
  }

  /**
   * getAdminAllSalesTargets: every active target in storage order with its
   * seller's revenue in its window. A target whose seller no longer exists
   * makes the handler fail (its populated seller is null).
   */
  function AllTargetsOf(ts: seq<TargetDoc>, orders: seq<OrderDoc>, sellers: set<Id>, created: OrderDoc -> int): (r: Result<seq<TargetReport>>)
    ensures r.Fail? ==> r.failure == ServerError
    ensures r.Ok? ==> |r.value| == Count(ts, IsActive)
    ensures r.Ok? ==> forall k :: 0 <= k < |r.value| ==> r.value[k].target.isActive && r.value[k].target.seller in sellers
  {
    var active := Filter(ts, IsActive);
    assert forall i :: 0 <= i < |active| ==> active[i].isActive by {
      forall i | 0 <= i < |active|
        ensures active[i].isActive
      {
        assert active[i] in active;
      }
    }
    if exists i :: 0 <= i < |active| && active[i].seller !in sellers then Fail(ServerError)
    else Ok(seq(|active|, i requires 0 <= i < |active| => ReportOf(orders, active[i], created)))
  }

  predicate IsActive(t: TargetDoc) {
    t.isActive
  }

  /** The admin's list has one report per active target, each with that target's own seller revenue. */
  lemma AllTargetsRules(ts: seq<TargetDoc>, orders: seq<OrderDoc>, sellers: set<Id>, created: OrderDoc -> int)
    ensures var r := AllTargetsOf(ts, orders, sellers, created);
      && (r.Ok? <==> forall t :: t in ts && t.isActive ==> t.seller in sellers)
      && (r.Ok? ==> |r.value| == Count(ts, IsActive))
      && (r.Ok? ==> forall k :: 0 <= k < |r.value| ==>
           r.value[k].target in ts && r.value[k].target.isActive && r.value[k].currentRevenue == TargetRevenue(orders, r.value[k].target, created))
  {
    var active := Filter(ts, IsActive);
    if forall t :: t in ts && t.isActive ==> t.seller in sellers {
      forall i | 0 <= i < |active|
        ensures active[i].seller in sellers
      {
        assert active[i] in active;
      }
    } else {
      var t :| t in ts && t.isActive && t.seller !in sellers;
      assert t in active;
      var i :| 0 <= i < |active| && active[i] == t;
    }
    var r := AllTargetsOf(ts, orders, sellers, created);
    if r.Ok? {
      forall k | 0 <= k < |r.value|
        ensures r.value[k].target in ts && r.value[k].target.isActive
      {
        assert active[k] in active;
      }
    }
  }
}
