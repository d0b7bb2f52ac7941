/**
 * The seller and admin statistics: sales analytics over a period, province
 * counts from the customers' addresses, dashboard totals and the
 * best-selling products. The order queries (`$match`, `$project` with
 * `$filter`, `find`, `distinct`) are pure functions of the order
 * collection; the loops the handlers run over their results are methods
 * proved against the functions that define the totals.
 */
module StatsController {
  import opened Base
  import opened Listing
  import opened OrderModel
  import opened ProductModel

  // ---------------------------------------------------------------------
  // Queries
  // ---------------------------------------------------------------------

  /** `status: { $nin: ["cancelled"] }`: an order without a status matches too. */
  predicate NotCancelled(o: OrderDoc) {
    o.status != Some("cancelled")
  }

  /** `"items.seller": seller`: some line of the order belongs to the seller. */
  predicate HasSellerItem(o: OrderDoc, s: Id) {
    exists i :: 0 <= i < |o.items| && o.items[i].seller == Some(s)
  }

  function HasItemOf(s: Id): OrderDoc -> bool {
    (o: OrderDoc) => HasSellerItem(o, s)
  }

  function IsFrom(s: Id): OrderItem -> bool {
    (it: OrderItem) => it.seller == Some(s)
  }

  /** `createdAt: { $gte: start }` together with the status condition. */
  function Since(start: Time, created: OrderDoc -> int): OrderDoc -> bool {
    (o: OrderDoc) => created(o) >= start && NotCancelled(o)
  }

  /** `createdAt: { $gte: start, $lte: end }` together with the status condition. */
  function Within(start: Time, end: Time, created: OrderDoc -> int): OrderDoc -> bool {
    (o: OrderDoc) => start <= created(o) <= end && NotCancelled(o)
  }

  /** The orders matching `q` that hold an item of the seller (the conjunction of the `$match`, in collection order). */
  function SellerMatch(orders: seq<OrderDoc>, s: Id, q: OrderDoc -> bool): seq<OrderDoc> {
    Filter(Filter(orders, q), HasItemOf(s))
  }

  /** The `$project` stage: the order's lines that belong to the seller. */
  function SellerItems(o: OrderDoc, s: Id): seq<OrderItem> {
    Filter(o.items, IsFrom(s))
  }

  function LineTotal(it: OrderItem): int {
    it.price * it.quantity
  }

  function Quantity(it: OrderItem): int {
    it.quantity
  }

  /** Σ price × quantity over the seller's lines of the orders. */
  function Revenue(orders: seq<OrderDoc>, s: Id): int {
    if |orders| == 0 then 0
    else Revenue(orders[..|orders| - 1], s) + Sum(SellerItems(orders[|orders| - 1], s), LineTotal)
  }

  /** Σ quantity over the seller's lines of the orders. */
  function ItemsSold(orders: seq<OrderDoc>, s: Id): int {
    if |orders| == 0 then 0
    else ItemsSold(orders[..|orders| - 1], s) + Sum(SellerItems(orders[|orders| - 1], s), Quantity)
  }

  /** Σ quantity over every line of the orders. */
  function AllItems(orders: seq<OrderDoc>): int {
    if |orders| == 0 then 0
    else AllItems(orders[..|orders| - 1]) + Sum(orders[|orders| - 1].items, Quantity)
  }

  /** The distinct customers of the orders (`orderModel.distinct("customer", ...)`). */
  function Customers(orders: seq<OrderDoc>): set<Id> {
    set o | o in orders :: o.customer
  }

  /** The running totals over the projected orders: `totalRevenue += price * quantity; totalItems += quantity`. */
  method SellerTotals(orders: seq<OrderDoc>, s: Id) returns (revenue: int, items: int)
    ensures revenue == Revenue(orders, s)
    ensures items == ItemsSold(orders, s)
  {
    revenue, items := 0, 0;
    var i := 0;
    while i < |orders|
      invariant 0 <= i <= |orders|
      invariant revenue == Revenue(orders[..i], s)
      invariant items == ItemsSold(orders[..i], s)
    {
      var lines := SellerItems(orders[i], s);
      var r0, q0 := revenue, items;
      var j := 0;
      while j < |lines|
        invariant 0 <= j <= |lines|
        invariant revenue == r0 + Sum(lines[..j], LineTotal)
        invariant items == q0 + Sum(lines[..j], Quantity)
      {
        SumNext(lines, j, LineTotal);
        SumNext(lines, j, Quantity);
        revenue := revenue + lines[j].price * lines[j].quantity;
        items := items + lines[j].quantity;
        j := j + 1;
      }
      assert lines[..|lines|] == lines;
      assert orders[..i + 1][..i] == orders[..i];
      i := i + 1;
    }
    assert orders[..|orders|] == orders;
  }

  /** The admin loop: `totalRevenue += order.totalOrderPrice || 0`, and every line's quantity. */
  method OrderTotals(orders: seq<OrderDoc>) returns (revenue: real, items: int)
    ensures revenue == RealSum(orders)
    ensures items == AllItems(orders)
  {
    revenue, items := 0.0, 0;
    var i := 0;
    while i < |orders|
      invariant 0 <= i <= |orders|
      invariant revenue == RealSum(orders[..i])
      invariant items == AllItems(orders[..i])
    {
      var lines := orders[i].items;
      var q0 := items;
      revenue := revenue + orders[i].totalOrderPrice;
      var j := 0;
      while j < |lines|
        invariant 0 <= j <= |lines|
        invariant items == q0 + Sum(lines[..j], Quantity)
      {
        SumNext(lines, j, Quantity);
        items := items + lines[j].quantity;
        j := j + 1;
      }
      assert lines[..|lines|] == lines;
      assert orders[..i + 1][..i] == orders[..i];
      i := i + 1;
    }
    assert orders[..|orders|] == orders;
  }

  /** An order without a line of the seller projects to no lines. */
  lemma NoLinesOfOthers(o: OrderDoc, s: Id)
    requires !HasSellerItem(o, s)
    ensures SellerItems(o, s) == []
  {
    CountZero(o.items, IsFrom(s));
  }

  /** Revenue over a list ending in `o` adds o's projected lines. */
  lemma RevenueSnoc(os: seq<OrderDoc>, o: OrderDoc, s: Id)
    ensures Revenue(os + [o], s) == Revenue(os, s) + Sum(SellerItems(o, s), LineTotal)
    ensures ItemsSold(os + [o], s) == ItemsSold(os, s) + Sum(SellerItems(o, s), Quantity)
  {
    assert (os + [o])[..|os|] == os;
  }

  /**
   * The `"items.seller"` condition of the `$match` changes no total: an
   * order without a line of the seller adds nothing to the seller's sums.
   * It changes only the number of orders.
   */
  lemma {:induction false} RevenueIgnoresMatch(os: seq<OrderDoc>, s: Id)
    ensures Revenue(Filter(os, HasItemOf(s)), s) == Revenue(os, s)
    ensures ItemsSold(Filter(os, HasItemOf(s)), s) == ItemsSold(os, s)
  {
    if |os| > 0 {
      var init, o := os[..|os| - 1], os[|os| - 1];
      RevenueIgnoresMatch(init, s);
      var f := Filter(init, HasItemOf(s));
      if HasSellerItem(o, s) {
        RevenueSnoc(f, o, s);
      } else {
        NoLinesOfOthers(o, s);
        assert Filter(os, HasItemOf(s)) == f + [];
        assert f + [] == f;
      }
    }
  }

  /** Adding another seller's line to an order leaves the seller's totals as they were. */
  lemma {:induction false} RevenueIgnoresOthers(os: seq<OrderDoc>, k: nat, it: OrderItem, s: Id)
    requires k < |os| && it.seller != Some(s)
    ensures var os' := os[k := os[k].(items := os[k].items + [it])];
      Revenue(os', s) == Revenue(os, s) && ItemsSold(os', s) == ItemsSold(os, s)
  {
    var o := os[k];
    var o' := o.(items := o.items + [it]);
    var os' := os[k := o'];
    var n := |os| - 1;
    assert os == os[..n] + [os[n]] && os' == os'[..n] + [os'[n]];
    RevenueSnoc(os[..n], os[n], s);
    RevenueSnoc(os'[..n], os'[n], s);
    if k < n {
      RevenueIgnoresOthers(os[..n], k, it, s);
      assert os'[..n] == os[..n][k := o'];
    } else {
      assert (o.items + [it])[..|o.items|] == o.items;
      assert SellerItems(o', s) == SellerItems(o, s) + [];
      assert SellerItems(o, s) + [] == SellerItems(o, s);
      assert os[n] == o && os'[n] == o';
      assert os'[..n] == os[..n];
    }
  }

  // ---------------------------------------------------------------------
  // Sales analytics
  // ---------------------------------------------------------------------

  /** The starts of the current day, month and year, read from the clock. */
  datatype PeriodStarts = PeriodStarts(day: Time, month: Time, year: Time)

  /** `day`, `month` or `year`; anything else is refused. */
  function PeriodStart(period: string, w: PeriodStarts): (r: Option<Time>)
    ensures r.Some? <==> period in {"day", "month", "year"}
    ensures period == "day" ==> r == Some(w.day)
    ensures period == "month" ==> r == Some(w.month)
    ensures period == "year" ==> r == Some(w.year)
  {
    if period == "day" then Some(w.day)
    else if period == "month" then Some(w.month)
    else if period == "year" then Some(w.year)
    else None
  }

  /** `Math.round(x * 100) / 100`, on exact reals. */
  function Rounded(x: real): (r: real)
    ensures x - 0.005 < r <= x + 0.005
  {
    var k := Round(x * 100.0);
    assert x * 100.0 - 0.5 < k as real <= x * 100.0 + 0.5;
    k as real / 100.0
  }

  /** `count > 0 ? total / count : 0`, rounded to two places. */
  function Average(total: real, count: nat): real {
    if count > 0 then Rounded(total / count as real) else 0.0
  }

  datatype Analytics = Analytics(
    period: string,
    startDate: Time,
    totalOrders: nat,
    totalRevenue: real,
    totalItems: int,
    averageSaleValue: real,
    averageItemsPerSale: real)

  /** The numbers the analytics report about `n` orders with the given totals. */
  function Report(period: string, start: Time, n: nat, revenue: real, items: int): Analytics {
    Analytics(period, start, n, revenue, items, Average(revenue, n), Average(items as real, n))
  }

  /**
   * getSellerSalesAnalytics: no seller profile is 404; the period defaults
   * to `month` and an unknown one is 400; the orders since the period's
   * start, not cancelled, with a line of the seller, and the totals of the
   * seller's lines.
   */
  function SellerAnalyticsOf(orders: seq<OrderDoc>, seller: Option<Id>, period: Option<string>,
                             w: PeriodStarts, created: OrderDoc -> int): (r: Result<Analytics>)
    ensures seller.None? ==> r == Fail(NotFound)
    ensures seller.Some? ==> (r == Fail(BadRequest) <==> StrOr(period, "month") !in {"day", "month", "year"})
    ensures r.Ok? ==> r.value.period == StrOr(period, "month") && PeriodStart(r.value.period, w) == Some(r.value.startDate)
    ensures r.Ok? ==> r.value.totalOrders <= |orders|
  {
    if seller.None? then Fail(NotFound)
    else
      var p := StrOr(period, "month");
      var start := PeriodStart(p, w);
      if start.None? then Fail(BadRequest)
      else
        var m := SellerMatch(orders, seller.value, Since(start.value, created));
        Ok(Report(p, start.value, |m|, Revenue(m, seller.value) as real, ItemsSold(m, seller.value)))
  }

  method GetSellerSalesAnalytics(orders: seq<OrderDoc>, seller: Option<Id>, period: Option<string>,
                                 w: PeriodStarts, created: OrderDoc -> int) returns (r: Result<Analytics>)
    ensures r == SellerAnalyticsOf(orders, seller, period, w, created)
  {
    if seller.None? {
      return Fail(NotFound);
    }
    var p := StrOr(period, "month");
    var start := PeriodStart(p, w);
    if start.None? {
      return Fail(BadRequest);
    }
    var m := SellerMatch(orders, seller.value, Since(start.value, created));
    var revenue, items := SellerTotals(m, seller.value);
    r := Ok(Report(p, start.value, |m|, revenue as real, items));
  }

  /**
   * getAdminSalesAnalytics: every order since the period's start that is
   * not cancelled; revenue is the sum of the order totals, items the sum
   * of every line's quantity.
   */
  function AdminAnalyticsOf(orders: seq<OrderDoc>, period: Option<string>, w: PeriodStarts,
                            created: OrderDoc -> int): (r: Result<Analytics>)
    ensures r.Fail? ==> r == Fail(BadRequest)
    ensures r.Fail? <==> StrOr(period, "month") !in {"day", "month", "year"}
    ensures r.Ok? ==> r.value.period == StrOr(period, "month") && PeriodStart(r.value.period, w) == Some(r.value.startDate)
    ensures r.Ok? ==> r.value.totalOrders <= |orders|
  {
    var p := StrOr(period, "month");
    var start := PeriodStart(p, w);
    if start.None? then Fail(BadRequest)
    else
      var m := Filter(orders, Since(start.value, created));
      Ok(Report(p, start.value, |m|, RealSum(m), AllItems(m)))
  }

  method GetAdminSalesAnalytics(orders: seq<OrderDoc>, period: Option<string>, w: PeriodStarts,
                                created: OrderDoc -> int) returns (r: Result<Analytics>)
    ensures r == AdminAnalyticsOf(orders, period, w, created)
  {
    var p := StrOr(period, "month");
    var start := PeriodStart(p, w);
    if start.None? {
      return Fail(BadRequest);
    }
    var m := Filter(orders, Since(start.value, created));
    var revenue, items := OrderTotals(m);
    r := Ok(Report(p, start.value, |m|, revenue, items));
  }

  /** The report's averages are 0 for no orders and otherwise within half a cent of the exact ratios. */
  lemma ReportAverages(period: string, start: Time, n: nat, revenue: real, items: int)
    ensures var a := Report(period, start, n, revenue, items);
      && (n == 0 ==> a.averageSaleValue == 0.0 && a.averageItemsPerSale == 0.0)
      && (n > 0 ==> revenue / n as real - 0.005 < a.averageSaleValue <= revenue / n as real + 0.005)
      && (n > 0 ==> items as real / n as real - 0.005 < a.averageItemsPerSale <= items as real / n as real + 0.005)
  {
  }

  /**
   * The seller's analytics: 404 without a profile, 400 exactly for an
   * unknown period, and otherwise the seller's totals over every order of
   * the window, whether or not it has a line of the seller; with no order
   * everything is 0.
   */
  lemma SellerAnalyticsRules(orders: seq<OrderDoc>, seller: Option<Id>, period: Option<string>,
                             w: PeriodStarts, created: OrderDoc -> int)
    ensures var r := SellerAnalyticsOf(orders, seller, period, w, created);
      && (seller.None? ==> r == Fail(NotFound))
      && (seller.Some? ==> (r == Fail(BadRequest) <==> StrOr(period, "month") !in {"day", "month", "year"}))
      && (r.Ok? ==> r.value.period == StrOr(period, "month") && r.value.totalOrders <= |orders|)
      && (r.Ok? ==> var win := Filter(orders, Since(r.value.startDate, created));
           r.value.totalRevenue == Revenue(win, seller.value) as real && r.value.totalItems == ItemsSold(win, seller.value))
      && (r.Ok? && r.value.totalOrders == 0 ==>
           r.value.totalRevenue == 0.0 && r.value.totalItems == 0 && r.value.averageSaleValue == 0.0)
  {
    var r := SellerAnalyticsOf(orders, seller, period, w, created);
    if r.Ok? {
      var p := StrOr(period, "month");
      var start := PeriodStart(p, w).value;
      var win := Filter(orders, Since(start, created));
      var m := SellerMatch(orders, seller.value, Since(start, created));
      assert r.value == Report(p, start, |m|, Revenue(m, seller.value) as real, ItemsSold(m, seller.value));
      RevenueIgnoresMatch(win, seller.value);
      if |m| == 0 {
        assert m == [];
      }
    }
  }

  /** The admin's analytics: 400 exactly for an unknown period; otherwise every order of the window, cancelled ones excluded. */
  lemma AdminAnalyticsRules(orders: seq<OrderDoc>, period: Option<string>, w: PeriodStarts, created: OrderDoc -> int)
    ensures var r := AdminAnalyticsOf(orders, period, w, created);
      && (r == Fail(BadRequest) <==> StrOr(period, "month") !in {"day", "month", "year"})
      && (r.Ok? ==> r.value.totalOrders == Count(orders, Since(r.value.startDate, created)))
      && (r.Ok? ==> forall o :: o in orders && o.status == Some("cancelled") ==> o !in Filter(orders, Since(r.value.startDate, created)))
  {
  }

  // ---------------------------------------------------------------------
  // Dashboards
  // ---------------------------------------------------------------------

  datatype Dashboard = Dashboard(totalRevenue: real, totalCustomers: nat, totalTransactions: nat, totalProducts: nat)

  function Live(): OrderDoc -> bool {
    (o: OrderDoc) => NotCancelled(o)
  }

  function OwnedBy(s: Id): ProductDoc -> bool {
    (p: ProductDoc) => p.seller == Some(s)
  }

  /**
   * getSellerDashboardStats: the seller's revenue over the orders that are
   * not cancelled, the distinct customers over all the seller's orders
   * (cancelled ones included), the number of those live orders and the
   * seller's product count.
   */
  function SellerDashboardOf(orders: seq<OrderDoc>, products: seq<ProductDoc>, seller: Option<Id>): (r: Result<Dashboard>)
    ensures r.Fail? <==> seller.None?
    ensures r.Fail? ==> r.failure == NotFound
    ensures r.Ok? ==> r.value.totalTransactions <= |orders| && r.value.totalProducts <= |products|
  {
    if seller.None? then Fail(NotFound)
    else
      var s := seller.value;
      var m := SellerMatch(orders, s, Live());
      Ok(Dashboard(Revenue(m, s) as real, |Customers(Filter(orders, HasItemOf(s)))|, |m|, Count(products, OwnedBy(s))))
  }

  method GetSellerDashboardStats(orders: seq<OrderDoc>, products: seq<ProductDoc>, seller: Option<Id>) returns (r: Result<Dashboard>)
    ensures r == SellerDashboardOf(orders, products, seller)
  {
    if seller.None? {
      return Fail(NotFound);
    }
    var s := seller.value;
    var m := SellerMatch(orders, s, Live());
    var revenue, _ := SellerTotals(m, s);
    r := Ok(Dashboard(revenue as real, |Customers(Filter(orders, HasItemOf(s)))|, |m|, Count(products, OwnedBy(s))));
  }

  /** getAdminDashboardStats: the order totals of the live orders, the distinct customers of every order, all products. */
  function AdminDashboardOf(orders: seq<OrderDoc>, products: seq<ProductDoc>): (r: Dashboard)
    ensures r.totalProducts == |products|
    ensures r.totalTransactions == Count(orders, Live()) && r.totalTransactions <= |orders|
    ensures r.totalCustomers <= |orders| && (|orders| > 0 ==> r.totalCustomers > 0)
  {
    CustomersAtMost(orders);
    var m := Filter(orders, Live());
    Dashboard(RealSum(m), |Customers(orders)|, |m|, |products|)
  }

  method GetAdminDashboardStats(orders: seq<OrderDoc>, products: seq<ProductDoc>) returns (r: Dashboard)
    ensures r == AdminDashboardOf(orders, products)
  {
    var m := Filter(orders, Live());
    var revenue, _ := OrderTotals(m);
    r := Dashboard(revenue, |Customers(orders)|, |m|, |products|);
  }

  /** There are never more distinct customers than orders, and some order means some customer. */
  lemma {:induction false} CustomersAtMost(os: seq<OrderDoc>)
    ensures |Customers(os)| <= |os|
    ensures |os| > 0 ==> |Customers(os)| > 0
  {
    if |os| > 0 {
      var init := os[..|os| - 1];
      CustomersAtMost(init);
      assert os == init + [os[|os| - 1]];
      assert Customers(os) == Customers(init) + {os[|os| - 1].customer};
      assert os[|os| - 1].customer in Customers(os);
    }
  }

  /**
   * The seller's dashboard: the revenue is that of every live order; the
   * customer count is between 1 and the number of the seller's orders
   * whenever there is one, and counts customers whose only orders were
   * cancelled.
   */
  lemma SellerDashboardRules(orders: seq<OrderDoc>, products: seq<ProductDoc>, s: Id)
    ensures var d := SellerDashboardOf(orders, products, Some(s)).value;
      && d.totalRevenue == Revenue(Filter(orders, Live()), s) as real
      && d.totalTransactions <= Count(orders, HasItemOf(s))
      && d.totalCustomers <= Count(orders, HasItemOf(s))
      && (forall o :: o in orders && HasSellerItem(o, s) ==> o.customer in Customers(Filter(orders, HasItemOf(s))))
      && (Count(orders, HasItemOf(s)) > 0 ==> d.totalCustomers > 0)
      && d.totalProducts <= |products|
  {
    RevenueIgnoresMatch(Filter(orders, Live()), s);
    var all := Filter(orders, HasItemOf(s));
    CustomersAtMost(all);
    var m := SellerMatch(orders, s, Live());
    FilterBoth(orders, Live(), HasItemOf(s));
    forall o | o in orders && HasSellerItem(o, s)
      ensures o.customer in Customers(all)
    {
      assert o in all;
    }
  }

  /** Filtering by p before filtering by q keeps no more than filtering by q alone. */
  lemma {:induction false} FilterBoth<T(!new)>(s: seq<T>, p: T -> bool, q: T -> bool)
    ensures |Filter(Filter(s, p), q)| <= Count(s, q)
  {
    if |s| > 0 {
      var init, x := s[..|s| - 1], s[|s| - 1];
      FilterBoth(init, p, q);
      var f := Filter(init, p);
      if p(x) {
        assert (f + [x])[..|f|] == f;
      } else {
        assert f + [] == f;
      }
    }
  }

  /** The admin's dashboard counts every order's customer, the live orders' totals and every product. */
  lemma AdminDashboardRules(orders: seq<OrderDoc>, products: seq<ProductDoc>)
    ensures var d := AdminDashboardOf(orders, products);
      && d.totalCustomers <= |orders| && (|orders| > 0 ==> d.totalCustomers > 0)
      && d.totalTransactions == Count(orders, Live())
      && d.totalProducts == |products|
  {
    CustomersAtMost(orders);
  }

  // ---------------------------------------------------------------------
  // Province counts
  // ---------------------------------------------------------------------

  /** One entry of `Object.entries(provinceStats)`. */
  datatype ProvinceCount = ProvinceCount(province: string, count: int)

  function CountOf(e: ProvinceCount): int {
    e.count
  }

  /** `address.city || "Unknown"` for each address. */
  function Provinces(a: seq<Option<string>>): (r: seq<string>)
    ensures |r| == |a|
  {
    seq(|a|, i requires 0 <= i < |a| => StrOr(a[i], "Unknown"))
  }

  /** The provinces of the order's customer; nothing when the customer or the addresses are missing. */
  function ProvincesOf(o: OrderDoc, addresses: map<Id, seq<Option<string>>>): seq<string> {
    if o.customer in addresses then Provinces(addresses[o.customer]) else []
  }

  /** The province of every address of every order's customer, in the order the loops visit them. */
  function Cities(orders: seq<OrderDoc>, addresses: map<Id, seq<Option<string>>>): seq<string> {
    if |orders| == 0 then []
    else Cities(orders[..|orders| - 1], addresses) + ProvincesOf(orders[|orders| - 1], addresses)
  }

  function Named(p: string): ProvinceCount -> bool {
    (e: ProvinceCount) => e.province == p
  }

  /** `provinceStats[p]++`, creating the key at the end with 1 when it is new. */
  function Bump(es: seq<ProvinceCount>, p: string): seq<ProvinceCount> {
    var k := FirstIndex(es, Named(p));
    if k.Some? then es[k.value := es[k.value].(count := es[k.value].count + 1)]
    else es + [ProvinceCount(p, 1)]
  }

  /** The object's entries after counting `ps` in order. */
  function Tally(ps: seq<string>): seq<ProvinceCount> {
    if |ps| == 0 then [] else Bump(Tally(ps[..|ps| - 1]), ps[|ps| - 1])
  }

  /** How often p occurs in ps. */
  function Occurs(ps: seq<string>, p: string): (r: nat)
    ensures p !in ps ==> r == 0
  {
    if |ps| == 0 then 0 else Occurs(ps[..|ps| - 1], p) + (if ps[|ps| - 1] == p then 1 else 0)
  }

  function Names(es: seq<ProvinceCount>): set<string> {
    set e | e in es :: e.province
  }

  predicate KeysDistinct(es: seq<ProvinceCount>) {
    forall i, j :: 0 <= i < j < |es| ==> es[i].province != es[j].province
  }

  /** One more province counted. */
  lemma TallySnoc(ps: seq<string>, p: string)
    ensures Tally(ps + [p]) == Bump(Tally(ps), p)
  {
    assert (ps + [p])[..|ps|] == ps;
  }

  /** One more order visited. */
  lemma CitiesNext(orders: seq<OrderDoc>, i: nat, addresses: map<Id, seq<Option<string>>>)
    requires i < |orders|
    ensures Cities(orders[..i + 1], addresses) == Cities(orders[..i], addresses) + ProvincesOf(orders[i], addresses)
  {
    assert orders[..i + 1][..i] == orders[..i];
  }

  /** The inner loop: `provinceStats[province]++` for each of one customer's addresses. */
  method CountAddresses(es0: seq<ProvinceCount>, ghost done: seq<string>, a: seq<Option<string>>) returns (es: seq<ProvinceCount>)
    requires es0 == Tally(done)
    ensures es == Tally(done + Provinces(a))
  {
    ghost var ps := Provinces(a);
    es := es0;
    var j := 0;
    assert done + ps[..0] == done;
    while j < |a|
      invariant 0 <= j <= |a|
      invariant es == Tally(done + ps[..j])
    {
      var p := StrOr(a[j], "Unknown");
      ProvincesNext(done, a, j);
      TallySnoc(done + ps[..j], p);
      es := Bump(es, p);
      j := j + 1;
    }
    assert ps[..|a|] == ps;
  }

  /** One more address visited. */
  lemma ProvincesNext(done: seq<string>, a: seq<Option<string>>, j: nat)
    requires j < |a|
    ensures done + Provinces(a)[..j + 1] == (done + Provinces(a)[..j]) + [StrOr(a[j], "Unknown")]
  {
    var ps := Provinces(a);
    assert ps[..j + 1] == ps[..j] + [ps[j]];
  }

  /** The per-province counting loops, proved against Tally. */
  method ProvinceCounts(orders: seq<OrderDoc>, addresses: map<Id, seq<Option<string>>>) returns (es: seq<ProvinceCount>)
    ensures es == Tally(Cities(orders, addresses))
  {
    es := [];
    var i := 0;
    while i < |orders|
      invariant 0 <= i <= |orders|
      invariant es == Tally(Cities(orders[..i], addresses))
    {
      var o := orders[i];
      CitiesNext(orders, i, addresses);
      if o.customer in addresses {
        es := CountAddresses(es, Cities(orders[..i], addresses), addresses[o.customer]);
      } else {
        assert Cities(orders[..i], addresses) + [] == Cities(orders[..i], addresses);
      }
      i := i + 1;
    }
    assert orders[..|orders|] == orders;
  }

  /** The sum of the counts. */
  function Total(es: seq<ProvinceCount>): int {
    Sum(es, CountOf)
  }

  /** Raising one entry's count by one raises the total by one. */
  lemma {:induction false} TotalBump(es: seq<ProvinceCount>, k: nat)
    requires k < |es|
    ensures Total(es[k := es[k].(count := es[k].count + 1)]) == Total(es) + 1
  {
    var es' := es[k := es[k].(count := es[k].count + 1)];
    var n := |es| - 1;
    if k < n {
      TotalBump(es[..n], k);
      assert es'[..n] == es[..n][k := es[k].(count := es[k].count + 1)];
    } else {
      assert es'[..n] == es[..n];
    }
  }

  /**
   * The entries count each province of ps once: keys are distinct, every
   * count is the number of addresses in that province and at least 1,
   * every province seen has an entry, and the counts add up to the number
   * of addresses.
   */
  ghost predicate Counts(es: seq<ProvinceCount>, ps: seq<string>) {
    && KeysDistinct(es)
    && (forall i :: 0 <= i < |es| ==> 0 < es[i].count == Occurs(ps, es[i].province))
    && (forall p :: p in ps <==> p in Names(es))
    && Total(es) == |ps|
  }

  /** Counting a province that has an entry raises that entry alone. */
  lemma BumpFound(es0: seq<ProvinceCount>, init: seq<string>, p: string, i0: nat)
    requires Counts(es0, init) && i0 < |es0| && es0[i0].province == p
    ensures Counts(es0[i0 := es0[i0].(count := es0[i0].count + 1)], init + [p])
  {
    var ps := init + [p];
    var es := es0[i0 := es0[i0].(count := es0[i0].count + 1)];
    assert ps[..|ps| - 1] == init;
    TotalBump(es0, i0);
    forall i | 0 <= i < |es|
      ensures 0 < es[i].count == Occurs(ps, es[i].province)
    {
      if i != i0 {
        assert es[i] == es0[i];
      }
    }
    forall q
      ensures q in ps <==> q in Names(es)
    {
      if q in Names(es) {
        var j :| 0 <= j < |es| && es[j].province == q;
        assert es0[j].province == q && es0[j] in es0;
      }
      if q in Names(es0) {
        var j :| 0 <= j < |es0| && es0[j].province == q;
        assert es[j].province == q && es[j] in es;
      }
      if q == p {
        assert es[i0] in es;
      }
    }
  }

  lemma NamesSnoc(es: seq<ProvinceCount>, e: ProvinceCount)
    ensures Names(es + [e]) == Names(es) + {e.province}
  {
    forall q
      ensures q in Names(es + [e]) <==> q in Names(es) + {e.province}
    {
      if q in Names(es + [e]) {
        var x :| x in es + [e] && x.province == q;
        assert x in es || x == e;
      }
      if q in Names(es) {
        var x :| x in es && x.province == q;
        assert x in es + [e];
      }
      assert e in es + [e];
    }
  }

  /** Counting a new province appends its entry with 1. */
  lemma BumpNew(es0: seq<ProvinceCount>, init: seq<string>, p: string)
    requires Counts(es0, init) && p !in Names(es0)
    ensures Counts(es0 + [ProvinceCount(p, 1)], init + [p])
  {
    var ps := init + [p];
    var e := ProvinceCount(p, 1);
    var es := es0 + [e];
    assert ps[..|ps| - 1] == init;
    assert Occurs(init, p) == 0;
    SumAppend(es0, [e], CountOf);
    assert Total([e]) == 1;
    NamesSnoc(es0, e);
    forall i | 0 <= i < |es0|
      ensures es0[i].province != p
    {
      assert es0[i] in es0;
    }
    forall i | 0 <= i < |es|
      ensures 0 < es[i].count == Occurs(ps, es[i].province)
    {
      if i < |es0| {
        assert es[i] == es0[i];
      }
    }
  }

  /** The tally of any list of provinces counts it. */
  lemma {:induction false} TallyRules(ps: seq<string>)
    ensures Counts(Tally(ps), ps)
  {
    if |ps| > 0 {
      var init, p := ps[..|ps| - 1], ps[|ps| - 1];
      TallyRules(init);
      var es0 := Tally(init);
      assert ps == init + [p];
      var k := FirstIndex(es0, Named(p));
      if k.Some? {
        BumpFound(es0, init, p, k.value);
      } else {
        assert p !in Names(es0);
        BumpNew(es0, init, p);
      }
    }
  }

  datatype ProvinceStats = ProvinceStats(totalProvinces: nat, provinces: seq<ProvinceCount>)

  /** `Object.entries` in key-creation order, then a stable sort by count, highest first. */
  function StatsOf(es: seq<ProvinceCount>): (r: ProvinceStats)
    ensures r.totalProvinces == |es| == |r.provinces|
    ensures multiset(r.provinces) == multiset(es) && DescendingBy(r.provinces, CountOf)
  {
    var sorted := SortDesc(es, CountOf);
    ProvinceStats(|sorted|, sorted)
  }

  /** getSellerProvinceStats: every order with a line of the seller, cancelled or not. */
  function SellerProvinceStatsOf(orders: seq<OrderDoc>, addresses: map<Id, seq<Option<string>>>, seller: Option<Id>): (r: Result<ProvinceStats>)
    ensures r.Fail? <==> seller.None?
    ensures r.Fail? ==> r.failure == NotFound
    ensures r.Ok? ==> DescendingBy(r.value.provinces, CountOf) && r.value.totalProvinces == |r.value.provinces|
  {
    if seller.None? then Fail(NotFound) else Ok(StatsOf(Tally(Cities(Filter(orders, HasItemOf(seller.value)), addresses))))
  }

  method GetSellerProvinceStats(orders: seq<OrderDoc>, addresses: map<Id, seq<Option<string>>>, seller: Option<Id>) returns (r: Result<ProvinceStats>)
    ensures r == SellerProvinceStatsOf(orders, addresses, seller)
  {
    if seller.None? {
      return Fail(NotFound);
    }
    var es := ProvinceCounts(Filter(orders, HasItemOf(seller.value)), addresses);
    r := Ok(StatsOf(es));
  }

  /** getAdminProvinceStats: every order. */
  function AdminProvinceStatsOf(orders: seq<OrderDoc>, addresses: map<Id, seq<Option<string>>>): (r: ProvinceStats)
    ensures DescendingBy(r.provinces, CountOf) && r.totalProvinces == |r.provinces|
  {
    StatsOf(Tally(Cities(orders, addresses)))
  }

  method GetAdminProvinceStats(orders: seq<OrderDoc>, addresses: map<Id, seq<Option<string>>>) returns (r: ProvinceStats)
    ensures r == AdminProvinceStatsOf(orders, addresses)
  {
    var es := ProvinceCounts(orders, addresses);
    r := StatsOf(es);
  }

  /** Sorting the entries changes neither the entries nor the names. */
  lemma SortedCounts(es: seq<ProvinceCount>, ps: seq<string>)
    requires Counts(es, ps)
    ensures var sorted := SortDesc(es, CountOf);
      && (forall e :: e in sorted ==> 0 < e.count == Occurs(ps, e.province))
      && Names(sorted) == Names(es)
  {
    var sorted := SortDesc(es, CountOf);
    SortDescMembers(es, CountOf);
    forall e | e in sorted
      ensures 0 < e.count == Occurs(ps, e.province)
    {
      var i :| 0 <= i < |es| && es[i] == e;
    }
  }

  /**
   * The reported provinces are the tally's entries, highest count first:
   * one entry per province seen, each with its number of addresses.
   */
  lemma ProvinceStatsRules(orders: seq<OrderDoc>, addresses: map<Id, seq<Option<string>>>)
    ensures var cities := Cities(orders, addresses);
      var st := AdminProvinceStatsOf(orders, addresses);
      && st.totalProvinces == |Tally(cities)|
      && multiset(st.provinces) == multiset(Tally(cities))
      && DescendingBy(st.provinces, CountOf)
      && (forall e :: e in st.provinces ==> 0 < e.count == Occurs(cities, e.province))
      && (forall p :: p in cities <==> p in Names(st.provinces))
      && KeysDistinct(Tally(cities))
      && Total(Tally(cities)) == |cities|
  {
    var cities := Cities(orders, addresses);
    TallyRules(cities);
    SortedCounts(Tally(cities), cities);
  }

  /** Every address of every order's known customer is counted once. */
  lemma {:induction false} CitiesCount(orders: seq<OrderDoc>, addresses: map<Id, seq<Option<string>>>)
    ensures |Cities(orders, addresses)| == Sum(orders, (o: OrderDoc) => if o.customer in addresses then |addresses[o.customer]| else 0)
  {
    if |orders| > 0 {
      CitiesCount(orders[..|orders| - 1], addresses);
    }
  }

  // ---------------------------------------------------------------------
  // Best-selling products
  // ---------------------------------------------------------------------

  function Sold(p: ProductDoc): int {
    p.sold
  }

  /** `parseInt(limit) || 10`; a negative Mongo limit returns that many documents too. */
  function LimitOf(limit: Option<int>): nat {
    var n := NumOr(limit, 10);
    if n < 0 then -n else n
  }

  /** `.sort({ sold: -1 }).limit(n)`. */
  function Top(ps: seq<ProductDoc>, limit: Option<int>): seq<ProductDoc> {
    var sorted := SortDesc(ps, Sold);
    var n := LimitOf(limit);
    if n < |sorted| then sorted[..n] else sorted
  }

  /** getSellerPopularProducts: the seller's own products. */
  function SellerPopularOf(ps: seq<ProductDoc>, seller: Option<Id>, limit: Option<int>): (r: Result<seq<ProductDoc>>)
    ensures r.Fail? <==> seller.None?
    ensures r.Fail? ==> r.failure == NotFound
    ensures r.Ok? ==> |r.value| <= |ps| && DescendingBy(r.value, Sold)
  {
    if seller.None? then Fail(NotFound) else Ok(Top(Filter(ps, OwnedBy(seller.value)), limit))
  }

  /** getAdminPopularProducts: one seller's products when `sellerId` is given, otherwise all. */
  function AdminPopularOf(ps: seq<ProductDoc>, sellerId: Option<Id>, limit: Option<int>): seq<ProductDoc> {
    Top(if sellerId.Some? then Filter(ps, OwnedBy(sellerId.value)) else ps, limit)
  }

  /** getBestSellerProducts: every product. */
  function BestSellersOf(ps: seq<ProductDoc>, limit: Option<int>): seq<ProductDoc> {
    Top(ps, limit)
  }

  /** A prefix of a list sorted by `sold` holds every element that sold more than one of its own. */
  lemma PrefixHoldsBetter(sorted: seq<ProductDoc>, n: nat)
    requires n <= |sorted| && DescendingBy(sorted, Sold)
    ensures forall a, b :: a in sorted[..n] && b in sorted && b.sold > a.sold ==> b in sorted[..n]
  {
    var r := sorted[..n];
    forall a, b | a in r && b in sorted && b.sold > a.sold
      ensures b in r
    {
      var i :| 0 <= i < n && r[i] == a;
      var j :| 0 <= j < |sorted| && sorted[j] == b;
      assert r[j] == b;
    }
  }

  /** A prefix is a sub-multiset and keeps the order. */
  lemma PrefixOfSorted<T>(s: seq<T>, n: nat, key: T -> int)
    requires n <= |s| && DescendingBy(s, key)
    ensures multiset(s[..n]) <= multiset(s)
    ensures DescendingBy(s[..n], key)
  {
    assert s == s[..n] + s[n..];
  }

  /**
   * The top products: as many as the limit allows (10 by default), drawn
   * from the candidates, highest `sold` first, and no candidate left out
   * sold more than one shown.
   */
  lemma TopRules(ps: seq<ProductDoc>, limit: Option<int>)
    ensures var r := Top(ps, limit);
      && |r| == (if LimitOf(limit) < |ps| then LimitOf(limit) else |ps|)
      && (limit.None? ==> |r| == (if 10 < |ps| then 10 else |ps|))
      && multiset(r) <= multiset(ps)
      && DescendingBy(r, Sold)
      && (forall a, b :: a in r && b in ps && b.sold > a.sold ==> b in r)
  {
    var sorted := SortDesc(ps, Sold);
    var n := if LimitOf(limit) < |sorted| then LimitOf(limit) else |sorted|;
    assert Top(ps, limit) == sorted[..n];
    PrefixOfSorted(sorted, n, Sold);
    PrefixHoldsBetter(sorted, n);
    SortDescMembers(ps, Sold);
  }

  /** The seller's list holds only the seller's products; without a profile it is 404. */
  lemma SellerPopularRules(ps: seq<ProductDoc>, seller: Option<Id>, limit: Option<int>)
    ensures seller.None? ==> SellerPopularOf(ps, seller, limit) == Fail(NotFound)
    ensures seller.Some? ==> forall p :: p in SellerPopularOf(ps, seller, limit).value ==> p in ps && p.seller == seller
  {
    if seller.Some? {
      var f := Filter(ps, OwnedBy(seller.value));
      TopRules(f, limit);
      forall p | p in Top(f, limit)
        ensures p in f
      {
        assert p in multiset(Top(f, limit));
      }
    }
  }

  /**
   * The admin's list: with a `sellerId` only that seller's products, and
   * otherwise the top of every product, as many as the best-seller list.
   */
  lemma AdminPopularRules(ps: seq<ProductDoc>, sellerId: Option<Id>, limit: Option<int>)
    ensures sellerId.Some? ==> forall p :: p in AdminPopularOf(ps, sellerId, limit) ==> p in ps && p.seller == sellerId
    ensures sellerId.None? ==> |AdminPopularOf(ps, sellerId, limit)| == |BestSellersOf(ps, limit)| == (if LimitOf(limit) < |ps| then LimitOf(limit) else |ps|)
  {
    if sellerId.Some? {
      var f := Filter(ps, OwnedBy(sellerId.value));
      TopRules(f, limit);
      forall p | p in Top(f, limit)
        ensures p in f
      {
        assert p in multiset(Top(f, limit));
      }
    } else {
      TopRules(ps, limit);
    }
  }
}
