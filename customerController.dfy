/**
 * A seller's customer book: links between a seller and a user (one per
 * pair, by a unique compound index), the per-customer order statistics,
 * the customer's order history one page at a time, and the abandoned carts
 * recorded for a customer.
 */
module CustomerController {
  import opened Base
  import opened Listing
  import opened OrderModel

  /** The parts of a user record the customer book reads or creates. */
  datatype UserRec = UserRec(id: Id, name: string, email: string, phone: Option<string>, role: string)

  /** A seller-customer link with the details the seller keeps about the customer. */
  datatype Link = Link(
    id: Id,
    userId: Id,
    sellerId: Id,
    firstName: string,
    lastName: string,
    email: string,
    phone: Option<string>,
    streetAddress: Option<string>,
    country: Option<string>,
    state: Option<string>,
    notes: Option<string>)

  datatype AbandonedCart = AbandonedCart(id: Id, userId: Id, sellerId: Id, itemCount: nat, totalPrice: int, recovered: bool)

  /** The three collections and their id generators. */
  datatype Book = Book(users: seq<UserRec>, nextUser: Id, links: seq<Link>, nextLink: Id, carts: seq<AbandonedCart>, nextCart: Id)

  /** Every link points at an existing user id, and the (user, seller) pairs are distinct. */
  predicate BookValid(b: Book) {
    && (forall k :: 0 <= k < |b.links| ==> b.links[k].userId < b.nextUser)
    && (forall k :: 0 <= k < |b.users| ==> b.users[k].id < b.nextUser)
    && (forall i, j :: 0 <= i < j < |b.links| ==> (b.links[i].userId, b.links[i].sellerId) != (b.links[j].userId, b.links[j].sellerId))
  }

  function UserByEmail(users: seq<UserRec>, email: string): (r: Option<nat>)
    ensures r.None? <==> forall k :: 0 <= k < |users| ==> users[k].email != email
    ensures r.Some? ==> r.value < |users| && users[r.value].email == email
  {
    FirstIndex(users, (u: UserRec) => u.email == email)
  }

  function LinkOf(links: seq<Link>, user: Id, seller: Id): (r: Option<nat>)
    ensures r.None? <==> forall k :: 0 <= k < |links| ==> !(links[k].userId == user && links[k].sellerId == seller)
    ensures r.Some? ==> r.value < |links| && links[r.value].userId == user && links[r.value].sellerId == seller
  {
    FirstIndex(links, (l: Link) => l.userId == user && l.sellerId == seller)
  }

  function LinkById(links: seq<Link>, id: Id): (r: Option<nat>)
    ensures r.None? <==> forall k :: 0 <= k < |links| ==> links[k].id != id
    ensures r.Some? ==> r.value < |links| && links[r.value].id == id
    ensures r.Some? ==> forall k :: 0 <= k < r.value ==> links[k].id != id
  {
    FirstIndex(links, (l: Link) => l.id == id)
  }

  /** The createCustomer body as its validator admits it: both names of 2 to 30 characters and an email. */
  datatype CustomerBody = CustomerBody(
    firstName: string,
    lastName: string,
    email: string,
    phone: Option<string>,
    streetAddress: Option<string>,
    country: Option<string>,
    state: Option<string>,
    notes: Option<string>,
    sellerId: Option<Id>)

  predicate BodyAccepted(c: CustomerBody) {
    2 <= |c.firstName| <= 30 && 2 <= |c.lastName| <= 30 && |c.email| > 0
  }

  /** The seller a new link belongs to: the caller, unless an admin names one. */
  function LinkSeller(role: string, caller: Id, c: CustomerBody): Id {
    if role == "admin" && c.sellerId.Some? then c.sellerId.value else caller
  }

  datatype Created = Created(r: Result<Link>, after: Book)

  /** The name a new customer user gets, `${firstName} ${lastName}`. */
  function FullName(c: CustomerBody): string {
    c.firstName + " " + c.lastName
  }

  /**
   * createCustomer: the user is found by email (the schema lowercases the
   * queried email as it does the stored one) or else created as a customer,
   * which the user schema refuses when the joined name is over 30
   * characters; an existing link for the pair is a 400, otherwise the link
   * is created.
   */
  function CreateCustomerRequest(b: Book, role: string, caller: Id, c: CustomerBody): (cr: Created)
    ensures cr.r.Ok? || cr.r == Fail(BadRequest) || cr.r == Fail(Invalid)
    ensures cr.r == Fail(Invalid) <==> UserByEmail(b.users, Lower(c.email)).None? && |FullName(c)| > 30
  {
    var seller := LinkSeller(role, caller, c);
    var found := UserByEmail(b.users, Lower(c.email));
    if found.None? && |FullName(c)| > 30 then Created(Fail(Invalid), b)
    else
      var uid := if found.Some? then b.users[found.value].id else b.nextUser;
      var b1 := if found.Some? then b
        else b.(users := b.users + [UserRec(b.nextUser, FullName(c), Lower(c.email), c.phone, "customer")], nextUser := b.nextUser + 1);
      if LinkOf(b1.links, uid, seller).Some? then Created(Fail(BadRequest), b1)
      else
        var l := Link(b1.nextLink, uid, seller, c.firstName, c.lastName, Lower(c.email), c.phone, c.streetAddress, c.country, c.state, c.notes);
        Created(Ok(l), b1.(links := b1.links + [l], nextLink := b1.nextLink + 1))
  }

  /** The customer book's collections. */
  class CustomerStore {
    var users: seq<UserRec>
    var nextUser: Id
    var links: seq<Link>
    var nextLink: Id
    var carts: seq<AbandonedCart>
    var nextCart: Id

    function State(): Book
      reads this
    {
      Book(users, nextUser, links, nextLink, carts, nextCart)
    }

    ghost predicate Valid()
      reads this
    {
      BookValid(State())
    }

    constructor ()
      ensures State() == Book([], 0, [], 0, [], 0) && Valid()
    {
      users, nextUser, links, nextLink, carts, nextCart := [], 0, [], 0, [], 0;
    }

    /** `userModel.create(u)` under the next user id. */
    method AddUser(u: UserRec)
      requires Valid() && u.id == nextUser
      modifies this
      ensures Valid()
      ensures State() == old(State()).(users := old(users) + [u], nextUser := old(nextUser) + 1)
    {
      users, nextUser := users + [u], nextUser + 1;
    }

    /** `sellerCustomerModel.create(l)` for a pair without a link. */
    method AddLink(l: Link)
      requires Valid() && l.id == nextLink && l.userId < nextUser && LinkOf(links, l.userId, l.sellerId).None?
      modifies this
      ensures Valid()
      ensures State() == old(State()).(links := old(links) + [l], nextLink := old(nextLink) + 1)
    {
      links, nextLink := links + [l], nextLink + 1;
    }

    /** `abandonedCartModel.create(c)` under the next cart id. */
    method AddCart(c: AbandonedCart)
      requires Valid() && c.id == nextCart
      modifies this
      ensures Valid()
      ensures State() == old(State()).(carts := old(carts) + [c], nextCart := old(nextCart) + 1)
    {
      carts, nextCart := carts + [c], nextCart + 1;
    }

    /** `findByIdAndUpdate(id, { recovered: true })` of the k-th cart. */
    method MarkRecovered(k: nat)
      requires Valid() && k < |carts|
      modifies this
      ensures Valid()
      ensures State() == old(State()).(carts := old(carts)[k := old(carts)[k].(recovered := true)])
    {
      carts := carts[k := carts[k].(recovered := true)];
    }
  }

  method CreateCustomer(store: CustomerStore, role: string, caller: Id, c: CustomerBody) returns (r: Result<Link>)
    requires store.Valid() && BodyAccepted(c)
    modifies store
    ensures store.Valid()
    ensures Created(r, store.State()) == CreateCustomerRequest(old(store.State()), role, caller, c)
  {
    var seller := LinkSeller(role, caller, c);
    var found := UserByEmail(store.users, Lower(c.email));
    var uid;
    if found.Some? {
      uid := store.users[found.value].id;
    } else {
      if |FullName(c)| > 30 {
        return Fail(Invalid);
      }
      uid := store.nextUser;
      store.AddUser(UserRec(store.nextUser, FullName(c), Lower(c.email), c.phone, "customer"));
    }
    if LinkOf(store.links, uid, seller).Some? {
      return Fail(BadRequest);
    }
    var l := Link(store.nextLink, uid, seller, c.firstName, c.lastName, Lower(c.email), c.phone, c.streetAddress, c.country, c.state, c.notes);
    store.AddLink(l);
    r := Ok(l);
  }

  /**
   * A link for a pair that already has one is refused, and then nothing is
   * created, not even a user (the pair's user exists already). A new user
   * whose joined name is over 30 characters is refused by the user schema,
   * and then nothing is created either. Otherwise the link belongs to the
   * caller, or to the seller an admin names, and to the user with that
   * email, who is created as a customer only when no user has the email.
   */
  lemma CreateCustomerRules(b: Book, role: string, caller: Id, c: CustomerBody)
    requires BookValid(b)
    ensures var cr := CreateCustomerRequest(b, role, caller, c);
      var found := UserByEmail(b.users, Lower(c.email));
      && (cr.r == Fail(BadRequest) ==> cr.after == b)
      && (cr.r == Fail(Invalid) <==> found.None? && |FullName(c)| > 30)
      && (cr.r == Fail(Invalid) ==> cr.after == b)
      && (cr.r.Ok? ==> (
        && cr.r.value.sellerId == (if role == "admin" && c.sellerId.Some? then c.sellerId.value else caller)
        && |cr.after.links| == |b.links| + 1
        && (found.Some? ==> cr.after.users == b.users && cr.r.value.userId == b.users[found.value].id)
        && (found.None? ==>
              cr.after.users == b.users + [UserRec(b.nextUser, FullName(c), Lower(c.email), c.phone, "customer")] &&
              |FullName(c)| <= 30)))
  {
  }

  /** A second create for the same email and seller is refused. */
  lemma SecondLinkRefused(b: Book, role: string, caller: Id, c: CustomerBody)
    requires BookValid(b)
    requires CreateCustomerRequest(b, role, caller, c).r.Ok?
    ensures CreateCustomerRequest(CreateCustomerRequest(b, role, caller, c).after, role, caller, c).r == Fail(BadRequest)
  {
    var b1 := CreateCustomerRequest(b, role, caller, c).after;
    var l := CreateCustomerRequest(b, role, caller, c).r.value;
    if UserByEmail(b.users, Lower(c.email)).Some? {
      assert b1.users == b.users;
    } else {
      assert b1.users[|b.users|].email == Lower(c.email);
      forall j | 0 <= j < |b.users|
        ensures b1.users[j].email != Lower(c.email)
      {
        assert b1.users[j] == b.users[j];
      }
    }
    assert b1.links[|b1.links| - 1] == l;
  }

  /** getSpecificCustomer and the other per-customer reads: 404 for an unknown link, 403 for a seller reading another seller's customer. */
  function CustomerAccess(links: seq<Link>, role: string, caller: Id, id: Id): (r: Result<nat>)
    ensures r.Ok? ==> r.value < |links| && links[r.value].id == id && (role == "seller" ==> links[r.value].sellerId == caller)
    ensures r == Fail(Forbidden) ==> role == "seller" && exists k :: 0 <= k < |links| && links[k].id == id && links[k].sellerId != caller
    ensures r.Fail? ==> r == Fail(NotFound) || r == Fail(Forbidden)
    ensures r == Fail(NotFound) <==> forall k :: 0 <= k < |links| ==> links[k].id != id
    ensures forall k :: 0 <= k < |links| && links[k].id == id && (forall j :: 0 <= j < k ==> links[j].id != id) ==>
      r == if role == "seller" && links[k].sellerId != caller then Fail(Forbidden) else Ok(k)
  {
    match LinkById(links, id)
    case None => Fail(NotFound)
    case Some(k) => if role == "seller" && links[k].sellerId != caller then Fail(Forbidden) else Ok(k)
  }

  /** The customer's orders that hold an item of the link's seller. */
  predicate OrderOfLink(o: OrderDoc, l: Link) {
    o.customer == l.userId && exists i :: 0 <= i < |o.items| && o.items[i].seller == Some(l.sellerId)
  }

  /** The per-customer statistics. */
  datatype Stats = Stats(
    totalOrders: real,
    allOrdersCount: nat,
    pending: nat,
    completed: nat,
    cancelled: nat,
    returned: nat,
    damaged: nat,
    shipping: nat,
    delivered: nat)

  /** The seven statuses the switch counts; "Approved" has no case. */
  const TalliedStatuses: set<string> := {"pending", "completed", "cancelled", "returned", "damaged", "shipping", "delivered"}

  /** One step of the `forEach`: add the order's total and bump the counter of its status, if it has one. */
  function Bump(s: Stats, o: OrderDoc): Stats {
    var t := s.(totalOrders := s.totalOrders + o.totalOrderPrice);
    if o.status == Some("pending") then t.(pending := t.pending + 1)
    else if o.status == Some("completed") then t.(completed := t.completed + 1)
    else if o.status == Some("cancelled") then t.(cancelled := t.cancelled + 1)
    else if o.status == Some("returned") then t.(returned := t.returned + 1)
    else if o.status == Some("damaged") then t.(damaged := t.damaged + 1)
    else if o.status == Some("shipping") then t.(shipping := t.shipping + 1)
    else if o.status == Some("delivered") then t.(delivered := t.delivered + 1)
    else t
  }

  /** The stats object after the `forEach` over the orders, starting from zero counters and `allOrdersCount = n`. */
  function Tally(orders: seq<OrderDoc>, n: nat): Stats {
    if |orders| == 0 then Stats(0.0, n, 0, 0, 0, 0, 0, 0, 0)
    else Bump(Tally(orders[..|orders| - 1], n), orders[|orders| - 1])
  }

  lemma TallyNext(orders: seq<OrderDoc>, n: nat, i: nat)
    requires i < |orders|
    ensures Tally(orders[..i + 1], n) == Bump(Tally(orders[..i], n), orders[i])
  {
    assert orders[..i + 1][..i] == orders[..i];
  }

  function Counted(s: Stats): nat {
    s.pending + s.completed + s.cancelled + s.returned + s.damaged + s.shipping + s.delivered
  }

  function StatusIs(s: string): OrderDoc -> bool {
    (o: OrderDoc) => o.status == Some(s)
  }

  /**
   * The tally's meaning: totalOrders is the sum of the order totals,
   * allOrdersCount the number of orders, the counters add up to the number of
   * orders whose status is one of the seven (so never more than the
   * orders), and the pending counter counts the pending orders.
   */
  lemma {:induction false} TallyMeaning(orders: seq<OrderDoc>)
    ensures var s := Tally(orders, |orders|);
      && s.totalOrders == RealSum(orders)
      && s.allOrdersCount == |orders|
      && Counted(s) == Count(orders, (o: OrderDoc) => o.status.Some? && o.status.value in TalliedStatuses)
      && Counted(s) <= s.allOrdersCount
      && s.pending == Count(orders, StatusIs("pending"))
  {
    TallyAnyStart(orders, |orders|);
  }

  lemma TallyAnyStart(orders: seq<OrderDoc>, n: nat)
    ensures var s := Tally(orders, n);
      && s.totalOrders == RealSum(orders)
      && s.allOrdersCount == n
      && Counted(s) == Count(orders, (o: OrderDoc) => o.status.Some? && o.status.value in TalliedStatuses)
      && s.pending == Count(orders, StatusIs("pending"))
  {
    TallyTotal(orders, n);
    TallyCounted(orders, n);
    TallyPending(orders, n);
  }

  lemma {:induction false} TallyTotal(orders: seq<OrderDoc>, n: nat)
    ensures Tally(orders, n).totalOrders == RealSum(orders) && Tally(orders, n).allOrdersCount == n
  {
    if |orders| > 0 {
      TallyTotal(orders[..|orders| - 1], n);
    }
  }

  lemma {:induction false} TallyCounted(orders: seq<OrderDoc>, n: nat)
    ensures Counted(Tally(orders, n)) == Count(orders, (o: OrderDoc) => o.status.Some? && o.status.value in TalliedStatuses)
  {
    if |orders| > 0 {
      TallyCounted(orders[..|orders| - 1], n);
    }
  }

  lemma {:induction false} TallyPending(orders: seq<OrderDoc>, n: nat)
    ensures Tally(orders, n).pending == Count(orders, StatusIs("pending"))
  {
    if |orders| > 0 {
      TallyPending(orders[..|orders| - 1], n);
    }
  }

  /** The tally's `forEach`. */
  method TallyOrders(orders: seq<OrderDoc>) returns (s: Stats)
    ensures s == Tally(orders, |orders|)
  {
    s := Stats(0.0, |orders|, 0, 0, 0, 0, 0, 0, 0);
    var i := 0;
    while i < |orders|
      invariant 0 <= i <= |orders|
      invariant s == Tally(orders[..i], |orders|)
    {
      TallyNext(orders, |orders|, i);
      s := Bump(s, orders[i]);
      i := i + 1;
    }
    assert orders[..i] == orders;
  }

  predicate OpenCartOf(c: AbandonedCart, l: Link) {
    c.userId == l.userId && c.sellerId == l.sellerId && !c.recovered
  }

  datatype Details = Details(link: Link, stats: Stats, abandonedCartCount: nat)

  function DetailsOf(b: Book, role: string, caller: Id, id: Id, orders: seq<OrderDoc>): (r: Result<Details>)
    ensures CustomerAccess(b.links, role, caller, id).Fail? ==> r == Fail(CustomerAccess(b.links, role, caller, id).failure)
    ensures CustomerAccess(b.links, role, caller, id).Ok? ==>
      r.Ok? && r.value.link == b.links[CustomerAccess(b.links, role, caller, id).value] && r.value.abandonedCartCount <= |b.carts|
  {
    match CustomerAccess(b.links, role, caller, id)
    case Fail(f) => Fail(f)
    case Ok(k) =>
      var l := b.links[k];
      var mine := Filter(orders, (o: OrderDoc) => OrderOfLink(o, l));
      Ok(Details(l, Tally(mine, |mine|), Count(b.carts, (c: AbandonedCart) => OpenCartOf(c, l))))
  }

  /** getCustomerDetails over the orders collection `orders`. */
  method GetCustomerDetails(store: CustomerStore, role: string, caller: Id, id: Id, orders: seq<OrderDoc>) returns (r: Result<Details>)
    ensures r == DetailsOf(store.State(), role, caller, id, orders)
  {
    var access := CustomerAccess(store.links, role, caller, id);
    if access.Fail? {
      return Fail(access.failure);
    }
    var l := store.links[access.value];
    var mine := Filter(orders, (o: OrderDoc) => OrderOfLink(o, l));
    var stats := TallyOrders(mine);
    r := Ok(Details(l, stats, Count(store.carts, (c: AbandonedCart) => OpenCartOf(c, l))));
  }

  /**
   * The history page: `page * 1 || 1` and `limit * 1 || 10`, newest first by
   * `created`, skip (page - 1) * limit; a negative skip is refused by the
   * database; numberOfPages is ceil(total / limit).
   */
  datatype History = History(orders: seq<OrderDoc>, currentPage: int, limit: int, numberOfPages: int)

  function HistoryOf(b: Book, role: string, caller: Id, id: Id, orders: seq<OrderDoc>, created: OrderDoc -> int,
                     page: Option<int>, limit: Option<int>): (r: Result<History>)
    ensures CustomerAccess(b.links, role, caller, id).Fail? ==> r == Fail(CustomerAccess(b.links, role, caller, id).failure)
    ensures CustomerAccess(b.links, role, caller, id).Ok? ==> var p, n := NumOr(page, 1), NumOr(limit, 10);
      && (r.Fail? <==> (p < 1 && n > 0) || (p > 1 && n < 0))
      && (r.Fail? ==> r.failure == ServerError)
      && (r.Ok? ==> r.value.currentPage == p && r.value.limit == n && |r.value.orders| <= (if n < 0 then -n else n))
  {
    NegativeProduct(NumOr(page, 1) - 1, NumOr(limit, 10));
    match CustomerAccess(b.links, role, caller, id)
    case Fail(f) => Fail(f)
    case Ok(k) =>
      var l := b.links[k];
      HistoryPage(SortDesc(Filter(orders, (o: OrderDoc) => OrderOfLink(o, l)), created), NumOr(page, 1), NumOr(limit, 10))
  }

  /** `.skip(skip).limit(n)` over the sorted matches; a negative `limit` counts by its size. */
  function HistoryPage(mine: seq<OrderDoc>, p: int, n: int): Result<History>
    requires n != 0
  {
    var skip := (p - 1) * n;
    if skip < 0 then Fail(ServerError)
    else
      var size := if n < 0 then -n else n;
      Ok(History(JsSlice(mine, skip, skip + size), p, n, PageCount(|mine|, n)))
  }

  lemma HistoryPageIsPage(mine: seq<OrderDoc>, page: int, limit: int)
    requires page >= 1 && limit >= 1
    ensures HistoryPage(mine, page, limit) == Ok(History(Page(mine, page, limit), page, limit, PageCount(|mine|, limit)))
  {
    assert (page - 1) * limit >= 0 by { MulMono(0, page - 1, limit); }
  }

  /**
   * For a positive page and limit the history page holds the matching
   * orders from position (page - 1) * limit on, newest first, at most limit
   * of them, and it is non-empty exactly up to numberOfPages.
   */
  lemma HistoryPaging(b: Book, role: string, caller: Id, id: Id, orders: seq<OrderDoc>, created: OrderDoc -> int, page: int, limit: int)
    requires page >= 1 && limit >= 1 && CustomerAccess(b.links, role, caller, id).Ok?
    ensures var h := HistoryOf(b, role, caller, id, orders, created, Some(page), Some(limit));
      && h.Ok? && |h.value.orders| <= limit && DescendingBy(h.value.orders, created)
      && (forall o :: o in h.value.orders ==> o in orders && OrderOfLink(o, b.links[CustomerAccess(b.links, role, caller, id).value]))
      && (|h.value.orders| > 0 <==> page <= h.value.numberOfPages)
  {
    var l := b.links[CustomerAccess(b.links, role, caller, id).value];
    var mine := SortDesc(Filter(orders, (o: OrderDoc) => OrderOfLink(o, l)), created);
    HistoryPageIsPage(mine, page, limit);
    PageContents(mine, page, limit);
    SortedFilterPage(orders, (o: OrderDoc) => OrderOfLink(o, l), created, page, limit);
  }

  /** recordAbandonedCart: the access check, then a new unrecovered cart for the link's user and seller. */
  method RecordAbandonedCart(store: CustomerStore, role: string, caller: Id, id: Id, itemCount: nat, totalPrice: int)
    returns (r: Result<AbandonedCart>)
    requires store.Valid()
    modifies store
    ensures store.Valid()
    ensures var access := CustomerAccess(old(store.links), role, caller, id);
      && (access.Fail? ==> r == Fail(access.failure) && store.State() == old(store.State()))
      && (access.Ok? ==> (
        var l := old(store.links)[access.value];
        && r == Ok(AbandonedCart(old(store.nextCart), l.userId, l.sellerId, itemCount, totalPrice, false))
        && store.State() == old(store.State()).(carts := old(store.carts) + [r.value], nextCart := old(store.nextCart) + 1)))
  {
    var access := CustomerAccess(store.links, role, caller, id);
    if access.Fail? {
      return Fail(access.failure);
    }
    var l := store.links[access.value];
    var c := AbandonedCart(store.nextCart, l.userId, l.sellerId, itemCount, totalPrice, false);
    store.AddCart(c);
    r := Ok(c);
  }

  /** getAbandonedCarts: the link's unrecovered carts. */
  function AbandonedCartsOf(b: Book, role: string, caller: Id, id: Id): (r: Result<seq<AbandonedCart>>)
    ensures CustomerAccess(b.links, role, caller, id).Fail? ==> r == Fail(CustomerAccess(b.links, role, caller, id).failure)
    ensures CustomerAccess(b.links, role, caller, id).Ok? ==>
      r.Ok? && forall c :: c in r.value <==> c in b.carts && OpenCartOf(c, b.links[CustomerAccess(b.links, role, caller, id).value])
  {
    match CustomerAccess(b.links, role, caller, id)
    case Fail(f) => Fail(f)
    case Ok(k) => Ok(Filter(b.carts, (c: AbandonedCart) => OpenCartOf(c, b.links[k])))
  }

  function CartById(carts: seq<AbandonedCart>, id: Id): (r: Option<nat>)
    ensures r.None? <==> forall k :: 0 <= k < |carts| ==> carts[k].id != id
    ensures r.Some? ==> r.value < |carts| && carts[r.value].id == id
  {
    FirstIndex(carts, (c: AbandonedCart) => c.id == id)
  }

  /** recoverAbandonedCart: any seller or admin may mark any cart recovered; an unknown id is a 404. */
  method RecoverAbandonedCart(store: CustomerStore, id: Id) returns (r: Result<AbandonedCart>)
    requires store.Valid()
    modifies store
    ensures store.Valid()
    ensures CartById(old(store.carts), id).None? ==> r == Fail(NotFound) && store.State() == old(store.State())
    ensures CartById(old(store.carts), id).Some? ==> (
      var k := CartById(old(store.carts), id).value;
      && r == Ok(old(store.carts)[k].(recovered := true))
      && store.State() == old(store.State()).(carts := old(store.carts)[k := r.value]))
  {
    var k := CartById(store.carts, id);
    if k.None? {
      return Fail(NotFound);
    }
    store.MarkRecovered(k.value);
    r := Ok(store.carts[k.value]);
  }

  /** A recovered cart leaves the open list and the count of open carts drops by one. */
  lemma RecoverLeavesList(b: Book, k: nat, l: Link)
    requires k < |b.carts| && OpenCartOf(b.carts[k], l)
    ensures var carts := b.carts[k := b.carts[k].(recovered := true)];
      Count(carts, (c: AbandonedCart) => OpenCartOf(c, l)) + 1 == Count(b.carts, (c: AbandonedCart) => OpenCartOf(c, l))
  {
    CountUpdate(b.carts, k, b.carts[k].(recovered := true), (c: AbandonedCart) => OpenCartOf(c, l));
  }

  lemma {:induction false} CountUpdate<T>(s: seq<T>, k: nat, x: T, p: T -> bool)
    requires k < |s|
    ensures Count(s[k := x], p) == Count(s, p) - (if p(s[k]) then 1 else 0) + (if p(x) then 1 else 0)
  {
    var n := |s| - 1;
    if k < n {
      CountUpdate(s[..n], k, x, p);
      assert s[k := x][..n] == s[..n][k := x];
    } else {
      assert s[k := x][..n] == s[..n];
    }
  }
}
