/**
 * The notification handlers: a user's inbox, marking read, deleting, the
 * seven opt-in preferences, and the admin's broadcast that writes one
 * notification per opted-in recipient.
 */
module NotificationController {
  import opened Base
  import opened Listing
  import opened NotificationModel

  /** A user's opt-in flags, one per notification kind. */
  datatype Prefs = Prefs(general: bool, specialOffers: bool, promoDiscounts: bool, payments: bool, cashback: bool, appUpdates: bool, newService: bool)

  /** The user schema's defaults: everything on except payments and cashback. */
  const DefaultPrefs: Prefs := Prefs(true, true, true, false, false, true, true)

  /** `notificationPreferences.<kind>`; a kind outside the seven is never set. */
  function Flag(p: Prefs, kind: string): bool {
    match kind
    case "general" => p.general
    case "special_offers" => p.specialOffers
    case "promo_discounts" => p.promoDiscounts
    case "payments" => p.payments
    case "cashback" => p.cashback
    case "app_updates" => p.appUpdates
    case "new_service" => p.newService
    case _ => false
  }

  /** The flags a preference update supplies; an absent one is `undefined`. */
  datatype PrefsPatch = PrefsPatch(general: Option<bool>, specialOffers: Option<bool>, promoDiscounts: Option<bool>, payments: Option<bool>, cashback: Option<bool>, appUpdates: Option<bool>, newService: Option<bool>)

  function PatchFlag(q: PrefsPatch, kind: string): Option<bool> {
    match kind
    case "general" => q.general
    case "special_offers" => q.specialOffers
    case "promo_discounts" => q.promoDiscounts
    case "payments" => q.payments
    case "cashback" => q.cashback
    case "app_updates" => q.appUpdates
    case "new_service" => q.newService
    case _ => None
  }

  /** Each flag is the supplied value when given, the stored one otherwise. */
  function MergePrefs(p: Prefs, q: PrefsPatch): (r: Prefs)
    ensures forall kind :: PatchFlag(q, kind).Some? ==> Flag(r, kind) == PatchFlag(q, kind).value
    ensures q == PrefsPatch(None, None, None, None, None, None, None) ==> r == p
  {
    var r := Prefs(Or(q.general, p.general), Or(q.specialOffers, p.specialOffers), Or(q.promoDiscounts, p.promoDiscounts),
                   Or(q.payments, p.payments), Or(q.cashback, p.cashback), Or(q.appUpdates, p.appUpdates), Or(q.newService, p.newService));
    assert forall kind :: PatchFlag(q, kind).Some? ==> Flag(r, kind) == PatchFlag(q, kind).value by {
      forall kind | PatchFlag(q, kind).Some?
        ensures Flag(r, kind) == PatchFlag(q, kind).value
      {
        MergedFlag(p, q, r, kind);
      }
    }
    r
  }

  /** One flag of the merged preferences, kind by kind. */
  lemma MergedFlag(p: Prefs, q: PrefsPatch, r: Prefs, kind: string)
    requires r == Prefs(Or(q.general, p.general), Or(q.specialOffers, p.specialOffers), Or(q.promoDiscounts, p.promoDiscounts),
                        Or(q.payments, p.payments), Or(q.cashback, p.cashback), Or(q.appUpdates, p.appUpdates), Or(q.newService, p.newService))
    requires PatchFlag(q, kind).Some?
    ensures Flag(r, kind) == PatchFlag(q, kind).value
  {
    match kind
    case "general" =>
    case "special_offers" =>
    case "promo_discounts" =>
    case "payments" =>
    case "cashback" =>
    case "app_updates" =>
    case "new_service" =>
    case _ =>
  }

  /** The parts of a user record the handlers read. */
  datatype UserRec = UserRec(id: Id, role: string, prefs: Prefs)

  /** What the inbox answers: one page, the number of matches, and the caller's unread count. */
  datatype Inbox = Inbox(items: seq<NotificationDoc>, totalNotifications: nat, unreadCount: nat)

  /** The inbox filter: the caller's, newer than `since` if given, unread if asked. */
  predicate Matches(n: NotificationDoc, caller: Id, since: Option<Time>, unreadOnly: bool) {
    n.user == caller && (since.None? || n.createdAt > since.value) && (!unreadOnly || !n.isRead)
  }

  predicate UnreadOf(n: NotificationDoc, caller: Id) {
    n.user == caller && !n.isRead
  }

  function CreatedAt(n: NotificationDoc): int {
    n.createdAt
  }

  /**
   * getMyNotifications: page `page * 1 || 1` of `limit * 1 || 20`, newest
   * first. Mongo applies the skip before the limit whatever the call order;
   * a negative skip is an error and a negative limit counts by its size.
   */
  function InboxOf(ns: seq<NotificationDoc>, caller: Id, since: Option<Time>, unreadOnly: bool, page: Option<int>, limit: Option<int>): (r: Result<Inbox>)
    ensures var p, n := NumOr(page, 1), NumOr(limit, 20); r.Fail? <==> (p < 1 && n > 0) || (p > 1 && n < 0)
    ensures r.Fail? ==> r.failure == ServerError
    ensures r.Ok? ==>
      && r.value.totalNotifications == Count(ns, (x: NotificationDoc) => Matches(x, caller, since, unreadOnly))
      && r.value.unreadCount == Count(ns, (x: NotificationDoc) => UnreadOf(x, caller))
      && |r.value.items| <= r.value.totalNotifications
  {
    var p := NumOr(page, 1);
    var n := NumOr(limit, 20);
    var skip := (p - 1) * n;
    NegativeProduct(p - 1, n);
    if skip < 0 then Fail(ServerError)
    else
      var size := if n < 0 then -n else n;
      var mine := MatchingNewestFirst(ns, caller, since, unreadOnly);
      Ok(Inbox(JsSlice(mine, skip, skip + size),
               Count(ns, (x: NotificationDoc) => Matches(x, caller, since, unreadOnly)),
               Count(ns, (x: NotificationDoc) => UnreadOf(x, caller))))
  }

  /** The caller's notifications that pass the filters, newest first. */
  function MatchingNewestFirst(ns: seq<NotificationDoc>, caller: Id, since: Option<Time>, unreadOnly: bool): seq<NotificationDoc> {
    SortDesc(Filter(ns, MatchesFilter(caller, since, unreadOnly)), CreatedAt)
  }

  /** `Matches` as the predicate the listing filters with. */
  function MatchesFilter(caller: Id, since: Option<Time>, unreadOnly: bool): NotificationDoc -> bool {
    (x: NotificationDoc) => Matches(x, caller, since, unreadOnly)
  }

  datatype Changed = Changed(r: Result<NotificationDoc>, after: seq<NotificationDoc>)

  /** `findOne({ _id: id, user: caller })`. */
  function OwnIndex(ns: seq<NotificationDoc>, caller: Id, id: Id): (r: Option<nat>)
    ensures r.None? <==> forall k :: 0 <= k < |ns| ==> !(ns[k].id == id && ns[k].user == caller)
    ensures r.Some? ==> r.value < |ns| && ns[r.value].id == id && ns[r.value].user == caller
  {
    FirstIndex(ns, (n: NotificationDoc) => n.id == id && n.user == caller)
  }

  /** markAsRead: `findOneAndUpdate` setting the flag and the time; it bypasses the save hook. */
  function MarkReadRequest(ns: seq<NotificationDoc>, caller: Id, id: Id, now: Time): (c: Changed)
    ensures c.r.Fail? <==> OwnIndex(ns, caller, id).None?
    ensures c.r.Fail? ==> c.r.failure == NotFound && c.after == ns
    ensures c.r.Ok? ==> OwnIndex(ns, caller, id).Some? && var k := OwnIndex(ns, caller, id).value;
      && c.r.value.id == id && c.r.value.user == caller && c.r.value.isRead && c.r.value.readAt == Some(now)
      && |c.after| == |ns| && c.after[k] == c.r.value
      && forall i :: 0 <= i < |ns| && i != k ==> c.after[i] == ns[i]
  {
    match OwnIndex(ns, caller, id)
    case None => Changed(Fail(NotFound), ns)
    case Some(k) =>
      var d := ns[k].(isRead := true, readAt := Some(now));
      Changed(Ok(d), ns[k := d])
  }

  /** markAllAsRead: `updateMany({ user: caller, isRead: false }, { isRead: true, readAt: now })`. */
  function MarkAll(ns: seq<NotificationDoc>, caller: Id, now: Time): (r: seq<NotificationDoc>)
    ensures |r| == |ns|
    ensures forall i :: 0 <= i < |ns| ==> r[i] == (if UnreadOf(ns[i], caller) then ns[i].(isRead := true, readAt := Some(now)) else ns[i])
  {
    seq(|ns|, i requires 0 <= i < |ns| => if UnreadOf(ns[i], caller) then ns[i].(isRead := true, readAt := Some(now)) else ns[i])
  }

  /** deleteNotification: only the caller's own. */
  function DeleteRequest(ns: seq<NotificationDoc>, caller: Id, id: Id): (r: (Outcome, seq<NotificationDoc>))
    ensures r.0.Failed? <==> OwnIndex(ns, caller, id).None?
    ensures r.0.Failed? ==> r.0.failure == NotFound && r.1 == ns
    ensures r.0.Done? ==> OwnIndex(ns, caller, id).Some? && var k := OwnIndex(ns, caller, id).value;
      && |r.1| == |ns| - 1
      && forall i :: 0 <= i < |ns| && i != k ==> ns[i] in r.1
  {
    match OwnIndex(ns, caller, id)
    case None => (Failed(NotFound), ns)
    case Some(k) => (Done, RemoveAt(ns, k))
  }

  /** `findById(caller)`; a missing user makes the handler throw reading its preferences. */
  function UserIndex(users: seq<UserRec>, id: Id): (r: Option<nat>)
    ensures r.None? <==> forall k :: 0 <= k < |users| ==> users[k].id != id
    ensures r.Some? ==> r.value < |users| && users[r.value].id == id
  {
    FirstIndex(users, (u: UserRec) => u.id == id)
  }

  function PrefsRequest(users: seq<UserRec>, caller: Id): Result<Prefs> {
    match UserIndex(users, caller)
    case None => Fail(ServerError)
    case Some(k) => Ok(users[k].prefs)
  }

  /** updateMyNotificationPreferences: all seven flags are written, merged from the stored ones. */
  function UpdatePrefsRequest(users: seq<UserRec>, caller: Id, q: PrefsPatch): (r: (Result<Prefs>, seq<UserRec>))
    ensures r.0.Fail? <==> UserIndex(users, caller).None?
    ensures r.0.Fail? ==> r.0.failure == ServerError && r.1 == users
    ensures |r.1| == |users|
    ensures forall i :: 0 <= i < |users| && users[i].id != caller ==> r.1[i] == users[i]
    ensures r.0.Ok? ==> UserIndex(users, caller).Some? && var k := UserIndex(users, caller).value;
      r.1[k] == users[k].(prefs := r.0.value)
  {
    match UserIndex(users, caller)
    case None => (Fail(ServerError), users)
    case Some(k) =>
      var p := MergePrefs(users[k].prefs, q);
      (Ok(p), users[k := users[k].(prefs := p)])
  }

  /** The broadcast body; `filterByRole` applies only with `sendToAllUsers`. */
  datatype SendBody = SendBody(userIds: Option<seq<Id>>, kind: string, title: string, body: string, icon: Option<string>, sendToAllUsers: bool, filterByRole: Option<string>)

  const Roles: set<string> := {"admin", "accountant", "seller", "customer", "affiliate", "delivery"}

  /** The send validator. */
  predicate SendAccepted(b: SendBody) {
    && b.kind in Kinds
    && 3 <= |b.title| <= 100
    && 10 <= |b.body| <= 500
    && (b.filterByRole.Some? ==> b.filterByRole.value in Roles)
  }

  /** Who a broadcast reaches, before the empty check: users in storage order whose flag for the kind is on. */
  predicate Reaches(u: UserRec, b: SendBody) {
    && Flag(u.prefs, b.kind)
    && (if b.sendToAllUsers then !Truthy(b.filterByRole) || u.role == b.filterByRole.value
        else b.userIds.Some? && u.id in b.userIds.value)
  }

  function Targets(users: seq<UserRec>, b: SendBody): (r: seq<Id>)
    requires b.sendToAllUsers || b.userIds.Some?
    ensures |r| == Count(users, (u: UserRec) => Reaches(u, b))
    ensures forall u :: u in users && Reaches(u, b) ==> u.id in r
    ensures forall x :: x in r ==> exists u :: u in users && Reaches(u, b) && u.id == x
  {
    var us := Filter(users, (u: UserRec) => Reaches(u, b));
    var r := Ids(us);
    assert forall u :: u in us ==> u.id in r by {
      forall u | u in us
        ensures u.id in r
      {
        var i :| 0 <= i < |us| && us[i] == u;
        assert r[i] == u.id;
      }
    }
    assert forall x :: x in r ==> exists u :: u in users && Reaches(u, b) && u.id == x by {
      forall x | x in r
        ensures exists u :: u in users && Reaches(u, b) && u.id == x
      {
        var i :| 0 <= i < |r| && r[i] == x;
        assert us[i] in us;
      }
    }
    r
  }

  function Ids(us: seq<UserRec>): (r: seq<Id>)
    ensures |r| == |us| && forall i :: 0 <= i < |us| ==> r[i] == us[i].id
  {
    seq(|us|, i requires 0 <= i < |us| => us[i].id)
  }

  /** The notifications `insertMany` writes, ids drawn from `next` on; nothing is read yet. */
  function Outbox(targets: seq<Id>, next: Id, b: SendBody, now: Time): (r: seq<NotificationDoc>)
    ensures |r| == |targets|
    ensures forall i :: 0 <= i < |targets| ==> r[i] == NotificationDoc(next + i, targets[i], b.kind, b.title, b.body, StrOr(b.icon, ""), false, None, now)
  {
    seq(|targets|, i requires 0 <= i < |targets| => NotificationDoc(next + i, targets[i], b.kind, b.title, b.body, StrOr(b.icon, ""), false, None, now))
  }

  /** sendNotification: the number sent, and the collection afterwards. */
  function SendRequest(ns: seq<NotificationDoc>, next: Id, users: seq<UserRec>, b: SendBody, now: Time): (r: (Result<nat>, seq<NotificationDoc>))
    ensures r.0.Fail? ==> r.0 == Fail(BadRequest) && r.1 == ns
    ensures !b.sendToAllUsers && (b.userIds.None? || |b.userIds.value| == 0) ==> r.0.Fail?
    ensures r.0.Ok? ==> (r.0.value > 0 && |r.1| == |ns| + r.0.value && r.1[..|ns|] == ns &&
      forall i :: |ns| <= i < |r.1| ==> r.1[i].id == next + (i - |ns|) && r.1[i].kind == b.kind && !r.1[i].isRead)
  {
    if !b.sendToAllUsers && (b.userIds.None? || |b.userIds.value| == 0) then (Fail(BadRequest), ns)
    else
      var t := Targets(users, b);
      if |t| == 0 then (Fail(BadRequest), ns)
      else (Ok(|t|), ns + Outbox(t, next, b, now))
  }

  /** Per-kind tallies of the admin stats. */
  datatype KindTally = KindTally(count: nat, unreadCount: nat)

  datatype NotificationStats = NotificationStats(totalNotifications: nat, unreadNotifications: nat, byKind: map<string, KindTally>)

  predicate OfKind(n: NotificationDoc, kind: string) {
    n.kind == kind
  }

  predicate UnreadOfKind(n: NotificationDoc, kind: string) {
    n.kind == kind && !n.isRead
  }

  function KindsOf(ns: seq<NotificationDoc>): set<string> {
    set n | n in ns :: n.kind
  }

  /** getNotificationStats: the `$group` by kind becomes a map over the kinds present. */
  function StatsOf(ns: seq<NotificationDoc>): (r: NotificationStats)
    ensures r.totalNotifications == |ns| && r.unreadNotifications <= |ns|
    ensures forall k :: k in r.byKind ==> r.byKind[k].count <= |ns| && r.byKind[k].unreadCount <= |ns|
  {
    NotificationStats(|ns|, Count(ns, (n: NotificationDoc) => !n.isRead),
      map k | k in KindsOf(ns) :: KindTally(Count(ns, (n: NotificationDoc) => OfKind(n, k)), Count(ns, (n: NotificationDoc) => UnreadOfKind(n, k))))
  }

  /** The users and the notifications, with notification ids drawn from a counter. */
  class NotificationCenter {
    var users: seq<UserRec>
    var notifications: seq<NotificationDoc>
    var nextId: Id

    ghost predicate Valid()
      reads this
    {
      && DistinctIds(notifications)
      && (forall i :: 0 <= i < |notifications| ==> notifications[i].id < nextId)
    }

    constructor (us: seq<UserRec>)
      ensures users == us && notifications == [] && nextId == 0 && Valid()
    {
      users := us;
      notifications := [];
      nextId := 0;
    }

    /** An update that bypasses the save hook, on the k-th notification. */
    method Put(k: nat, d: NotificationDoc)
      requires Valid() && k < |notifications| && d.id == notifications[k].id
      modifies this
      ensures Valid() && nextId == old(nextId) && users == old(users)
      ensures notifications == old(notifications)[k := d]
    {
      notifications := notifications[k := d];
    }

    method ReadAll(caller: Id, now: Time)
      requires Valid()
      modifies this
      ensures Valid() && nextId == old(nextId) && users == old(users)
      ensures notifications == MarkAll(old(notifications), caller, now)
    {
      notifications := MarkAll(notifications, caller, now);
    }

    method Delete(k: nat)
      requires Valid() && k < |notifications|
      modifies this
      ensures Valid() && nextId == old(nextId) && users == old(users)
      ensures notifications == RemoveAt(old(notifications), k)
    {
      notifications := RemoveAt(notifications, k);
    }

    /** `insertMany(docs)`; the ids are the next ones of the counter. */
    method InsertMany(docs: seq<NotificationDoc>)
      requires Valid() && forall i :: 0 <= i < |docs| ==> docs[i].id == nextId + i
      modifies this
      ensures Valid() && nextId == old(nextId) + |docs| && users == old(users)
      ensures notifications == old(notifications) + docs
    {
      notifications := notifications + docs;
      nextId := nextId + |docs|;
    }

    method SetPrefs(k: nat, p: Prefs)
      requires k < |users|
      modifies this
      ensures notifications == old(notifications) && nextId == old(nextId)
      ensures users == old(users)[k := old(users)[k].(prefs := p)]
    {
      users := users[k := users[k].(prefs := p)];
    }
  }

  predicate DistinctIds(ns: seq<NotificationDoc>) {
    forall i, j :: 0 <= i < j < |ns| ==> ns[i].id != ns[j].id
  }

  method MarkAsRead(c: NotificationCenter, caller: Id, id: Id, now: Time) returns (r: Result<NotificationDoc>)
    requires c.Valid()
    modifies c
    ensures c.Valid() && c.users == old(c.users)
    ensures Changed(r, c.notifications) == MarkReadRequest(old(c.notifications), caller, id, now)
  {
    var k := OwnIndex(c.notifications, caller, id);
    if k.None? {
      return Fail(NotFound);
    }
    var d := c.notifications[k.value].(isRead := true, readAt := Some(now));
    c.Put(k.value, d);
    r := Ok(d);
  }

  method MarkAllAsRead(c: NotificationCenter, caller: Id, now: Time)
    requires c.Valid()
    modifies c
    ensures c.Valid() && c.users == old(c.users)
    ensures c.notifications == MarkAll(old(c.notifications), caller, now)
  {
    c.ReadAll(caller, now);
  }

  method DeleteNotification(c: NotificationCenter, caller: Id, id: Id) returns (r: Outcome)
    requires c.Valid()
    modifies c
    ensures c.Valid() && c.users == old(c.users)
    ensures (r, c.notifications) == DeleteRequest(old(c.notifications), caller, id)
  {
    var k := OwnIndex(c.notifications, caller, id);
    if k.None? {
      return Failed(NotFound);
    }
    c.Delete(k.value);
    r := Done;
  }

  method UpdateMyNotificationPreferences(c: NotificationCenter, caller: Id, q: PrefsPatch) returns (r: Result<Prefs>)
    requires c.Valid()
    modifies c
    ensures c.Valid() && c.notifications == old(c.notifications)
    ensures (r, c.users) == UpdatePrefsRequest(old(c.users), caller, q)
  {
    var k := UserIndex(c.users, caller);
    if k.None? {
      return Fail(ServerError);
    }
    var p := MergePrefs(c.users[k.value].prefs, q);
    c.SetPrefs(k.value, p);
    r := Ok(p);
  }

  method SendNotification(c: NotificationCenter, b: SendBody, now: Time) returns (r: Result<nat>)
    requires c.Valid() && SendAccepted(b)
    modifies c
    ensures c.Valid() && c.users == old(c.users)
    ensures (r, c.notifications) == SendRequest(old(c.notifications), old(c.nextId), old(c.users), b, now)
  {
    if !b.sendToAllUsers && (b.userIds.None? || |b.userIds.value| == 0) {
      return Fail(BadRequest);
    }
    var t := Targets(c.users, b);
    if |t| == 0 {
      return Fail(BadRequest);
    }
    c.InsertMany(Outbox(t, c.nextId, b, now));
    r := Ok(|t|);
  }

  /**
   * For a positive page and limit the inbox holds exactly the window of
   * the caller's notifications that pass the filters, newest first, that
   * starts at (page - 1) * limit and is at most `limit` long; the total
   * counts every match.
   */
  lemma InboxPaging(ns: seq<NotificationDoc>, caller: Id, since: Option<Time>, unreadOnly: bool, page: int, limit: int)
    requires page >= 1 && limit >= 1
    ensures var r := InboxOf(ns, caller, since, unreadOnly, Some(page), Some(limit));
      && r.Ok?
      && |r.value.items| <= limit
      && (forall n :: n in r.value.items ==> n in ns && Matches(n, caller, since, unreadOnly))
      && (forall i, j :: 0 <= i < j < |r.value.items| ==> r.value.items[i].createdAt >= r.value.items[j].createdAt)
      && r.value.totalNotifications == Count(ns, (x: NotificationDoc) => Matches(x, caller, since, unreadOnly))
      && Window(r.value.items, MatchingNewestFirst(ns, caller, since, unreadOnly), (page - 1) * limit, limit)
  {
    var p := MatchesFilter(caller, since, unreadOnly);
    var mine := MatchingNewestFirst(ns, caller, since, unreadOnly);
    var q := Page(mine, page, limit);
    InboxItems(ns, caller, since, unreadOnly, page, limit);
    assert Window(q, mine, (page - 1) * limit, limit) by { PageWindow(mine, page, limit); }
    assert |q| <= limit && forall n :: n in q ==> n in ns && Matches(n, caller, since, unreadOnly) by {
      PageContents(mine, page, limit);
      SortedFilterPage(ns, p, CreatedAt, page, limit);
    }
    assert forall i, j :: 0 <= i < j < |q| ==> q[i].createdAt >= q[j].createdAt by {
      SortedFilterPage(ns, p, CreatedAt, page, limit);
      forall i, j | 0 <= i < j < |q|
        ensures q[i].createdAt >= q[j].createdAt
      {
        assert CreatedAt(q[i]) >= CreatedAt(q[j]);
      }
    }
  }

  /** For a positive page and limit the inbox answers with that page of the caller's matches, newest first. */
  lemma InboxItems(ns: seq<NotificationDoc>, caller: Id, since: Option<Time>, unreadOnly: bool, page: int, limit: int)
    requires page >= 1 && limit >= 1
    ensures var r := InboxOf(ns, caller, since, unreadOnly, Some(page), Some(limit));
      r.Ok? && r.value.items == Page(MatchingNewestFirst(ns, caller, since, unreadOnly), page, limit)
  {
    assert (page - 1) * limit >= 0 by { MulMono(0, page - 1, limit); }
  }

  /** The unread count is the caller's unread notifications, whatever the filters and the page. */
  lemma UnreadIgnoresFilters(ns: seq<NotificationDoc>, caller: Id, since: Option<Time>, unreadOnly: bool, page: Option<int>, limit: Option<int>)
    requires InboxOf(ns, caller, since, unreadOnly, page, limit).Ok?
    ensures InboxOf(ns, caller, since, unreadOnly, page, limit).value.unreadCount == InboxOf(ns, caller, None, false, None, None).value.unreadCount
    ensures InboxOf(ns, caller, None, false, None, None).value.unreadCount == Count(ns, (x: NotificationDoc) => UnreadOf(x, caller))
  {
  }

  /** Marking one read changes only that notification of the caller's, stamping the time. */
  lemma MarkReadRules(ns: seq<NotificationDoc>, caller: Id, id: Id, now: Time)
    ensures var c := MarkReadRequest(ns, caller, id, now);
      && (c.r.Fail? <==> OwnIndex(ns, caller, id).None?)
      && (c.r.Fail? ==> c.r.failure == NotFound && c.after == ns)
      && (c.r.Ok? ==> var k := OwnIndex(ns, caller, id).value;
            && c.r.value.isRead && c.r.value.readAt == Some(now) && c.r.value.user == caller
            && c.r.value == ns[k].(isRead := true, readAt := Some(now))
            && |c.after| == |ns|
            && (forall i :: 0 <= i < |ns| && i != k ==> c.after[i] == ns[i]))
  {
  }

  /**
   * Afterwards the caller has no unread notification; the caller's read
   * ones and everyone else's are as they were.
   */
  lemma MarkAllRules(ns: seq<NotificationDoc>, caller: Id, now: Time)
    ensures var after := MarkAll(ns, caller, now);
      && Count(after, (x: NotificationDoc) => UnreadOf(x, caller)) == 0
      && (forall i :: 0 <= i < |ns| && !UnreadOf(ns[i], caller) ==> after[i] == ns[i])
      && (forall i :: 0 <= i < |ns| && UnreadOf(ns[i], caller) ==> after[i].isRead && after[i].readAt == Some(now))
      && (forall i :: 0 <= i < |ns| ==> after[i].id == ns[i].id && after[i].user == ns[i].user)
  {
    CountZero(MarkAll(ns, caller, now), (x: NotificationDoc) => UnreadOf(x, caller));
  }

  /** Deleting removes the one notification of the caller's and nothing else. */
  lemma DeleteRules(ns: seq<NotificationDoc>, caller: Id, id: Id)
    ensures var (r, after) := DeleteRequest(ns, caller, id);
      && (r.Failed? <==> OwnIndex(ns, caller, id).None?)
      && (r.Failed? ==> r.failure == NotFound && after == ns)
      && (r.Done? ==> var k := OwnIndex(ns, caller, id).value;
            after == ns[..k] + ns[k + 1..] && ns[k].user == caller && ns[k].id == id)
  {
  }

  /** Every flag is the supplied one when given and the stored one otherwise. */
  lemma MergeRules(p: Prefs, q: PrefsPatch, kind: string)
    requires kind in Kinds
    ensures Flag(MergePrefs(p, q), kind) == (if PatchFlag(q, kind).Some? then PatchFlag(q, kind).value else Flag(p, kind))
  {
  }

  /** An empty update keeps the preferences, and repeating an update changes nothing more. */
  lemma MergeIdentity(p: Prefs, q: PrefsPatch)
    ensures MergePrefs(p, PrefsPatch(None, None, None, None, None, None, None)) == p
    ensures MergePrefs(MergePrefs(p, q), q) == MergePrefs(p, q)
  {
  }

  /** A preference update writes only the caller's record. */
  lemma UpdatePrefsRules(users: seq<UserRec>, caller: Id, q: PrefsPatch)
    ensures var (r, after) := UpdatePrefsRequest(users, caller, q);
      && |after| == |users|
      && (r.Fail? <==> forall k :: 0 <= k < |users| ==> users[k].id != caller)
      && (r.Fail? ==> after == users)
      && (r.Ok? ==> var k := UserIndex(users, caller).value;
            && r.value == MergePrefs(users[k].prefs, q)
            && after[k] == users[k].(prefs := r.value)
            && (forall i :: 0 <= i < |users| && i != k ==> after[i] == users[i]))
  {
  }

  /**
   * A broadcast reaches exactly the users whose flag for the kind is on
   * (and, for a broadcast to all, who have the asked role; otherwise who
   * are listed), writes one unread notification for each, in storage
   * order, and reports how many.
   */
  lemma SendRules(ns: seq<NotificationDoc>, next: Id, users: seq<UserRec>, b: SendBody, now: Time)
    requires SendAccepted(b)
    ensures var (r, after) := SendRequest(ns, next, users, b, now);
      && (r.Fail? ==> r.failure == BadRequest && after == ns)
      && (!b.sendToAllUsers && (b.userIds.None? || |b.userIds.value| == 0) ==> r.Fail?)
      && (r.Ok? ==>
            && |after| == |ns| + r.value && after[..|ns|] == ns
            && (forall u :: u in users && Reaches(u, b) ==> exists i :: |ns| <= i < |after| && after[i].user == u.id)
            && (forall i :: |ns| <= i < |after| ==>
                  && NotificationValid(after[i]) && !after[i].isRead && after[i].kind == b.kind
                  && exists u :: u in users && u.id == after[i].user && Reaches(u, b) && Flag(u.prefs, b.kind)))
  {
    var (r, after) := SendRequest(ns, next, users, b, now);
    if r.Ok? {
      var t := Targets(users, b);
      OutboxReachesAll(ns, after, users, b, t, next, now);
      OutboxOnlyReached(ns, after, users, b, t, next, now);
      forall i | |ns| <= i < |after|
        ensures exists u :: u in users && u.id == after[i].user && Reaches(u, b) && Flag(u.prefs, b.kind)
      {
      }
    }
  }

  /** Every reached user gets one of the notifications appended for the targets. */
  lemma OutboxReachesAll(ns: seq<NotificationDoc>, after: seq<NotificationDoc>, users: seq<UserRec>, b: SendBody, t: seq<Id>, next: Id, now: Time)
    requires b.sendToAllUsers || b.userIds.Some?
    requires t == Targets(users, b)
    requires after == ns + Outbox(t, next, b, now)
    ensures forall u :: u in users && Reaches(u, b) ==> exists i :: |ns| <= i < |after| && after[i].user == u.id
  {
    forall u | u in users && Reaches(u, b)
      ensures exists i :: |ns| <= i < |after| && after[i].user == u.id
    {
      var j :| 0 <= j < |t| && t[j] == u.id;
      assert after[|ns| + j].user == t[j];
    }
  }

  /** Each notification appended for the targets is valid, unread, of the kind, and for a reached user. */
  lemma OutboxOnlyReached(ns: seq<NotificationDoc>, after: seq<NotificationDoc>, users: seq<UserRec>, b: SendBody, t: seq<Id>, next: Id, now: Time)
    requires SendAccepted(b)
    requires b.sendToAllUsers || b.userIds.Some?
    requires t == Targets(users, b)
    requires after == ns + Outbox(t, next, b, now)
    ensures forall i :: |ns| <= i < |after| ==>
      && NotificationValid(after[i]) && !after[i].isRead && after[i].kind == b.kind
      && exists u :: u in users && u.id == after[i].user && Reaches(u, b) && Flag(u.prefs, b.kind)
  {
    forall i | |ns| <= i < |after|
      ensures && NotificationValid(after[i]) && !after[i].isRead && after[i].kind == b.kind
              && exists u :: u in users && u.id == after[i].user && Reaches(u, b) && Flag(u.prefs, b.kind)
    {
      var n := after[i];
      assert n == NotificationDoc(next + (i - |ns|), t[i - |ns|], b.kind, b.title, b.body, StrOr(b.icon, ""), false, None, now);
      assert t[i - |ns|] in t;
    }
  }

  /** With no recipient opted in, nothing is written and the request is refused. */
  lemma SendNobody(ns: seq<NotificationDoc>, next: Id, users: seq<UserRec>, b: SendBody, now: Time)
    requires forall k :: 0 <= k < |users| ==> !Flag(users[k].prefs, b.kind)
    ensures SendRequest(ns, next, users, b, now) == (Fail(BadRequest), ns)
  {
    if b.sendToAllUsers || (b.userIds.Some? && |b.userIds.value| > 0) {
      CountZero(users, (u: UserRec) => Reaches(u, b));
    }
  }

  /**
   * The stats count every notification once; there is one entry per kind
   * present, with at least one notification and no more unread than in all.
   */
  lemma StatsRules(ns: seq<NotificationDoc>)
    ensures var st := StatsOf(ns);
      && st.totalNotifications == |ns|
      && st.unreadNotifications <= st.totalNotifications
      && (forall k :: k in st.byKind <==> exists i :: 0 <= i < |ns| && ns[i].kind == k)
      && (forall k :: k in st.byKind ==> 1 <= st.byKind[k].count && st.byKind[k].unreadCount <= st.byKind[k].count)
  {
    var st := StatsOf(ns);
    forall k | k in st.byKind
      ensures 1 <= st.byKind[k].count && st.byKind[k].unreadCount <= st.byKind[k].count
    {
      var n :| n in ns && n.kind == k;
      var i :| 0 <= i < |ns| && ns[i] == n;
      CountPositive(ns, (x: NotificationDoc) => OfKind(x, k), i);
      CountMono(ns, (x: NotificationDoc) => UnreadOfKind(x, k), (x: NotificationDoc) => OfKind(x, k));
    }
    forall k
      ensures k in st.byKind <==> exists i :: 0 <= i < |ns| && ns[i].kind == k
    {
      if k in st.byKind {
        var n :| n in ns && n.kind == k;
        var i :| 0 <= i < |ns| && ns[i] == n;
      }
      if exists i :: 0 <= i < |ns| && ns[i].kind == k {
        var i :| 0 <= i < |ns| && ns[i].kind == k;
        assert ns[i] in ns;
      }
    }
  }
}
