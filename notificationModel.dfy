/**
 * An in-app notification, the seven kinds a user can opt into, and the
 * pre-save hook that stamps `readAt` on a read notification that has none.
 */
module NotificationModel {
  import opened Base

  const Kinds: set<string> := {"general", "special_offers", "promo_discounts", "payments", "cashback", "app_updates", "new_service"}

  datatype NotificationDoc = NotificationDoc(
    id: Id,
    user: Id,
    kind: string,
    title: string,
    body: string,
    icon: string,
    isRead: bool,
    readAt: Option<Time>,
    createdAt: Time)

  /** The schema's checks: a known kind, a title of at most 100 and a body of at most 500 characters. */
  predicate NotificationValid(n: NotificationDoc) {
    n.kind in Kinds && 0 < |n.title| <= 100 && 0 < |n.body| <= 500
  }

  /** The pre-save hook: a read notification without `readAt` gets the current time. */
  function Stamped(n: NotificationDoc, now: Time): (r: NotificationDoc)
    ensures r.isRead ==> r.readAt.Some?
    ensures n.readAt.Some? || !n.isRead ==> r == n
    ensures r == n.(readAt := r.readAt)
  {
    if n.isRead && n.readAt.None? then n.(readAt := Some(now)) else n
  }

  /** Stamping twice is stamping once, whatever the second clock reading. */
  lemma StampedIdempotent(n: NotificationDoc, now: Time, later: Time)
    ensures Stamped(Stamped(n, now), later) == Stamped(n, now)
  {
  }
}
