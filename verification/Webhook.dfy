/** The two payment events of the webhook controller, each one guarded row update. */
module Webhook {
  import opened Schema
  import opened StripeCalls
  import opened Bookings

  /** `bookingId` is the metadata Stripe sends back with the PaymentIntent. */
  datatype Event =
    | PaymentSucceeded(intent: Id, bookingId: Option<Id>)
    | PaymentFailed(intent: Id, bookingId: Option<Id>)

  predicate SucceedGuard(b: Booking) { (b.status.UNPAID? || Hold(b.status)) && b.cancelledAt.None? }

  predicate FailGuard(b: Booking, p: Id) {
    b.intent == Some(p) && (b.status.UNPAID? || b.status.PENDING?) && b.cancelledAt.None?
  }

  /** What an event that names this booking does to its row at time `now`. */
  function OnRow(b: Booking, e: Event, now: Time): Booking {
    match e
    case PaymentSucceeded(p, _) => if SucceedGuard(b) then Paid(b, now).(intent := Some(p)) else b
    case PaymentFailed(p, _) => if FailGuard(b, p) then b.(status := FAILED) else b
  }

  function Handle(w: World, e: Event): World {
    var t := Turn(w);
    if t.env.halted || e.bookingId.None? || e.bookingId.value !in t.db.rows then t
    else t.(db := PutRow(t.db, e.bookingId.value, OnRow(t.db.rows[e.bookingId.value], e, t.env.now)))
  }
}
