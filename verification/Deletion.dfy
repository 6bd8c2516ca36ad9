/** The handlers of the deletion service: preview, delete with cancel-and-refund, and refund retry. */
module Deletion {
  import opened Schema
  import opened StripeCalls
  import opened Bookings

  datatype Target = OneItem(resource: Resource) | WholeZone(zoneId: Id)

  datatype Impact = Impact(count: nat, paid: nat, unpaid: nat, holds: nat, refundTotalCents: int)
  datatype Refunds = Refunds(succeeded: nat, failed: nat, refundedCents: int)

  datatype Outcome =
    | Missing
    | ActiveBookings(impact: Impact)
    | Deleted(cancelledBookings: nat, refunds: Refunds)
    | Stopped

  // -------------------------------------------------------------- targets

  predicate TargetLive(db: Database, target: Target, spaceId: Id) {
    match target
    case OneItem(r) => Bookable(db, r, spaceId)
    case WholeZone(z) => z in db.zones && db.zones[z].deletedAt.None? && db.zones[z].spaceId == spaceId
  }

  /** The live desks and rooms that go with the target (`resolveTarget`). */
  predicate Within(db: Database, target: Target, resource: Resource) {
    && resource in db.items
    && db.items[resource].deletedAt.None?
    && match target
       case OneItem(r) => resource == r
       case WholeZone(z) => db.items[resource].zoneId == z
  }

  /** `findActiveBookings` for one row. */
  predicate Active(db: Database, spaceId: Id, target: Target, now: Time, b: Booking) {
    && b.spaceId == spaceId
    && b.cancelledAt.None?
    && b.end > now
    && Within(db, target, b.resource)
    && (b.status.PAID? || b.status.UNPAID?
        || (Hold(b.status) && b.holdExpiresAt.Some? && b.holdExpiresAt.value > now))
  }

  function ActiveSet(db: Database, spaceId: Id, target: Target, now: Time): set<Id> {
    set id | id in db.rows && Active(db, spaceId, target, now, db.rows[id])
  }

  function ActiveIds(db: Database, spaceId: Id, target: Target, now: Time): (r: seq<Id>)
    ensures forall i | 0 <= i < |r| :: r[i] in ActiveSet(db, spaceId, target, now)
  {
    Listing(db.nextRow, ActiveSet(db, spaceId, target, now))
  }

  // -------------------------------------------------------------- preview

  function AmountOr0(b: Booking): int { if b.amountCents.Some? then b.amountCents.value else 0 }

  function AddToImpact(m: Impact, b: Booking): Impact {
    Impact(m.count + 1,
           m.paid + (if b.status.PAID? then 1 else 0),
           m.unpaid + (if b.status.UNPAID? then 1 else 0),
           m.holds + (if Hold(b.status) then 1 else 0),
           m.refundTotalCents + (if b.status.PAID? then AmountOr0(b) else 0))
  }

  /** `buildImpact` */
  function BuildImpact(rows: map<Id, Booking>, ids: seq<Id>): Impact
    requires forall i | 0 <= i < |ids| :: ids[i] in rows
    decreases ids
  {
    if ids == [] then Impact(0, 0, 0, 0, 0) else AddToImpact(BuildImpact(rows, ids[1..]), rows[ids[0]])
  }

  /** `getImpact` */
  function GetImpact(w: World, target: Target, spaceId: Id): Option<Impact> {
    if !TargetLive(w.db, target, spaceId) then None
    else Some(BuildImpact(w.db.rows, ActiveIds(w.db, spaceId, target, w.env.now)))
  }

  // ---------------------------------------------------------- transaction

  function SoftDelete(db: Database, target: Target, now: Time): Database {
    var zones := match target
      case OneItem(_) => db.zones
      case WholeZone(z) => if z in db.zones then db.zones[z := db.zones[z].(deletedAt := Some(now))] else db.zones;
    db.(
      zones := zones,
      items := map r | r in db.items :: if Within(db, target, r) then db.items[r].(deletedAt := Some(now)) else db.items[r])
  }

  function Cancelled(b: Booking, now: Time): Booking {
    b.(status := if b.status.PAID? then REFUND_PENDING else b.status, cancelledAt := Some(now), holdExpiresAt := None)
  }

  function CancelRows(db: Database, ids: set<Id>, now: Time): Database {
    db.(rows := map id | id in db.rows :: if id in ids then Cancelled(db.rows[id], now) else db.rows[id])
  }

  // --------------------------------------------------------------- settle

  function Refunded(b: Booking, refund: Refund): Booking {
    b.(status := REFUNDED, refundId := Some(refund.id), refundedCents := Some(refund.amountCents))
  }

  function RecordRefund(w: World, id: Id, answer: Reply<Refund>): World {
    var t := Turn(w);
    if t.env.halted || id !in t.db.rows then t
    else if answer.Returned? && Issued(answer.value.status) then
      t.(db := PutRow(t.db, id, Refunded(t.db.rows[id], answer.value)))
    else t.(db := PutRow(t.db, id, t.db.rows[id].(status := REFUND_FAILED)))
  }

  function RefundOne(w: World, id: Id, p: Id): (World, bool) {
    var (w1, answer) := RefundIntent(w, p, id);
    (RecordRefund(w1, id, answer), answer.Returned? && Issued(answer.value.status))
  }

  function MarkLatePaid(w: World, id: Id): World {
    var t := Turn(w);
    if t.env.halted || id !in t.db.rows then t
    else t.(db := PutRow(t.db, id, t.db.rows[id].(status := REFUND_PENDING, paidAt := Some(t.env.now))))
  }

  function MarkReleased(w: World, id: Id): World {
    var t := Turn(w);
    if t.env.halted || id !in t.db.rows then t
    else t.(db := PutRow(t.db, id, t.db.rows[id].(status := FAILED)))
  }

  /** `releasePendingPayment` */
  function ReleasePending(w: World, id: Id, p: Id): World {
    var (w1, out) := CancelIntent(w, p);
    match out
    case Threw => w1
    case Returned(WasSucceeded) => RefundOne(MarkLatePaid(w1, id), id, p).0
    case Returned(WasCanceled) => MarkReleased(w1, id)
    case Returned(Other) => w1
  }

  function Tally(acc: Refunds, ok: bool, cents: int): Refunds {
    if ok then Refunds(acc.succeeded + 1, acc.failed, acc.refundedCents + cents)
    else acc.(failed := acc.failed + 1)
  }

  /** Count a released hold by the row it left behind. */
  function TallyReleased(acc: Refunds, rows: map<Id, Booking>, id: Id): Refunds {
    if id !in rows then acc
    else if rows[id].status.REFUNDED? then
      Tally(acc, true, if rows[id].refundedCents.Some? then rows[id].refundedCents.value else 0)
    else if rows[id].status.REFUND_FAILED? then Tally(acc, false, 0)
    else acc
  }

  /** `was` are the rows as the transaction read them. */
  function SettleOne(w: World, was: Booking, id: Id, acc: Refunds): (World, Refunds) {
    if was.status.PAID? && was.intent.Some? then
      var (w1, ok) := RefundOne(w, id, was.intent.value);
      (w1, Tally(acc, ok, AmountOr0(was)))
    else if Hold(was.status) && was.intent.Some? then
      var w1 := ReleasePending(w, id, was.intent.value);
      (w1, TallyReleased(acc, w1.db.rows, id))
    else (w, acc)
  }

  /** `settleCancelledBookings` */
  function Settle(w: World, was: map<Id, Booking>, ids: seq<Id>, acc: Refunds): (World, Refunds)
    requires forall i | 0 <= i < |ids| :: ids[i] in was
    decreases ids
  {
    if ids == [] then (w, acc)
    else
      var (w1, acc1) := SettleOne(w, was[ids[0]], ids[0], acc);
      Settle(w1, was, ids[1..], acc1)
  }

  // --------------------------------------------------------------- remove

  /** The transaction of `remove`, all or nothing; `now` was read before it began. */
  function RemoveTx(db: Database, target: Target, spaceId: Id, now: Time): Database {
    CancelRows(SoftDelete(db, target, now), ActiveSet(db, spaceId, target, now), now)
  }

  function Remove(w: World, target: Target, spaceId: Id, confirmRefund: bool): (World, Outcome) {
    var now := w.env.now;
    var t := Turn(w);
    if t.env.halted then (t, Stopped)
    else if !TargetLive(t.db, target, spaceId) then (t, Missing)
    else
      var active := ActiveIds(t.db, spaceId, target, now);
      if |active| > 0 && !confirmRefund then (t, ActiveBookings(BuildImpact(t.db.rows, active)))
      else
        var (w2, refunds) := Settle(
          t.(db := RemoveTx(t.db, target, spaceId, now)), t.db.rows, active, Refunds(0, 0, 0));
        (w2, if w2.env.halted then Stopped else Deleted(|active|, refunds))
  }

  // --------------------------------------------------------- retry refund

  predicate AwaitsRefund(db: Database, id: Id, spaceId: Id) {
    && id in db.rows
    && db.rows[id].spaceId == spaceId
    && db.rows[id].cancelledAt.Some?
    && (db.rows[id].status.REFUND_FAILED? || db.rows[id].status.REFUND_PENDING?)
    && db.rows[id].intent.Some?
  }

  /** `retryRefund`; None is "no refund waiting for a retry". */
  function RetryRefund(w: World, id: Id, spaceId: Id): (World, Option<bool>) {
    if !AwaitsRefund(w.db, id, spaceId) then (w, None)
    else
      var (w1, ok) := RefundOne(w, id, w.db.rows[id].intent.value);
      (w1, Some(ok))
  }
}
