/** What deletes and refunds do, in terms of the fields they read and write. */
module DeletionEffects {
  import opened Schema
  import opened StripeCalls
  import opened Deletion
  import opened Protocol
  import opened CreateEffects

  // ---------------------------------------------------------------- targets

  predicate Exists(db: Database, target: Target, spaceId: Id) {
    match target
    case OneItem(r) => LiveHere(db, r, spaceId)
    case WholeZone(z) => z in db.zones && db.zones[z].deletedAt.None? && db.zones[z].spaceId == spaceId
  }

  /** The desks and rooms that go with a target: itself, or all live ones of the zone. */
  predicate GoesAlong(db: Database, target: Target, r: Resource) {
    r in db.items && db.items[r].deletedAt.None?
    && (target == OneItem(r) || target == WholeZone(db.items[r].zoneId))
  }

  /** The bookings a delete at `now` cancels: ahead, not cancelled, and paid for, unpaid, or held. */
  predicate Upcoming(db: Database, spaceId: Id, target: Target, now: Time, b: Booking) {
    && GoesAlong(db, target, b.resource) && b.spaceId == spaceId
    && b.cancelledAt.None? && b.end > now
    && (b.status in {PAID, UNPAID}
        || (b.status in {PENDING, FAILED} && b.holdExpiresAt.Some? && b.holdExpiresAt.value > now))
  }

  /** The preview and the delete speak of exactly these. */
  lemma ActiveMeans(w: World, target: Target, spaceId: Id, now: Time, id: Id)
    requires Inv(w)
    ensures id in ActiveIds(w.db, spaceId, target, now)
      <==> id in w.db.rows && Upcoming(w.db, spaceId, target, now, w.db.rows[id])
  {
    if id in w.db.rows { RowOf(w, id); }
  }

  lemma TargetMeans(db: Database, target: Target, spaceId: Id)
    ensures TargetLive(db, target, spaceId) <==> Exists(db, target, spaceId)
  {
  }

  /** How a delete answers: not found exactly without a live target in the space, a conflict exactly when there are
      upcoming bookings and no confirmation; in both cases nothing is written. With nothing to cancel the
      confirmation makes no difference. */
  lemma RemoveAnswers(w: World, target: Target, spaceId: Id, confirm: bool)
    requires Inv(w) && !Turn(w).env.halted
    ensures var (v, out) := Remove(w, target, spaceId, confirm);
            var some := exists id | id in w.db.rows :: Upcoming(w.db, spaceId, target, w.env.now, w.db.rows[id]);
            && (out.Missing? <==> !Exists(w.db, target, spaceId))
            && (out.ActiveBookings? <==> Exists(w.db, target, spaceId) && some && !confirm)
            && (out.Missing? || out.ActiveBookings? ==> v.db == w.db)
            && (out.Stopped? <==> Exists(w.db, target, spaceId) && (confirm || !some) && v.env.halted)
            && (out.Deleted? ==> out.cancelledBookings == |ActiveIds(w.db, spaceId, target, w.env.now)|)
            && (!some ==> Remove(w, target, spaceId, false) == Remove(w, target, spaceId, true))
  {
    hide Inv, Evolves, Settle, RemoveTx, ActiveIds, BuildImpact, Upcoming, TargetLive, Exists, Drift;
    TurnKeeps(w);
    TargetMeans(w.db, target, spaceId);
    var active := ActiveIds(w.db, spaceId, target, w.env.now);
    if id :| id in w.db.rows && Upcoming(w.db, spaceId, target, w.env.now, w.db.rows[id]) {
      ActiveMeans(w, target, spaceId, w.env.now, id);
    }
    if active != [] { ActiveMeans(w, target, spaceId, w.env.now, active[0]); }
  }

  // ------------------------------------------------------------ transaction

  /** What the transaction writes: the time of the delete on the target and all that goes along, and on every upcoming
      booking the cancellation, no hold, and a pending refund if it was paid. Nothing else. */
  lemma TransactionEffect(w: World, target: Target, spaceId: Id, now: Time, id: Id, r: Resource, z: Id)
    requires Inv(w)
    ensures var x := RemoveTx(w.db, target, spaceId, now);
            && x.nextRow == w.db.nextRow && x.spaces == w.db.spaces
            && x.rows.Keys == w.db.rows.Keys && x.items.Keys == w.db.items.Keys && x.zones.Keys == w.db.zones.Keys
            && (id in w.db.rows ==>
                  var b := w.db.rows[id];
                  x.rows[id] ==
                    if !Upcoming(w.db, spaceId, target, now, b) then b
                    else if b.status.PAID? then b.(status := REFUND_PENDING, cancelledAt := Some(now), holdExpiresAt := None)
                    else b.(cancelledAt := Some(now), holdExpiresAt := None))
            && (r in w.db.items ==>
                  x.items[r] == if GoesAlong(w.db, target, r) then w.db.items[r].(deletedAt := Some(now)) else w.db.items[r])
            && (z in w.db.zones ==>
                  x.zones[z] == if target == WholeZone(z) then w.db.zones[z].(deletedAt := Some(now)) else w.db.zones[z])
  {
  }

  // ---------------------------------------------------------------- refunds

  /** A refund is taken as made exactly when Stripe answers that it succeeded, is pending, or needs an action; then the
      row records its id and amount. A failed refund, or no answer, leaves it as failed. */
  lemma RefundOneEffect(w: World, id: Id, p: Id)
    requires id in w.db.rows
    ensures var (v, ok) := RefundOne(w, id, p);
            var answer := RefundIntent(w, p, id).1;
            && (ok <==> answer.Returned? && answer.value.status in {RefundSucceeded, RefundUnderWay, RefundNeedsAction})
            && (answer.Returned? && answer.value.status.RefundDeclined? ==> !ok)
            && v.db == (if v.env.halted then w.db
                        else w.db.(rows := w.db.rows[id :=
                          if ok then w.db.rows[id].(status := REFUNDED, refundId := Some(answer.value.id),
                                                    refundedCents := Some(answer.value.amountCents))
                          else w.db.rows[id].(status := REFUND_FAILED)]))
  {
    hide RefundIntent;
    var w1 := RefundIntent(w, p, id).0;
    assert w1.db == w.db by { RefundLeavesTables(w, p, id); }
  }

  lemma RefundLeavesTables(w: World, p: Id, id: Id)
    ensures RefundIntent(w, p, id).0.db == w.db
  {
  }

  /** Which refunds may be retried; any other request changes nothing. */
  lemma RetryRefundRefuses(w: World, id: Id, spaceId: Id)
    ensures var (v, a) := RetryRefund(w, id, spaceId);
            && (a.Some? <==> id in w.db.rows && w.db.rows[id].spaceId == spaceId && w.db.rows[id].cancelledAt.Some?
                             && w.db.rows[id].status in {REFUND_FAILED, REFUND_PENDING} && w.db.rows[id].intent.Some?)
            && (a.None? ==> v == w)
  {
    hide RefundOne;
  }

  /** What becomes of a cancelled hold, by the answer to its cancel: a cancelled intent fails it, `other` and an error
      leave it, a payment that slipped in is dated now and refunded. */
  lemma ReleasePendingEffect(w: World, id: Id, p: Id)
    requires id in w.db.rows
    ensures var (w1, out) := CancelIntent(w, p);
            var v := ReleasePending(w, id, p);
            && (out.Threw? || out.value.Other? ==> v.db == w.db)
            && (out.Returned? && out.value.WasCanceled? ==>
                  v.db == if v.env.halted then w.db else w.db.(rows := w.db.rows[id := w.db.rows[id].(status := FAILED)]))
            && (out.Returned? && out.value.WasSucceeded? ==>
                  var late := MarkLatePaid(w1, id);
                  && v == RefundOne(late, id, p).0
                  && late.db == if late.env.halted then w.db
                                else w.db.(rows := w.db.rows[id := w.db.rows[id].(
                                  status := REFUND_PENDING, paidAt := Some(late.env.now))]))
  {
    hide CancelIntent, RefundOne;
    CancelLeavesTables(w, p);
  }

  lemma CancelLeavesTables(w: World, p: Id)
    ensures CancelIntent(w, p).0.db == w.db
  {
  }
}
