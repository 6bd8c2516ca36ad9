/** Deleting a resource: nothing on it stays bookable, and the preview says what the delete does. */
module RemoveProofs {
  import opened Schema
  import opened StripeCalls
  import opened Deletion
  import opened Protocol
  import opened DeletionProofs

  lemma ReadyToSettle(t: World, target: Target, spaceId: Id, now: Time)
    requires Inv(t)
    ensures var u := t.(db := RemoveTx(t.db, target, spaceId, now));
            var active := ActiveIds(t.db, spaceId, target, now);
            Ascending(active) && AllToSettle(u, t.db.rows, active)
  {
  }

  lemma RemoveKeeps(w: World, target: Target, spaceId: Id, confirm: bool)
    requires Inv(w)
    ensures var v := Remove(w, target, spaceId, confirm).0; Inv(v) && Evolves(w, v)
  {
    TurnKeeps(w);
    var t, v := Turn(w), Remove(w, target, spaceId, confirm).0;
    if v != t {
      SettleTx(t, target, spaceId, w.env.now);
      EvolvesTrans(w, t, v);
    }
  }

  /** `retryRefund` keeps everything, and writes only its own row. */
  lemma RetryRefundKeeps(w: World, id: Id, spaceId: Id)
    requires Inv(w)
    ensures var (v, a) := RetryRefund(w, id, spaceId);
            && Inv(v) && Evolves(w, v)
            && (a.None? ==> v == w)
            && (a.Some? ==> OneRow(w, v, id) && Rank(w.db.rows[id].status) == 2)
            && (a == Some(true) && !v.env.halted ==>
                  v.db.rows[id].status.REFUNDED? && v.db.rows[id].refundedCents == w.db.rows[id].amountCents)
  {
    var (v, a) := RetryRefund(w, id, spaceId);
    if a.Some? {
      var p := w.db.rows[id].intent.value;
      RefundOneKeeps(w, id, p);
      RefundOneFrame(w, id, p);
      RowOf(v, id);
    } else {
      EvolvesRefl(w);
    }
  }

  // --------------------------------------------------------------- covers

  /** A booking that may still stand on a resource deleted at `now`: over, or a hold whose deadline had passed. */
  ghost predicate Residue(b: Booking, now: Time) {
    b.end <= now || (Hold(b.status) && b.holdExpiresAt.Some? && b.holdExpiresAt.value <= now)
  }

  ghost predicate ResidueOnly(was: Database, v: Database, target: Target, now: Time) {
    && (forall r | r in was.items :: Within(was, target, r) ==> DeletedItem(v, r))
    && (forall id | id in v.rows && Within(was, target, v.rows[id].resource) && v.rows[id].cancelledAt.None? ::
          Residue(v.rows[id], now))
  }

  lemma TxCovers(t: World, target: Target, spaceId: Id, now: Time)
    requires Inv(t) && TargetLive(t.db, target, spaceId)
    ensures ResidueOnly(t.db, RemoveTx(t.db, target, spaceId, now), target, now)
  {
    var x := RemoveTx(t.db, target, spaceId, now);
    forall id | id in x.rows && Within(t.db, target, x.rows[id].resource) && x.rows[id].cancelledAt.None?
      ensures Residue(x.rows[id], now)
    {
      RowOf(t, id);
      assert id !in ActiveSet(t.db, spaceId, target, now);
    }
  }

  lemma SettleCovers(was: Database, u: World, v: World, target: Target, now: Time, ids: seq<Id>)
    requires ResidueOnly(was, u.db, target, now) && Evolves(u, v) && Untouched(u, v, ids)
    requires forall id | id in ids && id in u.db.rows :: u.db.rows[id].cancelledAt.Some?
    ensures ResidueOnly(was, v.db, target, now)
  {
    forall id | id in v.db.rows && Within(was, target, v.db.rows[id].resource) && v.db.rows[id].cancelledAt.None?
      ensures Residue(v.db.rows[id], now)
    {
      assert RowStep(u.db.rows[id], v.db.rows[id]);
      assert id !in ids;
    }
  }

  /** A delete either leaves the database alone or takes the whole subtree with it: right afterwards, whatever
      happens during the settlement, only past bookings and lapsed holds still stand there. */
  lemma RemoveCovers(w: World, target: Target, spaceId: Id, confirm: bool)
    requires Inv(w)
    ensures var (v, out) := Remove(w, target, spaceId, confirm);
            && (v.db == w.db || ResidueOnly(w.db, v.db, target, w.env.now))
            && (out.Deleted? ==> ResidueOnly(w.db, v.db, target, w.env.now))
  {
    hide Inv, Evolves, ResidueOnly, Within;
    TurnKeeps(w);
    var now, t := w.env.now, Turn(w);
    if !t.env.halted && TargetLive(t.db, target, spaceId) {
      var u := t.(db := RemoveTx(t.db, target, spaceId, now));
      var active := ActiveIds(t.db, spaceId, target, now);
      TxCovers(t, target, spaceId, now);
      SettleTx(t, target, spaceId, now);
      SettleCovers(w.db, u, Settle(u, t.db.rows, active, Refunds(0, 0, 0)).0, target, now, active);
    }
  }

  /** The settlement that follows the transaction. */
  lemma SettleTx(t: World, target: Target, spaceId: Id, now: Time)
    requires Inv(t) && TargetLive(t.db, target, spaceId)
    ensures var u := t.(db := RemoveTx(t.db, target, spaceId, now));
            var active := ActiveIds(t.db, spaceId, target, now);
            var v := Settle(u, t.db.rows, active, Refunds(0, 0, 0)).0;
            && Inv(v) && Evolves(t, v) && Evolves(u, v) && Untouched(u, v, active)
  {
    var u := t.(db := RemoveTx(t.db, target, spaceId, now));
    var active := ActiveIds(t.db, spaceId, target, now);
    RemoveTxKeeps(t, target, spaceId, now);
    ReadyToSettle(t, target, spaceId, now);
    SettleKeeps(u, t.db.rows, active, Refunds(0, 0, 0));
    EvolvesTrans(t, u, Settle(u, t.db.rows, active, Refunds(0, 0, 0)).0);
  }

  /** And nothing else goes with it: the whole subtree gets one and the same timestamp, every other zone, desk and
      room stays, and so does every booking that is over, already cancelled, a lapsed hold, or elsewhere. */
  lemma RemoveSpares(w: World, target: Target, spaceId: Id, confirm: bool, id: Id, r: Resource)
    requires Inv(w) && Remove(w, target, spaceId, confirm).1.Deleted?
    ensures var v := Remove(w, target, spaceId, confirm).0;
            && (r in w.db.items ==>
                  r in v.db.items
                  && v.db.items[r] == if Within(w.db, target, r) then w.db.items[r].(deletedAt := Some(w.env.now)) else w.db.items[r])
            && (target.WholeZone? ==>
                  target.zoneId in w.db.zones
                  && v.db.zones == w.db.zones[target.zoneId := w.db.zones[target.zoneId].(deletedAt := Some(w.env.now))])
            && (target.OneItem? ==> v.db.zones == w.db.zones)
            && (id in w.db.rows ==>
                  var b := w.db.rows[id];
                  Residue(b, w.env.now) || b.cancelledAt.Some? || !Within(w.db, target, b.resource)
                  ==> id in v.db.rows && v.db.rows[id] == b)
  {
    hide RowsOk, LedgerOk, TreeOk, NoOverlap, RowsForward, TreeForward, StripeForward, AttachForward, DatesForward;
    TurnKeeps(w);
    var t := Turn(w);
    SettleTx(t, target, spaceId, w.env.now);
    if id in w.db.rows {
      RowOf(w, id);
      assert id in ActiveIds(t.db, spaceId, target, w.env.now) ==> id in ActiveSet(t.db, spaceId, target, w.env.now);
    }
  }

  /** And so it stays: along any later run no booking is added there, none is revived, and no lapsed hold gets
      a new deadline; a lapsed hold can only still be found paid. */
  lemma StaysCovered(was: Database, v: World, z: World, target: Target, now: Time, id: Id)
    requires Inv(v) && Inv(z) && Evolves(v, z) && ResidueOnly(was, v.db, target, now)
    requires id in z.db.rows && Within(was, target, z.db.rows[id].resource) && z.db.rows[id].cancelledAt.None?
    ensures id in v.db.rows && Residue(v.db.rows[id], now)
    ensures Residue(z.db.rows[id], now) || (z.db.rows[id].status.PAID? && Hold(v.db.rows[id].status))
  {
    assert DeletedItem(v.db, z.db.rows[id].resource);
    assert id in v.db.rows;
    assert RowStep(v.db.rows[id], z.db.rows[id]) && Frozen(v.db, v.db.rows[id], z.db.rows[id]);
    RowOf(z, id);
    RowOf(v, id);
  }

  // -------------------------------------------------------------- preview

  function HowMany(rows: map<Id, Booking>, ids: seq<Id>, s: Status): nat
    requires forall i | 0 <= i < |ids| :: ids[i] in rows
    decreases ids
  {
    if ids == [] then 0 else HowMany(rows, ids[1..], s) + if rows[ids[0]].status == s then 1 else 0
  }

  /** The preview counts what it shows: each number is how often its statuses occur. */
  lemma {:induction false} ImpactAddsUp(rows: map<Id, Booking>, ids: seq<Id>)
    requires forall i | 0 <= i < |ids| :: ids[i] in rows && Rank(rows[ids[i]].status) <= 1
    ensures var m := BuildImpact(rows, ids);
            && m.count == |ids| && m.count == m.paid + m.unpaid + m.holds
            && m.paid == HowMany(rows, ids, PAID) && m.unpaid == HowMany(rows, ids, UNPAID)
            && m.holds == HowMany(rows, ids, PENDING) + HowMany(rows, ids, FAILED)
    decreases ids
  {
    if ids != [] { ImpactAddsUp(rows, ids[1..]); }
  }

  /** Holds whose money slipped in before the cancellation. */
  function Late(was: map<Id, Booking>, rows: map<Id, Booking>, ids: seq<Id>): nat
    requires forall i | 0 <= i < |ids| :: ids[i] in was && ids[i] in rows
    decreases ids
  {
    if ids == [] then 0
    else Late(was, rows, ids[1..]) + if Hold(was[ids[0]].status) && Money(rows[ids[0]].status) then 1 else 0
  }

  lemma {:induction false} ReportAgrees(was: map<Id, Booking>, v: World, ids: seq<Id>, acc: Refunds)
    requires AllSettled(v, was, ids) && RowsOk(v)
    requires forall i | 0 <= i < |ids| :: Rank(was[ids[i]].status) <= 1
    ensures var total := CountRows(acc, v.db.rows, ids);
            var m := BuildImpact(was, ids);
            var late := Late(was, v.db.rows, ids);
            && total.succeeded + total.failed == acc.succeeded + acc.failed + m.paid + late
            && total.failed >= acc.failed
            && (total.failed == acc.failed && late == 0 ==>
                  total.refundedCents == acc.refundedCents + m.refundTotalCents)
    decreases ids
  {
    if ids != [] {
      var b := v.db.rows[ids[0]];
      assert SettledRow(was[ids[0]], b) && RowOk(ids[0], b, v.db, v.stripe, v.env.now);
      assert forall i | 0 <= i < |ids[1..]| :: ids[1..][i] == ids[i + 1];
      ReportAgrees(was, v, ids[1..], CountRow(acc, b));
    }
  }

  /** The preview counts the bookings the delete would cancel. */
  lemma PreviewCounts(w: World, target: Target, spaceId: Id)
    requires Inv(w) && GetImpact(w, target, spaceId).Some?
    ensures var m := GetImpact(w, target, spaceId).value;
            var ids := ActiveIds(w.db, spaceId, target, w.env.now);
            && m.count == |ids| == m.paid + m.unpaid + m.holds
            && m.paid == HowMany(w.db.rows, ids, PAID) && m.unpaid == HowMany(w.db.rows, ids, UNPAID)
            && m.holds == HowMany(w.db.rows, ids, PENDING) + HowMany(w.db.rows, ids, FAILED)
  {
    hide Inv, TargetLive, Within;
    ImpactAddsUp(w.db.rows, ActiveIds(w.db, spaceId, target, w.env.now));
  }

  /** Preview and delete, on the same state and time: the delete answers 404 exactly when the preview does, and
      without a confirmation it answers with the preview and changes nothing. */
  lemma PreviewRefuses(w: World, target: Target, spaceId: Id, confirm: bool)
    requires Inv(w) && !Turn(w).env.halted
    ensures var impact := GetImpact(w, target, spaceId);
            && (impact.None? <==> Remove(w, target, spaceId, confirm).1.Missing?)
            && (impact.Some? && impact.value.count > 0 && !confirm ==>
                  Remove(w, target, spaceId, confirm) == (Turn(w), ActiveBookings(impact.value)) && Turn(w).db == w.db)
  {
    hide Inv, Evolves, Settle, RemoveTx, TargetLive, Within, Drift;
    TurnKeeps(w);
    if GetImpact(w, target, spaceId).Some? { PreviewCounts(w, target, spaceId); }
  }

  /** Preview and confirmed delete: it cancels exactly the previewed bookings. */
  lemma PreviewCancels(w: World, target: Target, spaceId: Id)
    requires Inv(w) && GetImpact(w, target, spaceId).Some? && !Turn(w).env.halted
    ensures var v := Remove(w, target, spaceId, true).0;
            && v.db.rows.Keys == w.db.rows.Keys
            && (forall id | id in w.db.rows ::
                  v.db.rows[id].cancelledAt != w.db.rows[id].cancelledAt
                  <==> id in ActiveSet(w.db, spaceId, target, w.env.now))
            && GetImpact(w, target, spaceId).value.count == |ActiveIds(w.db, spaceId, target, w.env.now)|
  {
    hide RowsOk, LedgerOk, TreeOk, NoOverlap, Evolves, Settle, RemoveTx, TargetLive, Active, ActiveIds, BuildImpact, Drift;
    var t := Turn(w);
    TurnKeeps(w);
    PreviewCounts(w, target, spaceId);
    SettleTx(t, target, spaceId, w.env.now);
    var u := t.(db := RemoveTx(t.db, target, spaceId, w.env.now));
    CancelsExactly(w, u, Remove(w, target, spaceId, true).0, target, spaceId);
  }

  /** Preview and report: the refunds made and missed add up to the previewed payments plus the holds that were
      paid late, and the money sent back is the previewed total when none failed and none came late. */
  lemma PreviewReports(w: World, target: Target, spaceId: Id)
    requires Inv(w) && GetImpact(w, target, spaceId).Some?
    ensures var m := GetImpact(w, target, spaceId).value;
            var (v, out) := Remove(w, target, spaceId, true);
            var ids := ActiveIds(w.db, spaceId, target, w.env.now);
            out.Deleted? ==>
              && out.cancelledBookings == m.count
              && (forall i | 0 <= i < |ids| :: ids[i] in v.db.rows)
              && out.refunds.succeeded + out.refunds.failed == m.paid + Late(w.db.rows, v.db.rows, ids)
              && (out.refunds.failed == 0 && Late(w.db.rows, v.db.rows, ids) == 0 ==>
                    out.refunds.refundedCents == m.refundTotalCents)
  {
    var now, t := w.env.now, Turn(w);
    TurnKeeps(w);
    var active := ActiveIds(w.db, spaceId, target, now);
    ImpactAddsUp(w.db.rows, active);
    if !t.env.halted {
      var u := t.(db := RemoveTx(t.db, target, spaceId, now));
      var acc := Refunds(0, 0, 0);
      RemoveTxKeeps(t, target, spaceId, now);
      ReadyToSettle(t, target, spaceId, now);
      SettleReports(u, t.db.rows, active, acc);
      SettleTx(t, target, spaceId, now);
      var v := Settle(u, t.db.rows, active, acc).0;
      if !v.env.halted { ReportAgrees(t.db.rows, v, active, acc); }
    }
  }

  lemma CancelsExactly(w: World, u: World, v: World, target: Target, spaceId: Id)
    requires RowsOk(w) && u.db == RemoveTx(w.db, target, spaceId, w.env.now)
    requires Evolves(u, v) && Untouched(u, v, ActiveIds(w.db, spaceId, target, w.env.now))
    ensures v.db.rows.Keys == w.db.rows.Keys
    ensures forall id | id in w.db.rows ::
              v.db.rows[id].cancelledAt != w.db.rows[id].cancelledAt
              <==> id in ActiveSet(w.db, spaceId, target, w.env.now)
  {
    hide RowOk, TreeForward, StripeForward, Frozen;
    var active := ActiveIds(w.db, spaceId, target, w.env.now);
    forall id | id in w.db.rows
      ensures v.db.rows[id].cancelledAt != w.db.rows[id].cancelledAt
              <==> id in ActiveSet(w.db, spaceId, target, w.env.now)
    {
      assert id < w.db.nextRow;
      if id in ActiveSet(w.db, spaceId, target, w.env.now) {
        assert RowStep(u.db.rows[id], v.db.rows[id]);
      } else {
        assert id !in active;
      }
    }
  }
}
