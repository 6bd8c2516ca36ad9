/** What delete-and-refund keeps, and that its report agrees with the rows it leaves behind. */
module DeletionProofs {
  import opened Schema
  import opened StripeCalls
  import opened Bookings
  import opened Deletion
  import opened Protocol

  // ---------------------------------------------------------- transaction

  lemma SoftDeleteTree(db: Database, target: Target, spaceId: Id, now: Time)
    requires TreeOk(db) && TargetLive(db, target, spaceId)
    ensures TreeOk(SoftDelete(db, target, now)) && TreeForward(db, SoftDelete(db, target, now))
    ensures forall r | Within(db, target, r) :: DeletedItem(SoftDelete(db, target, now), r)
  {
    var x := SoftDelete(db, target, now);
    forall r | r in x.items && x.items[r].deletedAt.None? ensures x.zones[x.items[r].zoneId].deletedAt.None? {
      assert r in db.items && !Within(db, target, r);
    }
  }

  lemma CancelledOk(w: World, id: Id, now: Time)
    requires Inv(w) && id in w.db.rows && w.db.rows[id].cancelledAt.None? && Rank(w.db.rows[id].status) <= 1
    requires DeletedItem(w.db, w.db.rows[id].resource)
    ensures var b, c := w.db.rows[id], Cancelled(w.db.rows[id], now);
            RowOk(id, c, w.db, w.stripe, w.env.now) && RowStep(b, c) && Frozen(w.db, b, c)
  {
    RowOf(w, id);
  }

  lemma CancelRowsKeeps(w: World, ids: set<Id>, now: Time)
    requires Inv(w)
    requires forall id | id in ids && id in w.db.rows ::
               && w.db.rows[id].cancelledAt.None? && Rank(w.db.rows[id].status) <= 1
               && DeletedItem(w.db, w.db.rows[id].resource)
    ensures var v := w.(db := CancelRows(w.db, ids, now)); Inv(v) && Evolves(w, v)
  {
    hide NoOverlap, Covered, OwnIntent, RefundRecorded, StatusOk;
    var v := w.(db := CancelRows(w.db, ids, now));
    forall id | id in v.db.rows
      ensures id < v.db.nextRow && RowOk(id, v.db.rows[id], v.db, v.stripe, v.env.now)
      ensures RowStep(w.db.rows[id], v.db.rows[id]) && Frozen(w.db, w.db.rows[id], v.db.rows[id])
    {
      RowOf(w, id);
      if id in ids { CancelledOk(w, id, now); }
    }
    forall p | p in v.stripe.intents ensures p < v.stripe.nextIntent && IntentOk(v.stripe.intents[p], v.db) {
      assert IntentOk(w.stripe.intents[p], w.db);
    }
    CancelApart(w.db.rows, v.db.rows);
  }

  lemma RemoveTxKeeps(w: World, target: Target, spaceId: Id, now: Time)
    requires Inv(w) && TargetLive(w.db, target, spaceId)
    ensures var v := w.(db := RemoveTx(w.db, target, spaceId, now)); Inv(v) && Evolves(w, v)
  {
    hide RowsOk, LedgerOk, NoOverlap, RowsForward;
    var x := SoftDelete(w.db, target, now);
    SoftDeleteTree(w.db, target, spaceId, now);
    TreeMoves(w, x);
    var u := w.(db := x);
    var ids := ActiveSet(w.db, spaceId, target, now);
    CancelRowsKeeps(u, ids, now);
    EvolvesTrans(w, u, u.(db := CancelRows(x, ids, now)));
  }

  lemma CancelApart(x: map<Id, Booking>, y: map<Id, Booking>)
    requires NoOverlap(x) && y.Keys == x.Keys
    requires forall id | id in x :: RowStep(x[id], y[id])
    ensures NoOverlap(y)
  {
    forall a, b | a in y && b in y && a != b && y[a].resource == y[b].resource
      ensures !Overlap(y[a].start, y[a].end, y[b].start, y[b].end)
    {
      assert RowStep(x[a], y[a]) && RowStep(x[b], y[b]);
    }
  }

  // --------------------------------------------------------------- refunds

  ghost predicate RefundDue(b: Booking, p: Id) {
    b.cancelledAt.Some? && (b.status.REFUND_PENDING? || b.status.REFUND_FAILED?) && b.intent == Some(p)
  }

  /** Only row `id` may differ, and not in its intent or its price. */
  ghost predicate OneRow(w: World, v: World, id: Id) {
    && id in w.db.rows && id in v.db.rows && v.db == PutRow(w.db, id, v.db.rows[id])
    && v.db.rows[id].intent == w.db.rows[id].intent && v.db.rows[id].amountCents == w.db.rows[id].amountCents
  }

  lemma RecordRefundKeeps(w: World, id: Id, p: Id, answer: Reply<Refund>)
    requires Inv(w) && id in w.db.rows && RefundDue(w.db.rows[id], p)
    requires answer.Returned? ==>
               id in w.stripe.refunds && w.stripe.refunds[id] == answer.value && answer.value.intent == p
    ensures var v := RecordRefund(w, id, answer); Inv(v) && Evolves(w, v)
  {
    hide RowsOk, LedgerOk, TreeOk, NoOverlap, RowsForward, TreeForward, AttachForward, DatesForward;
    TurnKeeps(w);
    var t := Turn(w);
    if !t.env.halted {
      var b := t.db.rows[id];
      RowOf(t, id);
      if answer.Returned? {
        RefundOf(t, id);
      }
      var c := if answer.Returned? && Issued(answer.value.status) then Refunded(b, answer.value) else b.(status := REFUND_FAILED);
      PutKeeps(t, id, c);
      EvolvesTrans(w, t, RecordRefund(w, id, answer));
    }
  }

  lemma RefundOneKeeps(w: World, id: Id, p: Id)
    requires Inv(w) && id in w.db.rows && RefundDue(w.db.rows[id], p)
    ensures var v := RefundOne(w, id, p).0; Inv(v) && Evolves(w, v)
  {
    hide RowsOk, LedgerOk, TreeOk, NoOverlap, RowsForward, TreeForward, AttachForward, DatesForward;
    RowOf(w, id);
    RefundIntentKeeps(w, p, id);
    var (w1, answer) := RefundIntent(w, p, id);
    RecordRefundKeeps(w1, id, p, answer);
    EvolvesTrans(w, w1, RecordRefund(w1, id, answer));
  }

  /** `refundOne` answers what it wrote: REFUNDED on success, REFUND_FAILED otherwise, and only on its row. */
  lemma RefundOneFrame(w: World, id: Id, p: Id)
    requires id in w.db.rows
    ensures var (v, ok) := RefundOne(w, id, p);
            && OneRow(w, v, id)
            && (!v.env.halted ==> v.db.rows[id].status == if ok then REFUNDED else REFUND_FAILED)
            && (w.env.halted ==> v == w)
  {
    var (w1, answer) := RefundIntent(w, p, id);
    assert w1.db == w.db;
    var t := Turn(w1);
    if t.env.halted { assert PutRow(w.db, id, w.db.rows[id]).rows == w.db.rows; }
  }

  lemma MarkLateKeeps(w: World, id: Id, p: Id)
    requires Inv(w) && id in w.db.rows && w.db.rows[id].cancelledAt.Some? && Hold(w.db.rows[id].status)
    requires w.db.rows[id].intent == Some(p) && p in w.stripe.intents && w.stripe.intents[p].status.Succeeded?
    ensures var v := MarkLatePaid(w, id);
            && Inv(v) && Evolves(w, v) && OneRow(w, v, id)
            && (!v.env.halted ==> RefundDue(v.db.rows[id], p))
            && (v.env.halted ==> v.db == w.db)
  {
    hide RowsOk, LedgerOk, TreeOk, NoOverlap, RowsForward, TreeForward, AttachForward, DatesForward;
    TurnKeeps(w);
    var t := Turn(w);
    assert IntentStep(w.stripe.intents[p], t.stripe.intents[p]);
    RowOf(t, id);
    if t.env.halted {
      assert PutRow(w.db, id, w.db.rows[id]).rows == w.db.rows;
    } else {
      PutKeeps(t, id, t.db.rows[id].(status := REFUND_PENDING, paidAt := Some(t.env.now)));
      EvolvesTrans(w, t, MarkLatePaid(w, id));
    }
  }

  lemma MarkReleasedKeeps(w: World, id: Id)
    requires Inv(w) && id in w.db.rows && w.db.rows[id].cancelledAt.Some? && Hold(w.db.rows[id].status)
    ensures var v := MarkReleased(w, id);
            && Inv(v) && Evolves(w, v) && OneRow(w, v, id) && Hold(v.db.rows[id].status)
  {
    hide RowsOk, LedgerOk, TreeOk, NoOverlap, RowsForward, TreeForward, AttachForward, DatesForward;
    TurnKeeps(w);
    var t := Turn(w);
    RowOf(t, id);
    if t.env.halted {
      assert PutRow(w.db, id, w.db.rows[id]).rows == w.db.rows;
    } else {
      PutKeeps(t, id, t.db.rows[id].(status := FAILED));
      EvolvesTrans(w, t, MarkReleased(w, id));
    }
  }

  /** A halted process refunds nothing more. */
  lemma RefundHalted(w: World, id: Id, p: Id)
    requires w.env.halted
    ensures RefundOne(w, id, p).0 == w
  {
  }

  /** What releasing a cancelled hold leaves behind: a hold, or a refund with its result. */
  ghost predicate ReleasedRow(b: Booking, halted: bool) {
    !halted ==> Hold(b.status) || b.status.REFUNDED? || b.status.REFUND_FAILED?
  }

  lemma LateRefundKeeps(w: World, id: Id, p: Id)
    requires Inv(w) && id in w.db.rows && w.db.rows[id].cancelledAt.Some? && Hold(w.db.rows[id].status)
    requires w.db.rows[id].intent == Some(p) && p in w.stripe.intents && w.stripe.intents[p].status.Succeeded?
    ensures var v := RefundOne(MarkLatePaid(w, id), id, p).0; Inv(v) && Evolves(w, v)
  {
    hide RowsOk, LedgerOk, TreeOk, NoOverlap, RowsForward, TreeForward, AttachForward, DatesForward;
    MarkLateKeeps(w, id, p);
    var w1 := MarkLatePaid(w, id);
    if w1.env.halted {
      RefundHalted(w1, id, p);
    } else {
      RefundOneKeeps(w1, id, p);
      EvolvesTrans(w, w1, RefundOne(w1, id, p).0);
    }
  }

  lemma LateRefundFrame(w: World, id: Id, p: Id)
    requires id in w.db.rows
    ensures var v := RefundOne(MarkLatePaid(w, id), id, p).0;
            && OneRow(w, v, id)
            && ReleasedRow(v.db.rows[id], v.env.halted)
            && (!v.env.halted ==> v.db.rows[id].status.REFUNDED? || v.db.rows[id].status.REFUND_FAILED?)
  {
    hide Drift, RefundOne;
    var w1 := MarkLatePaid(w, id);
    assert Turn(w).db == w.db;
    if w1.env.halted { assert PutRow(w.db, id, w.db.rows[id]).rows == w.db.rows; }
    RefundOneFrame(w1, id, p);
  }

  /** A held booking that was cancelled is released, or the money that slipped in is picked up as a refund. If
      Stripe answered, a row left as a hold has an intent that is cancelled for ever. */
  lemma ReleasePendingKeeps(w: World, id: Id, p: Id)
    requires Inv(w) && id in w.db.rows && w.db.rows[id].cancelledAt.Some? && Hold(w.db.rows[id].status)
    requires w.db.rows[id].intent == Some(p)
    ensures var v := ReleasePending(w, id, p);
            && Inv(v) && Evolves(w, v) && OneRow(w, v, id)
            && ReleasedRow(v.db.rows[id], v.env.halted)
            && (CancelIntent(w, p).1.Returned? && !v.env.halted && Hold(v.db.rows[id].status) ==>
                  p in v.stripe.intents && v.stripe.intents[p].status.Canceled?)
  {
    hide RowsOk, LedgerOk, TreeOk, NoOverlap, RowsForward, TreeForward, AttachForward, DatesForward;
    CancelKeeps(w, p);
    var (w1, out) := CancelIntent(w, p);
    var v := ReleasePending(w, id, p);
    if out.Returned? && out.value.WasSucceeded? {
      LateRefundKeeps(w1, id, p);
      LateRefundFrame(w1, id, p);
      EvolvesTrans(w, w1, v);
    } else if out.Returned? && out.value.WasCanceled? {
      MarkReleasedKeeps(w1, id);
      EvolvesTrans(w, w1, v);
      assert IntentStep(w1.stripe.intents[p], v.stripe.intents[p]);
    } else {
      assert PutRow(w.db, id, w.db.rows[id]).rows == w.db.rows;
    }
  }

  // ---------------------------------------------------------------- settle

  /** The row of a booking the transaction cancelled, before it is settled. */
  ghost predicate ToSettle(w: World, was: Booking, id: Id) {
    && id in w.db.rows && w.db.rows[id].cancelledAt.Some?
    && w.db.rows[id].intent == was.intent && w.db.rows[id].amountCents == was.amountCents
    && (was.status.PAID? || was.status.UNPAID? || Hold(was.status))
    && w.db.rows[id].status == if was.status.PAID? then REFUND_PENDING else was.status
  }

  /** The reference: what one row left behind adds to the report. */
  function CountRow(acc: Refunds, b: Booking): Refunds {
    if b.status.REFUNDED? then Refunds(acc.succeeded + 1, acc.failed, acc.refundedCents + AmountOr0(b))
    else if b.status.REFUND_FAILED? then acc.(failed := acc.failed + 1)
    else acc
  }

  function CountRows(acc: Refunds, rows: map<Id, Booking>, ids: seq<Id>): Refunds
    requires forall i | 0 <= i < |ids| :: ids[i] in rows
    decreases ids
  {
    if ids == [] then acc else CountRows(CountRow(acc, rows[ids[0]]), rows, ids[1..])
  }

  /** How a settled booking ends when the process was not stopped. */
  ghost predicate SettledRow(was: Booking, b: Booking) {
    && b.cancelledAt.Some? && b.amountCents == was.amountCents && !b.status.REFUND_PENDING?
    && (was.status.PAID? ==> Money(b.status))
    && (was.status.UNPAID? ==> !Money(b.status))
  }

  lemma SettleOneKeeps(w: World, was: Booking, id: Id, acc: Refunds)
    requires Inv(w) && ToSettle(w, was, id)
    ensures var v := SettleOne(w, was, id, acc).0; Inv(v) && Evolves(w, v) && OneRow(w, v, id)
  {
    hide RowsOk, LedgerOk, TreeOk, NoOverlap, RowsForward, TreeForward, AttachForward, DatesForward;
    RowOf(w, id);
    if was.status.PAID? && was.intent.Some? {
      RefundOneKeeps(w, id, was.intent.value);
      RefundOneFrame(w, id, was.intent.value);
    } else if Hold(was.status) && was.intent.Some? {
      ReleasePendingKeeps(w, id, was.intent.value);
    } else {
      EvolvesRefl(w);
      assert PutRow(w.db, id, w.db.rows[id]).rows == w.db.rows;
    }
  }

  /** One booking's part of the report is what its row says afterwards. */
  lemma SettleOneReports(w: World, was: Booking, id: Id, acc: Refunds)
    requires Inv(w) && ToSettle(w, was, id)
    ensures var (v, acc1) := SettleOne(w, was, id, acc);
            id in v.db.rows && (!v.env.halted ==> acc1 == CountRow(acc, v.db.rows[id]) && SettledRow(was, v.db.rows[id]))
  {
    hide RowsOk, LedgerOk, TreeOk, NoOverlap, TreeForward, StripeForward;
    var v := SettleOne(w, was, id, acc).0;
    RowOf(w, id);
    SettleOneKeeps(w, was, id, acc);
    RowOf(v, id);
    if was.status.PAID? && was.intent.Some? {
      RefundOneFrame(w, id, was.intent.value);
    } else if Hold(was.status) && was.intent.Some? {
      ReleasePendingKeeps(w, id, was.intent.value);
    }
  }

  ghost predicate AllToSettle(w: World, was: map<Id, Booking>, ids: seq<Id>) {
    forall i | 0 <= i < |ids| :: ids[i] in was && ToSettle(w, was[ids[i]], ids[i])
  }

  lemma AllToSettleStays(w: World, v: World, was: map<Id, Booking>, ids: seq<Id>)
    requires ids != [] && Ascending(ids) && AllToSettle(w, was, ids) && OneRow(w, v, ids[0])
    ensures Ascending(ids[1..]) && AllToSettle(v, was, ids[1..])
  {
    forall i | 0 <= i < |ids[1..]| ensures ids[1..][i] in was && ToSettle(v, was[ids[1..][i]], ids[1..][i]) {
      assert ids[1..][i] == ids[i + 1] && ids[0] < ids[i + 1] && ToSettle(w, was[ids[i + 1]], ids[i + 1]);
    }
  }

  /** Rows that the rest of the loop leaves alone. */
  ghost predicate Untouched(w: World, v: World, ids: seq<Id>) {
    && v.db == w.db.(rows := v.db.rows) && v.db.rows.Keys == w.db.rows.Keys
    && forall id | id in w.db.rows ::
         v.db.rows[id].intent == w.db.rows[id].intent && (id !in ids ==> v.db.rows[id] == w.db.rows[id])
  }

  lemma {:induction false} SettleKeeps(w: World, was: map<Id, Booking>, ids: seq<Id>, acc: Refunds)
    requires Inv(w) && Ascending(ids) && AllToSettle(w, was, ids)
    ensures var v := Settle(w, was, ids, acc).0; Inv(v) && Evolves(w, v) && Untouched(w, v, ids)
    decreases ids
  {
    hide RowsOk, LedgerOk, TreeOk, NoOverlap, RowsForward, TreeForward, AttachForward, DatesForward;
    if ids == [] {
      EvolvesRefl(w);
    } else {
      var (w1, acc1) := SettleOne(w, was[ids[0]], ids[0], acc);
      SettleOneKeeps(w, was[ids[0]], ids[0], acc);
      AllToSettleStays(w, w1, was, ids);
      SettleKeeps(w1, was, ids[1..], acc1);
      EvolvesTrans(w, w1, Settle(w1, was, ids[1..], acc1).0);
    }
  }

  lemma {:induction false} SettleHalted(w: World, was: map<Id, Booking>, ids: seq<Id>, acc: Refunds)
    requires w.env.halted && forall i | 0 <= i < |ids| :: ids[i] in was
    ensures Settle(w, was, ids, acc).0 == w
    decreases ids
  {
    if ids != [] {
      var (w1, acc1) := SettleOne(w, was[ids[0]], ids[0], acc);
      assert w1 == w;
      SettleHalted(w, was, ids[1..], acc1);
    }
  }

  ghost predicate AllSettled(v: World, was: map<Id, Booking>, ids: seq<Id>) {
    forall i | 0 <= i < |ids| :: ids[i] in was && ids[i] in v.db.rows && SettledRow(was[ids[i]], v.db.rows[ids[i]])
  }

  ghost predicate Present(v: World, ids: seq<Id>) { forall i | 0 <= i < |ids| :: ids[i] in v.db.rows }

  lemma PresentCons(v: World, ids: seq<Id>)
    requires ids != [] && ids[0] in v.db.rows && Present(v, ids[1..])
    ensures Present(v, ids)
  {
    forall i | 0 <= i < |ids| ensures ids[i] in v.db.rows {
      if i > 0 { assert ids[1..][i - 1] == ids[i]; }
    }
  }

  lemma AllSettledCons(v: World, was: map<Id, Booking>, ids: seq<Id>)
    requires ids != [] && ids[0] in was && ids[0] in v.db.rows && SettledRow(was[ids[0]], v.db.rows[ids[0]])
    requires AllSettled(v, was, ids[1..])
    ensures AllSettled(v, was, ids)
  {
    forall i | 0 <= i < |ids| ensures ids[i] in was && ids[i] in v.db.rows && SettledRow(was[ids[i]], v.db.rows[ids[i]]) {
      if i > 0 { assert ids[1..][i - 1] == ids[i]; }
    }
  }

  /** The loop's three counters are exactly what a count over the rows it leaves behind gives, and every
      booking that was PAID ends REFUNDED or REFUND_FAILED. */
  lemma {:induction false} SettleReports(w: World, was: map<Id, Booking>, ids: seq<Id>, acc: Refunds)
    requires Inv(w) && Ascending(ids) && AllToSettle(w, was, ids)
    ensures var (v, total) := Settle(w, was, ids, acc);
            && Present(v, ids)
            && (!v.env.halted ==> total == CountRows(acc, v.db.rows, ids) && AllSettled(v, was, ids))
    decreases ids
  {
    hide RowsOk, LedgerOk, TreeOk, NoOverlap, RowsForward, TreeForward, AttachForward, DatesForward;
    if ids != [] {
      var id, rest := ids[0], ids[1..];
      var (w1, acc1) := SettleOne(w, was[id], id, acc);
      SettleOneKeeps(w, was[id], id, acc);
      SettleOneReports(w, was[id], id, acc);
      AllToSettleStays(w, w1, was, ids);
      SettleKeeps(w1, was, rest, acc1);
      SettleReports(w1, was, rest, acc1);
      var v := Settle(w1, was, rest, acc1).0;
      assert id !in rest;
      assert v.db.rows[id] == w1.db.rows[id];
      PresentCons(v, ids);
      if w1.env.halted { SettleHalted(w1, was, rest, acc1); }
      if !v.env.halted { AllSettledCons(v, was, ids); }
    }
  }
}
