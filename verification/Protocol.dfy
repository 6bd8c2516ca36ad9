/** The invariant of the whole booking, payment and refund protocol, the relation along which every handler
    moves the world, and how the single statements keep both. */
module Protocol {
  import opened Schema
  import opened StripeCalls
  import opened Bookings

  // ------------------------------------------------------------ invariant

  /** The intent on a row belongs to this booking, asks for exactly its price, and was attached to it. */
  ghost predicate OwnIntent(id: Id, b: Booking, s: Stripe) {
    b.intent.Some? ==>
      && b.intent.value in s.intents
      && s.intents[b.intent.value].bookingId == id
      && b.amountCents == Some(s.intents[b.intent.value].amountCents)
      && s.intents[b.intent.value].attached
  }

  /** Money is only ever recorded against an attached intent that Stripe reports succeeded. */
  ghost predicate Covered(b: Booking, s: Stripe) {
    Money(b.status) ==>
      && b.intent.Some? && b.intent.value in s.intents
      && s.intents[b.intent.value].status.Succeeded?
      && b.paidAt.Some? && b.holdExpiresAt.None?
  }

  ghost predicate StatusOk(b: Booking, now: Time) {
    && (b.status.PAID? ==> b.cancelledAt.None?)
    && (Rank(b.status) >= 2 ==> b.cancelledAt.Some?)
    && (b.cancelledAt.Some? ==> b.holdExpiresAt.None?)
    && (b.status.UNPAID? ==> b.holdExpiresAt.None? && b.intent.None?)
    && (Hold(b.status) && b.cancelledAt.None? ==> b.holdExpiresAt.Some? && b.holdExpiresAt.value <= now + HOLD_MS)
  }

  /** A REFUNDED row records the one refund its key gave, and that refund is the full amount. */
  ghost predicate RefundRecorded(id: Id, b: Booking, s: Stripe) {
    b.status.REFUNDED? ==>
      && id in s.refunds && !s.refunds[id].status.RefundDeclined?
      && b.refundId == Some(s.refunds[id].id)
      && b.refundedCents == Some(s.refunds[id].amountCents)
      && b.refundedCents == b.amountCents
  }

  ghost predicate Placed(b: Booking, db: Database) {
    && b.start < b.end
    && b.resource in db.items
    && db.items[b.resource].zoneId in db.zones
    && db.zones[db.items[b.resource].zoneId].spaceId == b.spaceId
    && (b.cancelledAt.Some? ==> db.items[b.resource].deletedAt.Some?)
  }

  /** The idempotency key of a booking was only ever used for the charge now recorded on its row. */
  ghost predicate KeyMatches(id: Id, b: Booking, s: Stripe) {
    id in s.refunds ==> Money(b.status) && b.intent == Some(s.refunds[id].intent)
  }

  /** A recorded platform fee is the fee of the price. */
  ghost predicate FeeRecorded(b: Booking) {
    b.platformFeeCents.Some? ==> b.amountCents.Some? && b.platformFeeCents == FeeOf(b.amountCents.value)
  }

  ghost predicate RowOk(id: Id, b: Booking, db: Database, s: Stripe, now: Time) {
    && OwnIntent(id, b, s) && Covered(b, s) && StatusOk(b, now)
    && RefundRecorded(id, b, s) && KeyMatches(id, b, s) && Placed(b, db) && FeeRecorded(b)
  }

  ghost predicate RowsOk(w: World) {
    forall id | id in w.db.rows :: id < w.db.nextRow && RowOk(id, w.db.rows[id], w.db, w.stripe, w.env.now)
  }

  ghost predicate IntentOk(i: Intent, db: Database) {
    && i.bookingId < db.nextRow && i.amountCents > 0
    && (i.bookingId in db.rows ==> db.rows[i.bookingId].amountCents == Some(i.amountCents))
    && (i.status.Succeeded? ==> i.attached)
    && (i.attached && i.bookingId in db.rows ==> db.rows[i.bookingId].platformFeeCents == FeeOf(i.amountCents))
  }

  /** A refund under the key of booking `id` gives back one succeeded charge of that booking, in full. */
  ghost predicate RefundOk(id: Id, r: Refund, s: Stripe) {
    && r.intent in s.intents
    && s.intents[r.intent].bookingId == id
    && s.intents[r.intent].status.Succeeded?
    && r.amountCents == s.intents[r.intent].amountCents
  }

  ghost predicate LedgerOk(w: World) {
    && (forall p | p in w.stripe.intents :: p < w.stripe.nextIntent && IntentOk(w.stripe.intents[p], w.db))
    && (forall id | id in w.stripe.refunds :: RefundOk(id, w.stripe.refunds[id], w.stripe))
  }

  /** A live desk or room never sits in a deleted zone. */
  ghost predicate TreeOk(db: Database) {
    forall r | r in db.items ::
      && db.items[r].zoneId in db.zones
      && (db.items[r].deletedAt.None? ==> db.zones[db.items[r].zoneId].deletedAt.None?)
  }

  ghost predicate NoOverlap(rows: map<Id, Booking>) {
    forall a, b | a in rows && b in rows && a != b && rows[a].resource == rows[b].resource ::
      !Overlap(rows[a].start, rows[a].end, rows[b].start, rows[b].end)
  }

  ghost predicate Inv(w: World) { RowsOk(w) && LedgerOk(w) && TreeOk(w.db) && NoOverlap(w.db.rows) }

  lemma RowOf(w: World, id: Id)
    requires Inv(w) && id in w.db.rows
    ensures id < w.db.nextRow && RowOk(id, w.db.rows[id], w.db, w.stripe, w.env.now)
  {
  }

  lemma NextIsNew(w: World)
    requires Inv(w)
    ensures w.db.nextRow !in w.db.rows && w.db.nextRow !in w.stripe.refunds
  {
    forall k | k in w.stripe.refunds ensures k < w.db.nextRow {
      assert RefundOk(k, w.stripe.refunds[k], w.stripe);
      assert IntentOk(w.stripe.intents[w.stripe.refunds[k].intent], w.db);
    }
  }

  lemma RefundOf(w: World, id: Id)
    requires Inv(w) && id in w.stripe.refunds
    ensures RefundOk(id, w.stripe.refunds[id], w.stripe)
  {
  }

  // ------------------------------------------------------------- progress

  /** What never changes about a row, and what only moves forward. */
  ghost predicate RowStep(a: Booking, b: Booking) {
    && a.resource == b.resource && a.userId == b.userId && a.spaceId == b.spaceId
    && a.start == b.start && a.end == b.end && a.createdAt == b.createdAt && a.amountCents == b.amountCents
    && Rank(a.status) <= Rank(b.status)
    && (a.status.REFUNDED? ==> b == a)
    && (a.cancelledAt.Some? ==> b.cancelledAt == a.cancelledAt)
    && (Money(a.status) ==> b.intent == a.intent)
    && (a.platformFeeCents.Some? ==> b.platformFeeCents == a.platformFeeCents)
  }

  ghost predicate DeletedItem(db: Database, r: Resource) { r in db.items && db.items[r].deletedAt.Some? }

  /** On a deleted resource no hold gets a new deadline, and none turns into a standing booking unpaid. */
  ghost predicate Frozen(db: Database, a: Booking, b: Booking) {
    DeletedItem(db, a.resource) ==>
      && (b.holdExpiresAt == a.holdExpiresAt || b.holdExpiresAt.None?)
      && (Hold(a.status) ==> !b.status.UNPAID?)
  }

  /** Only uncancelled rows under which no money was collected are ever removed. */
  ghost predicate Removable(b: Booking) { !Money(b.status) && b.cancelledAt.None? }

  ghost predicate RowsForward(x: Database, y: Database) {
    && x.nextRow <= y.nextRow
    && (forall id | id in x.rows && id in y.rows ::
          RowStep(x.rows[id], y.rows[id]) && Frozen(x, x.rows[id], y.rows[id]))
    && (forall id | id in x.rows && id !in y.rows :: Removable(x.rows[id]))
    && (forall id | id in y.rows && id !in x.rows :: x.nextRow <= id && !DeletedItem(x, y.rows[id].resource))
  }

  ghost predicate TreeForward(x: Database, y: Database) {
    && (forall z | z in x.zones :: z in y.zones && y.zones[z].spaceId == x.zones[z].spaceId
          && (x.zones[z].deletedAt.Some? ==> y.zones[z].deletedAt == x.zones[z].deletedAt))
    && (forall r | r in x.items :: r in y.items && y.items[r].zoneId == x.items[r].zoneId
          && (x.items[r].deletedAt.Some? ==> y.items[r].deletedAt == x.items[r].deletedAt))
  }

  ghost predicate StripeForward(x: Stripe, y: Stripe) {
    && IntentsGrow(x.intents, y.intents)
    && (forall id | id in x.refunds :: id in y.refunds && y.refunds[id] == x.refunds[id])
  }

  /** An intent is only attached to a booking that is there; one that is gone gets no further client secret. */
  ghost predicate AttachForward(x: World, y: World) {
    forall p | p in y.stripe.intents && y.stripe.intents[p].attached
               && !(p in x.stripe.intents && x.stripe.intents[p].attached) ::
      y.stripe.intents[p].bookingId in x.db.rows || x.db.nextRow <= y.stripe.intents[p].bookingId
  }

  /** Money recorded on the way from one instant to another carries a `paidAt` from that stretch. */
  ghost predicate Dated(a: Booking, b: Booking, since: Time, now: Time) {
    Money(b.status) ==>
      || (Money(a.status) && b.paidAt == a.paidAt)
      || (b.paidAt.Some? && since <= b.paidAt.value <= now)
  }

  ghost predicate DatesForward(x: World, y: World) {
    && (forall id | id in x.db.rows && id in y.db.rows :: Dated(x.db.rows[id], y.db.rows[id], x.env.now, y.env.now))
    && (forall id | id in y.db.rows && id !in x.db.rows ::
          && x.env.now <= y.db.rows[id].createdAt <= y.env.now
          && (Money(y.db.rows[id].status) ==> y.db.rows[id].paidAt.Some? && x.env.now <= y.db.rows[id].paidAt.value <= y.env.now))
  }

  ghost predicate Evolves(x: World, y: World) {
    && x.env.now <= y.env.now
    && StripeForward(x.stripe, y.stripe) && TreeForward(x.db, y.db) && RowsForward(x.db, y.db)
    && AttachForward(x, y) && DatesForward(x, y)
  }

  lemma StepOf(x: World, y: World, id: Id)
    requires Evolves(x, y) && id in x.db.rows
    ensures id in y.db.rows ==>
              RowStep(x.db.rows[id], y.db.rows[id]) && Frozen(x.db, x.db.rows[id], y.db.rows[id])
    ensures id !in y.db.rows ==> Removable(x.db.rows[id])
  {
  }

  lemma EvolvesRefl(w: World)
    ensures Evolves(w, w)
  {
  }

  lemma IntentsGrowTrans(a: map<Id, Intent>, b: map<Id, Intent>, c: map<Id, Intent>)
    requires IntentsGrow(a, b) && IntentsGrow(b, c)
    ensures IntentsGrow(a, c)
  {
    forall p | p in a ensures p in c && IntentStep(a[p], c[p]) {
      assert p in b && IntentStep(a[p], b[p]);
    }
  }

  lemma RowsForwardTrans(x: Database, y: Database, z: Database)
    requires forall id | id in x.rows :: id < x.nextRow
    requires TreeForward(x, y) && TreeForward(y, z) && RowsForward(x, y) && RowsForward(y, z)
    ensures RowsForward(x, z)
  {
    forall id | id in x.rows && id in z.rows
      ensures RowStep(x.rows[id], z.rows[id]) && Frozen(x, x.rows[id], z.rows[id])
    {
      assert id in y.rows;
    }
    forall id | id in x.rows && id !in z.rows ensures Removable(x.rows[id]) {
      if id in y.rows { assert RowStep(x.rows[id], y.rows[id]); }
    }
    forall id | id in z.rows && id !in x.rows ensures x.nextRow <= id && !DeletedItem(x, z.rows[id].resource) {
      if id in y.rows { assert RowStep(y.rows[id], z.rows[id]); }
    }
  }

  lemma AttachForwardTrans(x: World, y: World, z: World)
    requires IntentsGrow(x.stripe.intents, y.stripe.intents) && IntentsGrow(y.stripe.intents, z.stripe.intents)
    requires RowsForward(x.db, y.db) && AttachForward(x, y) && AttachForward(y, z)
    ensures AttachForward(x, z)
  {
    forall p | p in z.stripe.intents && z.stripe.intents[p].attached
               && !(p in x.stripe.intents && x.stripe.intents[p].attached)
      ensures z.stripe.intents[p].bookingId in x.db.rows || x.db.nextRow <= z.stripe.intents[p].bookingId
    {
      if p in y.stripe.intents { assert IntentStep(y.stripe.intents[p], z.stripe.intents[p]); }
    }
  }

  lemma DatesForwardTrans(x: World, y: World, z: World)
    requires forall id | id in x.db.rows :: id < x.db.nextRow
    requires RowsForward(x.db, y.db) && RowsForward(y.db, z.db) && DatesForward(x, y) && DatesForward(y, z)
    requires x.env.now <= y.env.now <= z.env.now
    ensures DatesForward(x, z)
  {
    forall id | id in x.db.rows && id in z.db.rows ensures Dated(x.db.rows[id], z.db.rows[id], x.env.now, z.env.now) {
      assert id in y.db.rows;
    }
    forall id | id in z.db.rows && id !in x.db.rows
      ensures x.env.now <= z.db.rows[id].createdAt <= z.env.now
      ensures Money(z.db.rows[id].status) ==> z.db.rows[id].paidAt.Some? && x.env.now <= z.db.rows[id].paidAt.value <= z.env.now
    {
      if id in y.db.rows { assert RowStep(y.db.rows[id], z.db.rows[id]); }
    }
  }

  lemma EvolvesTrans(x: World, y: World, z: World)
    requires Inv(x) && Evolves(x, y) && Evolves(y, z)
    ensures Evolves(x, z)
  {
    IntentsGrowTrans(x.stripe.intents, y.stripe.intents, z.stripe.intents);
    RowsForwardTrans(x.db, y.db, z.db);
    AttachForwardTrans(x, y, z);
    DatesForwardTrans(x, y, z);
  }

  // ------------------------------------------- the statements keep the invariant

  /** Anything Stripe does by itself: the database does not move. */
  lemma StripeMoves(w: World, v: World)
    requires Inv(w)
    requires v.db == w.db && w.env.now <= v.env.now && StripeForward(w.stripe, v.stripe) && LedgerOk(v)
    requires AttachForward(w, v)
    requires forall id | id in w.db.rows && id in v.stripe.refunds && id !in w.stripe.refunds ::
               KeyMatches(id, w.db.rows[id], v.stripe)
    ensures Inv(v) && Evolves(w, v)
  {
    forall id | id in v.db.rows ensures id < v.db.nextRow && RowOk(id, v.db.rows[id], v.db, v.stripe, v.env.now) {
      assert RowOk(id, w.db.rows[id], w.db, w.stripe, w.env.now);
    }
  }

  lemma TurnKeeps(w: World)
    requires Inv(w)
    ensures Inv(Turn(w)) && Evolves(w, Turn(w)) && Turn(w).db == w.db
    ensures w.env.halted ==> Turn(w) == w
  {
    var t := Turn(w);
    forall p | p in t.stripe.intents ensures p < t.stripe.nextIntent && IntentOk(t.stripe.intents[p], t.db) {
      assert p in w.stripe.intents && IntentOk(w.stripe.intents[p], w.db);
    }
    forall id | id in t.stripe.refunds ensures RefundOk(id, t.stripe.refunds[id], t.stripe) {
      assert RefundOk(id, w.stripe.refunds[id], w.stripe);
    }
    StripeMoves(w, t);
  }

  /** Only zones, desks, rooms and settings move. */
  lemma TreeMoves(w: World, x: Database)
    requires Inv(w) && TreeForward(w.db, x) && TreeOk(x) && x.rows == w.db.rows && x.nextRow == w.db.nextRow
    ensures Inv(w.(db := x)) && Evolves(w, w.(db := x))
  {
    hide NoOverlap;
    var v := w.(db := x);
    forall id | id in v.db.rows ensures id < v.db.nextRow && RowOk(id, v.db.rows[id], v.db, v.stripe, v.env.now) {
      RowOf(w, id);
    }
  }

  lemma PutApart(rows: map<Id, Booking>, id: Id, b: Booking)
    requires NoOverlap(rows) && id in rows && RowStep(rows[id], b)
    ensures NoOverlap(rows[id := b])
  {
  }

  lemma PutLedger(w: World, id: Id, b: Booking)
    requires LedgerOk(w) && id in w.db.rows && RowStep(w.db.rows[id], b)
    ensures LedgerOk(w.(db := PutRow(w.db, id, b)))
  {
    var v := w.(db := PutRow(w.db, id, b));
    forall p | p in v.stripe.intents ensures p < v.stripe.nextIntent && IntentOk(v.stripe.intents[p], v.db) {
      assert IntentOk(w.stripe.intents[p], w.db);
    }
  }

  /** One row is rewritten in place. */
  lemma PutKeeps(w: World, id: Id, b: Booking)
    requires Inv(w) && id in w.db.rows
    requires RowStep(w.db.rows[id], b) && Frozen(w.db, w.db.rows[id], b)
    requires Dated(w.db.rows[id], b, w.env.now, w.env.now)
    requires RowOk(id, b, w.db, w.stripe, w.env.now)
    ensures var v := w.(db := PutRow(w.db, id, b)); Inv(v) && Evolves(w, v)
  {
    hide NoOverlap, OwnIntent, Covered, StatusOk, RefundRecorded, KeyMatches, FeeRecorded, LedgerOk;
    PutApart(w.db.rows, id, b);
    var v := w.(db := PutRow(w.db, id, b));
    forall k | k in v.db.rows ensures k < v.db.nextRow && RowOk(k, v.db.rows[k], v.db, v.stripe, v.env.now) {
      assert k in w.db.rows && RowOk(k, w.db.rows[k], w.db, w.stripe, w.env.now);
    }
    PutLedger(w, id, b);
  }

  lemma DropApart(rows: map<Id, Booking>, ids: set<Id>)
    requires NoOverlap(rows)
    ensures NoOverlap(rows - ids)
  {
  }

  lemma DropKeeps(w: World, ids: set<Id>)
    requires Inv(w)
    requires forall id | id in ids && id in w.db.rows :: Removable(w.db.rows[id])
    ensures var v := w.(db := DropRows(w.db, ids)); Inv(v) && Evolves(w, v)
  {
    hide NoOverlap, OwnIntent, Covered, StatusOk, RefundRecorded, KeyMatches, FeeRecorded;
    assert NoOverlap(w.db.rows - ids) by { DropApart(w.db.rows, ids); }
    var v := w.(db := DropRows(w.db, ids));
    forall k | k in v.db.rows ensures k < v.db.nextRow && RowOk(k, v.db.rows[k], v.db, v.stripe, v.env.now) {
      assert k in w.db.rows && RowOk(k, w.db.rows[k], w.db, w.stripe, w.env.now);
    }
    forall p | p in v.stripe.intents ensures p < v.stripe.nextIntent && IntentOk(v.stripe.intents[p], v.db) {
      assert IntentOk(w.stripe.intents[p], w.db);
    }
  }

  lemma InsertApart(rows: map<Id, Booking>, n: Id, b: Booking)
    requires NoOverlap(rows) && SlotFree(rows, b.resource, b.start, b.end)
    ensures NoOverlap(rows[n := b])
  {
  }

  lemma InsertRows(w: World, b: Booking)
    requires Inv(w) && RowOk(w.db.nextRow, b, w.db, w.stripe, w.env.now)
    ensures var v := w.(db := PutRow(w.db, w.db.nextRow, b).(nextRow := w.db.nextRow + 1)); RowsOk(v) && LedgerOk(v)
  {
    var n := w.db.nextRow;
    var v := w.(db := PutRow(w.db, n, b).(nextRow := n + 1));
    forall k | k in v.db.rows ensures k < v.db.nextRow && RowOk(k, v.db.rows[k], v.db, v.stripe, v.env.now) {
      if k != n { assert k in w.db.rows && RowOk(k, w.db.rows[k], w.db, w.stripe, w.env.now); }
    }
    forall p | p in v.stripe.intents ensures p < v.stripe.nextIntent && IntentOk(v.stripe.intents[p], v.db) {
      assert IntentOk(w.stripe.intents[p], w.db);
    }
  }

  /** A new row under the next id: the constraint keeps it apart, the id is not in the ledger yet. */
  lemma InsertKeeps(w: World, b: Booking)
    requires Inv(w) && SlotFree(w.db.rows, b.resource, b.start, b.end) && !DeletedItem(w.db, b.resource)
    requires RowOk(w.db.nextRow, b, w.db, w.stripe, w.env.now) && b.createdAt == w.env.now && !Money(b.status)
    ensures var v := w.(db := PutRow(w.db, w.db.nextRow, b).(nextRow := w.db.nextRow + 1)); Inv(v) && Evolves(w, v)
  {
    hide NoOverlap, RowOk, IntentOk;
    InsertRows(w, b);
    InsertApart(w.db.rows, w.db.nextRow, b);
  }

  // ------------------------------------------------- the Stripe calls keep it

  lemma ApiCancelKeeps(w: World, p: Id)
    requires Inv(w)
    ensures var (v, r) := ApiCancel(w, p);
            && Inv(v) && Evolves(w, v) && v.db == w.db
            && (r.Returned? ==> p in v.stripe.intents && v.stripe.intents[p].status.Canceled? && !v.env.halted)
            && (w.env.halted ==> v == w)
  {
    TurnKeeps(w);
    var t := Turn(w);
    var v := ApiCancel(w, p).0;
    if v != t {
      forall q | q in v.stripe.intents ensures q < v.stripe.nextIntent && IntentOk(v.stripe.intents[q], v.db) {
        assert q in t.stripe.intents && IntentOk(t.stripe.intents[q], t.db);
      }
      forall id | id in v.stripe.refunds ensures RefundOk(id, v.stripe.refunds[id], v.stripe) {
        assert RefundOk(id, t.stripe.refunds[id], t.stripe);
      }
      StripeMoves(t, v);
      EvolvesTrans(w, t, v);
    }
  }

  /** What `cancelPaymentIntent` guarantees: any answer but `succeeded` means cancelled for ever. */
  lemma CancelKeeps(w: World, p: Id)
    requires Inv(w)
    ensures var (v, r) := CancelIntent(w, p);
            && Inv(v) && Evolves(w, v) && v.db == w.db
            && (w.env.halted ==> v == w)
            && (r.Returned? ==>
                  && !v.env.halted && p in v.stripe.intents
                  && v.stripe.intents[p].status == if r.value.WasSucceeded? then Succeeded else Canceled)
  {
    ApiCancelKeeps(w, p);
    var (w1, cancel) := ApiCancel(w, p);
    if cancel.Threw? {
      TurnKeeps(w1);
      EvolvesTrans(w, w1, Turn(w1));
    }
  }

  lemma CreateIntentKeeps(w: World, id: Id, amount: int)
    requires Inv(w) && id in w.db.rows && w.db.rows[id].amountCents == Some(amount)
    ensures var (v, r) := CreateIntent(w, id, amount);
            && Inv(v) && Evolves(w, v) && v.db == w.db
            && (w.env.halted ==> v == w)
            && (r.Returned? ==> r.value in v.stripe.intents && v.stripe.intents[r.value] == Intent(id, amount, Open, false, false))
  {
    hide NoOverlap, RowOk, TreeForward, RowsForward, AttachForward, DatesForward;
    var (v, r) := CreateIntent(w, id, amount);
    if v == w {
      EvolvesRefl(w);
    } else {
      TurnKeeps(w);
      var t := Turn(w);
      if v != t {
        forall q | q in v.stripe.intents ensures q < v.stripe.nextIntent && IntentOk(v.stripe.intents[q], v.db) {
          if q in t.stripe.intents { assert IntentOk(t.stripe.intents[q], t.db); }
        }
        forall k | k in v.stripe.refunds ensures RefundOk(k, v.stripe.refunds[k], v.stripe) {
          assert RefundOk(k, t.stripe.refunds[k], t.stripe);
        }
        StripeMoves(t, v);
        EvolvesTrans(w, t, v);
      }
    }
  }

  /** A refund of the attached, succeeded intent of the booking whose key it carries: the key was never used
      for another charge. */
  lemma RefundIntentKeeps(w: World, p: Id, id: Id)
    requires Inv(w) && p in w.stripe.intents && w.stripe.intents[p].bookingId == id && w.stripe.intents[p].status.Succeeded?
    requires id in w.db.rows && Money(w.db.rows[id].status) && w.db.rows[id].intent == Some(p)
    ensures var (v, r) := RefundIntent(w, p, id);
            && Inv(v) && Evolves(w, v) && v.db == w.db
            && (w.env.halted ==> v == w)
            && (id in w.stripe.refunds ==> w.stripe.refunds[id].intent == p)
            && (r.Returned? ==>
                  && id in v.stripe.refunds && v.stripe.refunds[id] == r.value && r.value.intent == p
                  && r.value.amountCents == w.stripe.intents[p].amountCents)
  {
    hide NoOverlap, Placed, OwnIntent, Covered, StatusOk, RefundRecorded, FeeRecorded, TreeForward;
    TurnKeeps(w);
    var t := Turn(w);
    var v := RefundIntent(w, p, id).0;
    RowOf(w, id);
    assert IntentStep(w.stripe.intents[p], t.stripe.intents[p]);
    if id in t.stripe.refunds { assert RefundOk(id, t.stripe.refunds[id], t.stripe); }
    if v != t {
      forall k | k in v.stripe.refunds ensures RefundOk(k, v.stripe.refunds[k], v.stripe) {
        if k in t.stripe.refunds { assert RefundOk(k, t.stripe.refunds[k], t.stripe); }
      }
      forall q | q in v.stripe.intents ensures q < v.stripe.nextIntent && IntentOk(v.stripe.intents[q], v.db) {
        assert IntentOk(t.stripe.intents[q], t.db);
      }
      StripeMoves(t, v);
      EvolvesTrans(w, t, v);
    }
  }
}
