/** What the handlers of the bookings service keep and what they achieve. */
module BookingProofs {
  import opened Schema
  import opened StripeCalls
  import opened Bookings
  import opened Protocol

  // --------------------------------------------------------- expired holds

  ghost predicate RefOk(db: Database, h: HoldRef) {
    && h.id in db.rows
    && Hold(db.rows[h.id].status)
    && db.rows[h.id].cancelledAt.None?
    && db.rows[h.id].intent == h.intent
  }

  ghost predicate Distinct(todo: seq<HoldRef>) {
    forall i, j | 0 <= i < j < |todo| :: todo[i].id != todo[j].id
  }

  function Ids(todo: seq<HoldRef>): set<Id> { set i | 0 <= i < |todo| :: todo[i].id }

  /** A hold that can be given up: no charge can ever come in through its attached intent. */
  ghost predicate Freeable(b: Booking, s: Stripe) {
    && Hold(b.status) && b.cancelledAt.None?
    && (b.intent.Some? ==> b.intent.value in s.intents && s.intents[b.intent.value].status.Canceled?)
  }

  /** The row of a hold that was paid in the last second. */
  ghost predicate PaidInTime(was: Booking, b: Booking, s: Stripe) {
    && b.status.PAID? && b.paidAt.Some? && b == Paid(was, b.paidAt.value)
    && b.intent.Some? && b.intent.value in s.intents && s.intents[b.intent.value].status.Succeeded?
  }

  ghost predicate AllFreeable(w: World, ids: set<Id>) {
    forall id | id in ids :: id in w.db.rows && Freeable(w.db.rows[id], w.stripe)
  }

  ghost predicate OnlyPaid(w: World, v: World, ids: set<Id>) {
    && v.db == w.db.(rows := v.db.rows)
    && v.db.rows.Keys == w.db.rows.Keys
    && forall id | id in w.db.rows ::
         v.db.rows[id] == w.db.rows[id] || (id in ids && PaidInTime(w.db.rows[id], v.db.rows[id], v.stripe))
  }

  lemma MarkKeeps(w: World, id: Id)
    requires Inv(w) && id in w.db.rows && Hold(w.db.rows[id].status) && w.db.rows[id].cancelledAt.None?
    requires w.db.rows[id].intent.Some? && w.db.rows[id].intent.value in w.stripe.intents
    requires w.stripe.intents[w.db.rows[id].intent.value].status.Succeeded?
    ensures var v := MarkLastSecondPaid(w, id);
            Inv(v) && Evolves(w, v) && OnlyPaid(w, v, {id}) && (!v.env.halted ==> v.db.rows[id].status.PAID?)
  {
    hide RowsOk, LedgerOk, TreeOk, NoOverlap, RowsForward, TreeForward, AttachForward, DatesForward;
    TurnKeeps(w);
    var t := Turn(w);
    var p := w.db.rows[id].intent.value;
    assert IntentStep(w.stripe.intents[p], t.stripe.intents[p]);
    RowOf(t, id);
    if !t.env.halted {
      PutKeeps(t, id, Paid(t.db.rows[id], t.env.now));
      EvolvesTrans(w, t, MarkLastSecondPaid(w, id));
    }
  }

  /** A terminal intent, and so a freeable or a paid row, stays one. */
  lemma FreeableStays(w: World, v: World, ids: set<Id>)
    requires AllFreeable(w, ids) && StripeForward(w.stripe, v.stripe)
    requires forall id | id in ids :: id in v.db.rows && v.db.rows[id] == w.db.rows[id]
    ensures AllFreeable(v, ids)
  {
    forall id | id in ids ensures Freeable(v.db.rows[id], v.stripe) {
      assert Freeable(w.db.rows[id], w.stripe);
      var b := w.db.rows[id];
      if b.intent.Some? { assert IntentStep(w.stripe.intents[b.intent.value], v.stripe.intents[b.intent.value]); }
    }
  }

  lemma OnlyPaidTrans(w: World, u: World, v: World, a: set<Id>, b: set<Id>)
    requires OnlyPaid(w, u, a) && OnlyPaid(u, v, b) && a !! b && StripeForward(u.stripe, v.stripe)
    ensures OnlyPaid(w, v, a + b)
  {
    forall id | id in w.db.rows
      ensures v.db.rows[id] == w.db.rows[id] || (id in a + b && PaidInTime(w.db.rows[id], v.db.rows[id], v.stripe))
    {
      assert id in u.db.rows;
      if u.db.rows[id] != w.db.rows[id] {
        assert PaidInTime(w.db.rows[id], u.db.rows[id], u.stripe) && v.db.rows[id] == u.db.rows[id];
        var p := u.db.rows[id].intent.value;
        assert IntentStep(u.stripe.intents[p], v.stripe.intents[p]);
      }
    }
  }

  /** One round of the loop, for a hold with an intent. */
  lemma ReleaseRound(w: World, h: HoldRef)
    requires Inv(w) && RefOk(w.db, h) && h.intent.Some?
    ensures var (w1, out) := CancelIntent(w, h.intent.value);
            var v := if out.Returned? && out.value.WasSucceeded? then MarkLastSecondPaid(w1, h.id) else w1;
            && Inv(v) && Evolves(w, v) && OnlyPaid(w, v, {h.id})
            && (out.Returned? && !out.value.WasSucceeded? ==> v.db == w.db && Freeable(v.db.rows[h.id], v.stripe))
            && (out.Returned? && out.value.WasSucceeded? && !v.env.halted ==> v.db.rows[h.id].status.PAID?)
            && (out.Threw? ==> v.db == w.db)
  {
    hide RowsOk, LedgerOk, TreeOk, NoOverlap, RowsForward, TreeForward, AttachForward, DatesForward;
    CancelKeeps(w, h.intent.value);
    var (w1, out) := CancelIntent(w, h.intent.value);
    if out.Returned? && out.value.WasSucceeded? {
      MarkKeeps(w1, h.id);
      EvolvesTrans(w, w1, MarkLastSecondPaid(w1, h.id));
    }
  }

  lemma Tail(todo: seq<HoldRef>)
    requires todo != [] && Distinct(todo)
    ensures Distinct(todo[1..]) && todo[0].id !in Ids(todo[1..]) && Ids(todo) == {todo[0].id} + Ids(todo[1..])
    ensures forall i | 0 <= i < |todo[1..]| :: todo[1..][i] == todo[i + 1] && todo[1..][i].id != todo[0].id
  {
    var rest := todo[1..];
    forall id | id in Ids(todo) ensures id in {todo[0].id} + Ids(rest) {
      var i :| 0 <= i < |todo| && todo[i].id == id;
      if i > 0 { assert rest[i - 1].id == id; }
    }
    assert forall i | 0 <= i < |rest| :: rest[i] == todo[i + 1];
  }

  lemma RefsStay(w: World, v: World, h: HoldRef, rest: seq<HoldRef>)
    requires OnlyPaid(w, v, {h.id})
    requires forall i | 0 <= i < |rest| :: RefOk(w.db, rest[i]) && rest[i].id != h.id
    ensures forall i | 0 <= i < |rest| :: RefOk(v.db, rest[i])
  {
  }

  lemma {:induction false} ReleaseLoopKeeps(w: World, todo: seq<HoldRef>, released: set<Id>)
    requires Inv(w) && Distinct(todo) && AllFreeable(w, released) && released !! Ids(todo)
    requires forall i | 0 <= i < |todo| :: RefOk(w.db, todo[i])
    ensures var (v, rel) := ReleaseLoop(w, todo, released);
            && Inv(v) && Evolves(w, v) && AllFreeable(v, rel)
            && released <= rel <= released + Ids(todo)
            && OnlyPaid(w, v, Ids(todo))
    decreases todo, 0
  {
    hide RowsOk, LedgerOk, TreeOk, NoOverlap, RowsForward, TreeForward, AttachForward, DatesForward;
    if todo == [] {
      EvolvesRefl(w);
    } else {
      var h, rest := todo[0], todo[1..];
      Tail(todo);
      assert forall i | 0 <= i < |rest| :: RefOk(w.db, rest[i]);
      if h.intent.None? {
        ReleaseLoopKeeps(w, rest, released + {h.id});
      } else {
        ReleaseRound(w, h);
        var (w1, out) := CancelIntent(w, h.intent.value);
        var u := if out.Returned? && out.value.WasSucceeded? then MarkLastSecondPaid(w1, h.id) else w1;
        var freed := if out.Returned? && !out.value.WasSucceeded? then released + {h.id} else released;
        FreeableStays(w, u, released);
        RefsStay(w, u, h, rest);
        ReleaseStep(w, u, h, rest, released, freed);
        assert ReleaseLoop(w, todo, released) == ReleaseLoop(u, rest, freed);
      }
    }
  }

  lemma {:induction false} ReleaseStep(w: World, u: World, h: HoldRef, rest: seq<HoldRef>, released: set<Id>, freed: set<Id>)
    requires Inv(w) && Inv(u) && Evolves(w, u) && OnlyPaid(w, u, {h.id}) && h.id !in Ids(rest)
    requires Distinct(rest) && AllFreeable(u, freed) && freed !! Ids(rest) && released <= freed <= released + {h.id}
    requires forall i | 0 <= i < |rest| :: RefOk(u.db, rest[i])
    ensures var (v, rel) := ReleaseLoop(u, rest, freed);
            && Inv(v) && Evolves(w, v) && AllFreeable(v, rel)
            && released <= rel <= released + ({h.id} + Ids(rest))
            && OnlyPaid(w, v, {h.id} + Ids(rest))
    decreases rest, 1
  {
    hide RowsOk, LedgerOk, TreeOk, NoOverlap, RowsForward, TreeForward, AttachForward, DatesForward;
    ReleaseLoopKeeps(u, rest, freed);
    var v := ReleaseLoop(u, rest, freed).0;
    EvolvesTrans(w, u, v);
    OnlyPaidTrans(w, u, v, {h.id}, Ids(rest));
  }

  lemma DeleteManyKeeps(w: World, ids: set<Id>)
    requires Inv(w) && AllFreeable(w, ids)
    ensures var v := DeleteMany(w, ids);
            && Inv(v) && Evolves(w, v)
            && v.db == (if v.env.halted then w.db else DropRows(w.db, ids))
            && (w.env.halted ==> v == w)
  {
    hide RowsOk, LedgerOk, TreeOk, NoOverlap, RowsForward, TreeForward, AttachForward, DatesForward;
    TurnKeeps(w);
    var t := Turn(w);
    if !t.env.halted {
      DropKeeps(t, ids);
      EvolvesTrans(w, t, DeleteMany(w, ids));
    }
  }

  /** Releasing expired holds is safe, whatever Stripe does meanwhile and wherever the process stops.
      Every row it was given is afterwards gone, with its attached intent absent or cancelled for ever, or PAID for
      a charge that succeeded, or as it was; every other row is untouched. */
  lemma ReleaseSafe(w: World, todo: seq<HoldRef>)
    requires Inv(w) && Distinct(todo)
    requires forall i | 0 <= i < |todo| :: RefOk(w.db, todo[i])
    ensures var (v, rel) := Release(w, todo);
            && Inv(v) && Evolves(w, v) && rel <= Ids(todo)
            && v.db == w.db.(rows := v.db.rows) && v.db.rows.Keys <= w.db.rows.Keys
            && (!v.env.halted ==> v.db.rows.Keys == w.db.rows.Keys - rel)
            && (forall id | id in w.db.rows && id !in v.db.rows ::
                  id in rel && Freeable(w.db.rows[id], v.stripe))
            && (forall id | id in v.db.rows :: v.db.rows[id] == w.db.rows[id]
                  || (id in Ids(todo) && PaidInTime(w.db.rows[id], v.db.rows[id], v.stripe)))
  {
    hide RowsOk, LedgerOk, TreeOk, NoOverlap, RowsForward, TreeForward, AttachForward, DatesForward;
    ReleaseLoopKeeps(w, todo, {});
    var (w1, rel) := ReleaseLoop(w, todo, {});
    forall id | id in rel ensures w1.db.rows[id] == w.db.rows[id] {
      assert Freeable(w1.db.rows[id], w1.stripe);
    }
    if rel != {} {
      DeleteManyKeeps(w1, rel);
      var v := DeleteMany(w1, rel);
      EvolvesTrans(w, w1, v);
      FreeableAfter(w1, v, rel);
      forall id | id in v.db.rows ensures v.db.rows[id] == w.db.rows[id]
                  || (id in Ids(todo) && PaidInTime(w.db.rows[id], v.db.rows[id], v.stripe))
      {
        if w1.db.rows[id] != w.db.rows[id] {
          var p := w1.db.rows[id].intent.value;
          assert IntentStep(w1.stripe.intents[p], v.stripe.intents[p]);
        }
      }
    }
  }

  /** One round of the release loop, and whether it lets its row go. */
  function Round(w: World, h: HoldRef): World {
    if h.intent.None? then w
    else
      var (w1, out) := CancelIntent(w, h.intent.value);
      if out.Returned? && out.value.WasSucceeded? then MarkLastSecondPaid(w1, h.id) else w1
  }

  predicate Gives(w: World, h: HoldRef) {
    h.intent.None? || (CancelIntent(w, h.intent.value).1.Returned? && !CancelIntent(w, h.intent.value).1.value.WasSucceeded?)
  }

  /** The world in which the loop reaches its `n`-th hold. */
  function WorldAt(w: World, todo: seq<HoldRef>, n: nat): World
    requires n <= |todo|
    decreases n
  {
    if n == 0 then w else WorldAt(Round(w, todo[0]), todo[1..], n - 1)
  }

  lemma LoopSplit(w: World, todo: seq<HoldRef>, released: set<Id>)
    requires todo != []
    ensures ReleaseLoop(w, todo, released)
            == ReleaseLoop(Round(w, todo[0]), todo[1..], if Gives(w, todo[0]) then released + {todo[0].id} else released)
  {
    hide CancelIntent, MarkLastSecondPaid;
  }

  lemma {:induction false} LoopBounds(w: World, todo: seq<HoldRef>, released: set<Id>)
    ensures released <= ReleaseLoop(w, todo, released).1 <= released + Ids(todo)
    decreases todo
  {
    hide CancelIntent, MarkLastSecondPaid;
    if todo != [] {
      LoopSplit(w, todo, released);
      assert Ids(todo[1..]) <= Ids(todo) && todo[0].id in Ids(todo) by {
        assert forall k | 0 <= k < |todo[1..]| :: todo[1..][k] == todo[k + 1];
      }
      LoopBounds(Round(w, todo[0]), todo[1..], if Gives(w, todo[0]) then released + {todo[0].id} else released);
    }
  }

  /** A hold is released exactly when it had no intent or its cancel answered anything but `succeeded`; a cancel
      that threw, like one that found the charge succeeded, leaves the row in place. */
  lemma {:induction false} ReleaseDecides(w: World, todo: seq<HoldRef>, released: set<Id>, i: nat)
    requires Distinct(todo) && released !! Ids(todo) && i < |todo|
    ensures todo[i].id in ReleaseLoop(w, todo, released).1 <==> Gives(WorldAt(w, todo, i), todo[i])
    decreases todo
  {
    hide CancelIntent, MarkLastSecondPaid, Gives, ReleaseLoop;
    var u := Round(w, todo[0]);
    var freed := if Gives(w, todo[0]) then released + {todo[0].id} else released;
    LoopSplit(w, todo, released);
    Tail(todo);
    if i == 0 {
      LoopBounds(u, todo[1..], freed);
      assert todo[0].id in Ids(todo);
    } else {
      ReleaseDecides(u, todo[1..], freed, i - 1);
    }
  }

  lemma FreeableAfter(w: World, v: World, ids: set<Id>)
    requires AllFreeable(w, ids) && StripeForward(w.stripe, v.stripe)
    ensures forall id | id in ids :: Freeable(w.db.rows[id], v.stripe)
  {
    forall id | id in ids ensures Freeable(w.db.rows[id], v.stripe) {
      assert Freeable(w.db.rows[id], w.stripe);
      var b := w.db.rows[id];
      if b.intent.Some? { assert IntentStep(w.stripe.intents[b.intent.value], v.stripe.intents[b.intent.value]); }
    }
  }

  // ---------------------------------------------------------------- create

  lemma AttachKeeps(w: World, id: Id, p: Id, amount: int)
    requires Inv(w) && p in w.stripe.intents && w.stripe.intents[p].bookingId == id && w.stripe.intents[p].amountCents == amount
    requires id in w.db.rows && w.db.rows[id].amountCents == Some(amount)
    requires w.db.rows[id].status.PENDING? && w.db.rows[id].cancelledAt.None?
    requires !DeletedItem(w.db, w.db.rows[id].resource)
    ensures var (v, r) := Attach(w, id, p, amount);
            && Inv(v) && Evolves(w, v) && (r.Threw? ==> v.env.halted && v.db == w.db)
            && (w.env.halted ==> v == w)
            && (r.Returned? ==> v.db.rows.Keys == w.db.rows.Keys && forall k | k in v.db.rows && k != id :: v.db.rows[k] == w.db.rows[k])
  {
    hide RowsOk, LedgerOk, TreeOk, NoOverlap, RowsForward, TreeForward, AttachForward, DatesForward;
    TurnKeeps(w);
    var t := Turn(w);
    assert IntentStep(w.stripe.intents[p], t.stripe.intents[p]);
    RowOf(t, id);
    if !t.env.halted {
      // The fee is on the row, then the client secret is out, then the row names the intent.
      var b := t.db.rows[id].(platformFeeCents := FeeOf(amount));
      PutKeeps(t, id, b);
      var u := t.(db := PutRow(t.db, id, b));
      HandOut(u, id, p);
      EvolvesTrans(w, t, u);
      var o, v := u.(stripe := u.stripe.(intents := MarkAttached(u.stripe.intents, p))), Attach(w, id, p, amount).0;
      EvolvesTrans(w, u, o);
      RowOf(o, id);
      PutKeeps(o, id, Attached(b, p, FeeOf(amount), t.env.now));
      assert PutRow(o.db, id, Attached(b, p, FeeOf(amount), t.env.now)) == v.db;
      EvolvesTrans(w, o, v);
    }
  }

  /** The client secret of an attached intent goes out. */
  lemma HandOut(w: World, id: Id, p: Id)
    requires Inv(w) && id in w.db.rows && p in w.stripe.intents && w.stripe.intents[p].bookingId == id
    requires w.db.rows[id].platformFeeCents == FeeOf(w.stripe.intents[p].amountCents)
    ensures var v := w.(stripe := w.stripe.(intents := MarkAttached(w.stripe.intents, p))); Inv(v) && Evolves(w, v)
  {
    var v := w.(stripe := w.stripe.(intents := MarkAttached(w.stripe.intents, p)));
    forall q | q in v.stripe.intents ensures q < v.stripe.nextIntent && IntentOk(v.stripe.intents[q], v.db) {
      assert IntentOk(w.stripe.intents[q], w.db);
    }
    forall k | k in v.stripe.refunds ensures RefundOk(k, v.stripe.refunds[k], v.stripe) {
      assert RefundOk(k, w.stripe.refunds[k], w.stripe);
    }
    StripeMoves(w, v);
  }

  /** A thrown error leaves the row exactly as it was claimed or inserted. */
  lemma CreateAndAttachKeeps(w: World, id: Id, amount: int)
    requires Inv(w) && id in w.db.rows && w.db.rows[id].amountCents == Some(amount)
    requires w.db.rows[id].status.PENDING? && w.db.rows[id].cancelledAt.None?
    requires !DeletedItem(w.db, w.db.rows[id].resource)
    ensures var (v, r) := CreateAndAttach(w, id, amount);
            && Inv(v) && Evolves(w, v) && (r.Threw? ==> v.db == w.db) && (w.env.halted ==> v == w)
            && (r.Returned? ==> v.db.rows.Keys == w.db.rows.Keys && forall k | k in v.db.rows && k != id :: v.db.rows[k] == w.db.rows[k])
  {
    hide RowsOk, LedgerOk, TreeOk, NoOverlap, RowsForward, TreeForward, AttachForward, DatesForward;
    RowOf(w, id);
    CreateIntentKeeps(w, id, amount);
    var (w1, made) := CreateIntent(w, id, amount);
    if made.Returned? {
      AttachKeeps(w1, id, made.value, amount);
      EvolvesTrans(w, w1, Attach(w1, id, made.value, amount).0);
    }
  }

  ghost predicate AllExpired(w: World, ids: seq<Id>) {
    forall i | 0 <= i < |ids| :: ids[i] in w.db.rows && Expired(w.db.rows[ids[i]], w.env.now)
  }

  lemma HoldRefsIds(rows: map<Id, Booking>, ids: seq<Id>)
    requires forall i | 0 <= i < |ids| :: ids[i] in rows
    ensures Ids(HoldRefs(rows, ids)) == set id | id in ids
  {
    var refs := HoldRefs(rows, ids);
    forall id | id in ids ensures id in Ids(refs) {
      var i :| 0 <= i < |ids| && ids[i] == id;
      assert refs[i].id == id;
    }
  }

  lemma HoldRefsOk(w: World, ids: seq<Id>)
    requires Inv(w) && AllExpired(w, ids) && Ascending(ids)
    ensures Distinct(HoldRefs(w.db.rows, ids))
    ensures forall i | 0 <= i < |ids| :: RefOk(w.db, HoldRefs(w.db.rows, ids)[i])
  {
    hide RowsOk, LedgerOk, TreeOk, NoOverlap, RowsForward, TreeForward, AttachForward, DatesForward;
    var refs := HoldRefs(w.db.rows, ids);
    forall i | 0 <= i < |ids| ensures RefOk(w.db, refs[i]) {
      RowOf(w, ids[i]);
    }
  }

  lemma ClearStaleKeeps(w: World, resource: Resource)
    requires Inv(w)
    ensures var v := ClearStale(w, resource);
            && Inv(v) && Evolves(w, v)
            && v.db == w.db.(rows := v.db.rows) && v.db.rows.Keys <= w.db.rows.Keys
            && (forall id | id in w.db.rows && id !in v.db.rows ::
                  w.db.rows[id].resource == resource && Expired(w.db.rows[id], w.env.now) && Freeable(w.db.rows[id], v.stripe))
            && (forall id | id in v.db.rows :: v.db.rows[id] == w.db.rows[id]
                  || (w.db.rows[id].resource == resource && Expired(w.db.rows[id], w.env.now)
                      && PaidInTime(w.db.rows[id], v.db.rows[id], v.stripe)))
  {
    hide RowsOk, LedgerOk, TreeOk, NoOverlap, RowsForward, TreeForward, AttachForward, DatesForward;
    var stale := StaleIds(w.db, resource, w.env.now);
    if stale == [] {
      EvolvesRefl(w);
    } else {
      HoldRefsOk(w, stale);
      HoldRefsIds(w.db.rows, stale);
      ReleaseSafe(w, HoldRefs(w.db.rows, stale));
    }
  }

  lemma InsertOneKeeps(
    w: World, resource: Resource, start: Time, end: Time, spaceId: Id, userId: Id, amount: int, paid: bool)
    requires Inv(w) && start < end && Bookable(w.db, resource, spaceId)
    ensures var (v, ok) := Insert(w, resource, start, end, spaceId, userId, amount, paid);
            && Inv(v) && Evolves(w, v)
            && (!ok ==> v.db == w.db)
            && (ok ==>
                  && !v.env.halted && v.db.nextRow == w.db.nextRow + 1
                  && v.db.items == w.db.items && v.db.zones == w.db.zones
                  && w.db.nextRow !in w.db.rows
                  && v.db.rows == w.db.rows[w.db.nextRow := NewBooking(resource, start, end, spaceId, userId, amount, paid, v.env.now)])
  {
    hide RowsOk, LedgerOk, TreeOk, NoOverlap, RowsForward, TreeForward, AttachForward, DatesForward;
    TurnKeeps(w);
    NextIsNew(w);
    var t := Turn(w);
    var (v, ok) := Insert(w, resource, start, end, spaceId, userId, amount, paid);
    if ok {
      InsertKeeps(t, NewBooking(resource, start, end, spaceId, userId, amount, paid, t.env.now));
      EvolvesTrans(w, t, v);
    }
  }

  /** What the answer of `create` says about the new row. */
  ghost predicate NewRow(b: Booking, resource: Resource, start: Time, end: Time, spaceId: Id, userId: Id, amount: int, paid: bool) {
    && b.resource == resource && b.start == start && b.end == end && b.spaceId == spaceId && b.userId == userId
    && b.amountCents == Some(amount) && b.status == (if paid then PENDING else UNPAID)
    && b.intent.Some? == paid && b.cancelledAt.None?
  }

  lemma BookKeeps(
    w: World, resource: Resource, start: Time, end: Time, spaceId: Id, userId: Id, amount: int, paid: bool)
    requires Inv(w) && start < end && Bookable(w.db, resource, spaceId)
    ensures var v := Book(w, resource, start, end, spaceId, userId, amount, paid).0; Inv(v) && Evolves(w, v)
  {
    hide RowsOk, LedgerOk, TreeOk, NoOverlap, RowsForward, TreeForward, AttachForward, DatesForward;
    InsertOneKeeps(w, resource, start, end, spaceId, userId, amount, paid);
    var (w1, ok) := Insert(w, resource, start, end, spaceId, userId, amount, paid);
    if ok && paid { PaySafe(w, w1, w.db.nextRow, amount); }
  }

  lemma InsertFrame(
    w: World, resource: Resource, start: Time, end: Time, spaceId: Id, userId: Id, amount: int, paid: bool)
    requires w.db.nextRow !in w.db.rows
    ensures var (w1, ok) := Insert(w, resource, start, end, spaceId, userId, amount, paid);
            var id := w.db.nextRow;
            && (!ok ==> w1.db == w.db)
            && (ok ==>
                  && !w1.env.halted && id in w1.db.rows && w1.db.rows == w.db.rows[id := w1.db.rows[id]]
                  && w1.db.rows[id] == NewBooking(resource, start, end, spaceId, userId, amount, paid, w1.env.now))
  {
  }

  /** Booking writes one row, its own: refused or failed it changes no row, and answered it leaves exactly
      the row that was asked for. */
  lemma BookFrame(
    w: World, resource: Resource, start: Time, end: Time, spaceId: Id, userId: Id, amount: int, paid: bool)
    requires w.db.nextRow !in w.db.rows
    ensures var (v, a) := Book(w, resource, start, end, spaceId, userId, amount, paid);
            var id := w.db.nextRow;
            && (a.Conflict? || a == Created(id))
            && v.db.rows.Keys <= w.db.rows.Keys + {id}
            && (forall k | k in w.db.rows :: k in v.db.rows && v.db.rows[k] == w.db.rows[k])
            && (a.Conflict? && !v.env.halted ==> v.db.rows == w.db.rows)
            && (a.Created? ==>
                  id in v.db.rows && NewRow(v.db.rows[id], resource, start, end, spaceId, userId, amount, paid))
  {
    var id := w.db.nextRow;
    InsertFrame(w, resource, start, end, spaceId, userId, amount, paid);
    var (w1, ok) := Insert(w, resource, start, end, spaceId, userId, amount, paid);
    if ok && paid {
      PayFrame(w1, id, amount);
      var (w2, made) := CreateAndAttach(w1, id, amount);
      DropFrame(w2, id);
      if made.Threw? { assert w1.db.rows - {id} == w.db.rows; }
    }
  }

  /** The payment step for a row that is already in: it touches no other row, and a failed one changes nothing. */
  lemma PayFrame(w1: World, id: Id, amount: int)
    requires id in w1.db.rows
    ensures var (w2, made) := CreateAndAttach(w1, id, amount);
            && (made.Threw? ==> w2.db == w1.db)
            && (made.Returned? ==>
                  && w2.db == w1.db.(rows := w1.db.rows[id := w2.db.rows[id]])
                  && w2.db.rows[id].status.PENDING? && w2.db.rows[id].intent.Some?
                  && exists p, t: Time :: w2.db.rows[id] == Attached(w1.db.rows[id], p, FeeOf(amount), t))
  {
  }

  lemma DropFrame(w2: World, id: Id)
    ensures var v := DeleteMany(w2, {id}); v.db == if v.env.halted then w2.db else DropRows(w2.db, {id})
  {
  }

  lemma PaySafe(w: World, w1: World, id: Id, amount: int)
    requires Inv(w) && Inv(w1) && Evolves(w, w1)
    requires id in w1.db.rows && w1.db.rows[id].amountCents == Some(amount) && w1.db.rows[id].status.PENDING?
    requires w1.db.rows[id].cancelledAt.None? && w1.db.rows[id].intent.None? && !DeletedItem(w1.db, w1.db.rows[id].resource)
    ensures var (w2, made) := CreateAndAttach(w1, id, amount);
            var v := if made.Threw? then DeleteMany(w2, {id}) else w2;
            Inv(v) && Evolves(w, v) && Evolves(w1, w2)
  {
    hide RowsOk, LedgerOk, TreeOk, NoOverlap, RowsForward, TreeForward, AttachForward, DatesForward;
    CreateAndAttachKeeps(w1, id, amount);
    var (w2, made) := CreateAndAttach(w1, id, amount);
    EvolvesTrans(w, w1, w2);
    if made.Threw? {
      assert AllFreeable(w2, {id});
      DeleteManyKeeps(w2, {id});
      EvolvesTrans(w, w2, DeleteMany(w2, {id}));
    }
  }

  /** A price that is not positive cannot be paid, so with payments switched on such a request never books. */
  lemma FreeNeverBooks(w: World, resource: Resource, start: Time, end: Time, spaceId: Id, userId: Id)
    requires var (verdict, amount, paid) := CreateChecks(w.db, resource, start, end, spaceId);
             verdict.PaymentStarted? && paid && amount <= 0
    ensures Create(w, resource, start, end, spaceId, userId).1.Conflict?
  {
  }

  /** `create` adds exactly one row, its own, or none, and takes away nothing but expired holds of the same
      resource whose attached intent is absent or cancelled for ever. A refused request never reaches the database. */
  lemma CreateSafe(w: World, resource: Resource, start: Time, end: Time, spaceId: Id, userId: Id)
    requires Inv(w)
    ensures var (v, a) := Create(w, resource, start, end, spaceId, userId);
            && Inv(v) && Evolves(w, v)
            && (a.BadRequest? || a.NotFound? ==> v == w)
            && (a.Conflict? && !v.env.halted ==> v.db.rows.Keys <= w.db.rows.Keys)
            && (a.Created? ==>
                  var (_, amount, paid) := CreateChecks(w.db, resource, start, end, spaceId);
                  a.id == w.db.nextRow && a.id in v.db.rows
                  && NewRow(v.db.rows[a.id], resource, start, end, spaceId, userId, amount, paid))
            && v.db.rows.Keys <= w.db.rows.Keys + {w.db.nextRow}
            && (forall id | id in w.db.rows && id !in v.db.rows ::
                  w.db.rows[id].resource == resource && Expired(w.db.rows[id], w.env.now) && Freeable(w.db.rows[id], v.stripe))
  {
    hide RowsOk, LedgerOk, TreeOk, NoOverlap, RowsForward, TreeForward, AttachForward, DatesForward;
    var (v, a) := Create(w, resource, start, end, spaceId, userId);
    var (verdict, amount, paid) := CreateChecks(w.db, resource, start, end, spaceId);
    if !verdict.PaymentStarted? {
      EvolvesRefl(w);
    } else {
      var w1 := ClearStale(w, resource);
      ClearStaleKeeps(w, resource);
      BookKeeps(w1, resource, start, end, spaceId, userId, amount, paid);
      NextIsNew(w1);
      BookFrame(w1, resource, start, end, spaceId, userId, amount, paid);
      EvolvesTrans(w, w1, v);
      StillFreeable(w, w1, v, resource);
    }
  }

  /** Only a live, active, priced resource of this space, in a live zone, is ever booked, and the payment switch
      of its manager decides how. */
  lemma CreatedMeans(w: World, resource: Resource, start: Time, end: Time, spaceId: Id, userId: Id)
    requires Inv(w) && Create(w, resource, start, end, spaceId, userId).1.Created?
    ensures start < end && resource in w.db.items && w.db.items[resource].zoneId in w.db.zones
    ensures var zone := w.db.zones[w.db.items[resource].zoneId];
            zone.spaceId == spaceId && zone.isActive && zone.deletedAt.None? && w.db.items[resource].deletedAt.None?
    ensures spaceId in w.db.spaces && w.db.spaces[spaceId].manager.Some?
    ensures var b := Create(w, resource, start, end, spaceId, userId).0.db.rows;
            var manager := w.db.spaces[spaceId].manager.value;
            w.db.nextRow in b && (b[w.db.nextRow].status.PENDING? <==> manager.hasAccount && manager.onboarded)
  {
    CreateSafe(w, resource, start, end, spaceId, userId);
  }

  lemma StillFreeable(w: World, w1: World, v: World, resource: Resource)
    requires Inv(w) && StripeForward(w1.stripe, v.stripe)
    requires forall id | id in w.db.rows && id !in w1.db.rows ::
               w.db.rows[id].resource == resource && Expired(w.db.rows[id], w.env.now) && Freeable(w.db.rows[id], w1.stripe)
    ensures forall id | id in w.db.rows && id !in w1.db.rows ::
               w.db.rows[id].resource == resource && Expired(w.db.rows[id], w.env.now) && Freeable(w.db.rows[id], v.stripe)
  {
    forall id | id in w.db.rows && id !in w1.db.rows ensures Freeable(w.db.rows[id], v.stripe) {
      var b := w.db.rows[id];
      assert Freeable(b, w1.stripe);
      if b.intent.Some? { assert IntentStep(w1.stripe.intents[b.intent.value], v.stripe.intents[b.intent.value]); }
    }
  }
}
