/** The two grains speak of the same statements: seen as one booking of the race, each write of a handler is the
    race's statement of that name. */
module Grains {
  import opened Schema
  import opened StripeCalls
  import opened Bookings
  import opened Webhook
  import opened Deletion
  import R = BookingRace
  import RR = RetryRace

  function Seen(b: Booking): R.Row {
    R.Row(b.status, b.holdExpiresAt, b.intent, b.cancelledAt.Some?, b.refundedCents)
  }

  function RowAt(db: Database, id: Id): Option<R.Row> { if id in db.rows then Some(Seen(db.rows[id])) else None }

  /** One booking of a database at an instant, as the race sees it. What only the race keeps may be anything. */
  ghost predicate Shows(db: Database, now: Time, id: Id, s: R.Shared) { s.now == now && s.row == RowAt(db, id) }

  /** The ledger the race sees: the intents that name the booking. */
  ghost predicate Ledger(intents: map<Id, Intent>, id: Id, s: R.Shared) {
    && (forall p :: p in s.intents <==> p in intents && intents[p].bookingId == id)
    && forall p | p in s.intents :: s.intents[p] == R.Charge(intents[p].status, intents[p].attached)
  }

  // ------------------------------------------------------------ statements

  lemma Still(w: World)
    ensures Turn(w).db == w.db
  {
  }

  /** The writes of a hold's release. */
  lemma ReleaseWrites(w: World, id: Id, s: R.Shared, read: R.Row)
    requires !Turn(w).env.halted && Shows(w.db, Turn(w).env.now, id, s)
    ensures RowAt(MarkLastSecondPaid(w, id).db, id) == R.DoMark(s, read).at.row
    ensures RowAt(DeleteMany(w, {id}).db, id).None?
  {
    hide Turn;
    Still(w);
  }

  /** The writes of a payment retry: claim, attach, hand back. */
  lemma PaymentWrites(w: World, id: Id, s: R.Shared, before: Booking, userId: Id, p: Id, amount: int)
    requires !Turn(w).env.halted && Shows(w.db, Turn(w).env.now, id, s) && p in s.intents
    ensures (id in w.db.rows ==> w.db.rows[id].userId == userId) ==>
              RowAt(Claim(w, id, userId, before.status).0.db, id) == R.DoClaim(s, Seen(before)).at.row
              && (Claim(w, id, userId, before.status).1 <==> R.DoClaim(s, Seen(before)).pc.MustCreate?)
    ensures RowAt(Attach(w, id, p, amount).0.db, id) == R.DoAttach(s, R.ByRetry(Seen(before)), p).at.row
    ensures RowAt(Revert(w, id, before).db, id) == R.DoHandBack(s, R.ByRetry(Seen(before))).at.row
  {
    hide Turn;
    Still(w);
  }

  /** The write of a reconcile. */
  lemma ReconcileWrites(w: World, id: Id, s: R.Shared, q: Id, paid: bool)
    requires !Turn(w).env.halted && Shows(w.db, Turn(w).env.now, id, s)
    ensures RowAt(ApplyResolution(w, Resolution(id, paid)).db, id) == R.DoWrite(s, q, paid).at.row
  {
    hide Turn;
    Still(w);
  }

  /** The writes of a webhook event, on a ledger that bears it out. */
  lemma EventWrites(w: World, id: Id, s: R.Shared, p: Id)
    requires !Turn(w).env.halted && Shows(w.db, Turn(w).env.now, id, s) && p in s.intents
    ensures s.intents[p].status.Succeeded? ==>
              RowAt(Handle(w, PaymentSucceeded(p, Some(id))).db, id) == R.OnSuccess(s, p).row
    ensures RowAt(Handle(w, PaymentFailed(p, Some(id))).db, id) == R.OnFailure(s, p).row
  {
    hide Turn;
    Still(w);
  }

  /** The writes of a settlement. */
  lemma SettlementWrites(w: World, id: Id, s: R.Shared, p: Id, answer: Reply<Refund>)
    requires !Turn(w).env.halted && Shows(w.db, Turn(w).env.now, id, s)
    requires answer.Returned? ==> answer.value.amountCents == s.price
    ensures RowAt(MarkLatePaid(w, id).db, id) == R.DoMarkLate(s, p).at.row
    ensures RowAt(MarkReleased(w, id).db, id) == R.DoMarkReleased(s).at.row
    ensures var said := if answer.Returned? then Returned(answer.value.status) else Threw;
            RowAt(RecordRefund(w, id, answer).db, id) == R.DoRecord(s, said).at.row
  {
  }

  // ---------------------------------------------------------------- reads

  /** What a request reads of the booking decides alike at both grains. */
  lemma ReadsAgree(db: Database, id: Id, s: R.Shared, now: Time, spaceId: Id)
    requires id in db.rows && Shows(db, now, id, s)
    ensures R.Lapsed(Seen(db.rows[id]), now) <==> Expired(db.rows[id], now)
    ensures R.AfterRead(s, Seen(db.rows[id]), R.Reconciles, now).MustLookUp? <==> Reconcilable(db.rows[id])
    ensures R.Owed(Seen(db.rows[id])) && db.rows[id].spaceId == spaceId <==> AwaitsRefund(db, id, spaceId)
  {
  }

  /** A retry that has read its owner's booking claims, releases or refuses alike. */
  lemma RetryReadAgrees(db: Database, id: Id, s: R.Shared, now: Time, spaceId: Id)
    requires id in db.rows && Shows(db, now, id, s) && s.deskLive == Bookable(db, db.rows[id].resource, spaceId)
    ensures var b := db.rows[id];
            var next := R.AfterRead(s, Seen(b), R.Retries, now);
            var starts := RetryChecks(db, id, spaceId, b.userId).PaymentStarted?;
            && (next == R.MustClaim(Seen(b)) <==> starts && !(b.status.FAILED? && Expired(b, now)))
            && (next == R.ReleaseOf(Seen(b)) <==> starts && b.status.FAILED? && Expired(b, now))
            && (next == R.Done <==> !starts)
  {
  }

  /** A delete finds the booking active alike, of a desk or of its zone. */
  lemma ActiveAgrees(db: Database, id: Id, s: R.Shared, at: Time, zone: bool)
    requires id in db.rows && s.row == RowAt(db, id) && s.end == db.rows[id].end
    requires db.rows[id].resource in db.items && s.deskLive == db.items[db.rows[id].resource].deletedAt.None?
    ensures var target := if zone then WholeZone(db.items[db.rows[id].resource].zoneId) else OneItem(db.rows[id].resource);
            R.Active(s, Seen(db.rows[id]), at) <==> Active(db, db.rows[id].spaceId, target, at, db.rows[id])
  {
  }

  /** Its transaction writes the booking it found alike. */
  lemma CommitAgrees(db: Database, id: Id, now: Time)
    requires id in db.rows
    ensures RowAt(CancelRows(db, {id}, now), id) == Some(R.CancelledRow(Seen(db.rows[id]), Seen(db.rows[id])))
  {
  }

  /** And takes the desk, or the zone with its desk, out of the live ones alike. */
  lemma DeleteAgrees(db: Database, r: Resource, s: R.Shared, saw: Option<R.Row>, now: Time, zone: bool)
    requires r in db.items && db.items[r].zoneId in db.zones && (db.items[r].deletedAt.None? ==> db.zones[db.items[r].zoneId].deletedAt.None?)
    requires s.deskLive == db.items[r].deletedAt.None? && s.zoneLive == db.zones[db.items[r].zoneId].deletedAt.None?
    requires if zone then s.zoneLive else s.deskLive
    ensures var z := db.items[r].zoneId;
            var x := SoftDelete(db, if zone then WholeZone(z) else OneItem(r), now);
            var t := R.DoCommit(s, if zone then R.DeleteZone else R.DeleteDesk, saw).at;
            t.deskLive == x.items[r].deletedAt.None? && t.zoneLive == x.zones[z].deletedAt.None?
  {
  }

  // ---------------------------------------------------------------- Stripe

  /** What a reconcile decides of an answered look-up. */
  lemma LookUpAgrees(intents: map<Id, Intent>, id: Id, s: R.Shared, q: Id, luck: R.Luck)
    requires Ledger(intents, id, s) && q in s.intents && luck.looked && luck.declined == intents[q].failedAttempt
    ensures var next := R.DoLookUp(s, q, luck).pc;
            match Resolve(id, Returned(intents[q]))
            case None => next == R.Done
            case Some(r) => next == R.MustWrite(q, r.paid)
  {
  }

  /** A cancel with its look-up: the weather of the two calls is the luck of the one step. */
  lemma CancelAgrees(w: World, id: Id, s: R.Shared, p: Id, luck: R.Luck)
    requires Ledger(Turn(w).stripe.intents, id, s) && p in s.intents && !Turn(w).env.halted
    requires var w1 := ApiCancel(w, p).0;
             && luck.fault == Turn(w).env.sky.fault && luck.shown == Turn(w).env.sky.shownCanceled
             && luck.looked == ApiRetrieve(w1, p).1.Returned? && Turn(w1).stripe == w1.stripe
    ensures CancelIntent(w, p).1 == R.CancelCall(s, p, luck).out
    ensures Ledger(CancelIntent(w, p).0.stripe.intents, id, s.(intents := R.CancelCall(s, p, luck).intents))
  {
    var w1 := ApiCancel(w, p).0;
    assert Ledger(w1.stripe.intents, id, s.(intents := R.CancelCall(s, p, luck).intents));
  }

  /** What an answered, or unanswered, cancel makes a release and a settlement go on to do. */
  lemma CancelDecides(s: R.Shared, p: Id, read: R.Row, luck: R.Luck)
    requires read.intent == Some(p)
    ensures var out := R.CancelCall(s, p, luck).out;
            && R.DoCancel(s, read, luck).pc
               == (if out.Threw? then R.Done else if out.value.WasSucceeded? then R.MustMark(read) else R.MustDelete(read))
            && R.DoRelease(s, p, luck).pc
               == (if out == Returned(WasSucceeded) then R.MustMarkLate(p)
                   else if out == Returned(WasCanceled) then R.MustMarkReleased else R.Done)
  {
    hide R.CancelCall;
  }

  /** Stripe lets one intent move alike. */
  lemma MovesAgree(intents: map<Id, Intent>, id: Id, s: R.Shared, p: Id, to: IntentStatus)
    requires Ledger(intents, id, s) && p in s.intents
    ensures Ledger(Drift(intents, intents[p := intents[p].(status := to)]), id, R.DoMove(s, p, to))
  {
    var moved := intents[p := intents[p].(status := to)];
    if Terminal(intents[p].status) && intents[p].status == to { assert moved == intents; }
    assert IntentsGrow(intents, moved) <==> IntentStep(intents[p], moved[p]);
    assert PaidAfterAttach(intents, moved) <==> (to.Succeeded? ==> intents[p].status.Succeeded? || intents[p].attached);
  }

  /** A new intent. */
  lemma CreateAgrees(w: World, id: Id, s: R.Shared, payer: R.Payer, amount: int, luck: R.Luck)
    requires Ledger(Turn(w).stripe.intents, id, s) && s.nextIntent == w.stripe.nextIntent && amount > 0
    requires luck.fault == (if Turn(w).env.halted then Stop else Turn(w).env.sky.fault)
    requires s.nextIntent !in s.intents
    ensures var (v, made) := CreateIntent(w, id, amount);
            var t := R.DoCreate(s, payer, luck);
            && t.pc == (if made.Returned? then R.MustAttach(payer, made.value) else R.MustHandBack(payer))
            && Ledger(v.stripe.intents, id, t.at) && t.at.nextIntent == v.stripe.nextIntent
  {
  }

  /** A refund call under the booking's key. */
  lemma RefundAgrees(w: World, id: Id, s: R.Shared, p: Id, luck: R.Luck)
    requires Ledger(Turn(w).stripe.intents, id, s) && p in s.intents && !Turn(w).env.halted
    requires luck.fault == Turn(w).env.sky.fault && luck.refundStatus == Turn(w).env.sky.refundStatus
    requires s.kept == (if id in w.stripe.refunds then Some(R.Kept(w.stripe.refunds[id].intent, w.stripe.refunds[id].status)) else None)
    ensures var (v, answer) := RefundIntent(w, p, id);
            var t := R.DoRefund(s, p, luck);
            && t.pc == R.MustRecord(if answer.Returned? then Returned(answer.value.status) else Threw)
            && t.at.kept == if id in v.stripe.refunds then Some(R.Kept(v.stripe.refunds[id].intent, v.stripe.refunds[id].status)) else None
  {
  }

  // ----------------------------------------------------------- retry race

  function Glimpse(b: Booking): RR.Row { RR.Row(b.status, b.holdExpiresAt, b.intent) }

  /** The retry race takes the same steps on the row of an uncancelled booking of its owner. */
  lemma RetryRaceClaims(w: World, id: Id, race: RR.Race, r: Id, before: Booking)
    requires !Turn(w).env.halted && id in w.db.rows && race.row == Glimpse(w.db.rows[id]) && w.db.rows[id].cancelledAt.None?
    requires r in race.pcs && race.pcs[r] == RR.HasRead(Glimpse(before))
    ensures var (v, won) := Claim(w, id, w.db.rows[id].userId, before.status);
            var t := RR.Act(race, RR.Claim(r, v.env.now));
            id in v.db.rows && t.row == Glimpse(v.db.rows[id]) && (won <==> t.pcs[r].HasClaimed?)
  {
    hide Turn;
    Still(w);
  }

  lemma RetryRaceAttaches(w: World, id: Id, race: RR.Race, r: Id, before: Booking, p: Id, amount: int)
    requires !Turn(w).env.halted && id in w.db.rows && race.row == Glimpse(w.db.rows[id]) && p in Turn(w).stripe.intents
    requires r in race.pcs && race.pcs[r] == RR.HasIntent(Glimpse(before), p)
    ensures var v := Attach(w, id, p, amount).0;
            id in v.db.rows && RR.Act(race, RR.Attach(r, v.env.now)).row == Glimpse(v.db.rows[id])
  {
    hide Turn;
    Still(w);
  }

  lemma RetryRaceHandsBack(w: World, id: Id, race: RR.Race, r: Id, before: Booking)
    requires !Turn(w).env.halted && id in w.db.rows && race.row == Glimpse(w.db.rows[id])
    requires r in race.pcs && race.pcs[r] == RR.MustRevert(Glimpse(before))
    ensures var v := Revert(w, id, before);
            id in v.db.rows && RR.Act(race, RR.Revert(r)).row == Glimpse(v.db.rows[id])
  {
    hide Turn;
    Still(w);
  }
}
