/** What a payment retry does, in terms of the fields it reads and writes. */
module RetryEffects {
  import opened Schema
  import opened Pricing
  import opened StripeCalls
  import opened Bookings
  import opened Protocol
  import opened ListAndRetryProofs
  import opened ReachableStripe
  import opened CreateEffects

  predicate OwnedAndLive(db: Database, id: Id, spaceId: Id, userId: Id) {
    id in db.rows && db.rows[id].userId == userId && LiveHere(db, db.rows[id].resource, spaceId)
  }

  /** Whether a payment may be started for the booking at all. */
  predicate Payable(db: Database, id: Id, spaceId: Id, userId: Id, now: Time) {
    && OwnedAndLive(db, id, spaceId, userId)
    && db.rows[id].cancelledAt.None?
    && db.rows[id].status in {UNPAID, FAILED}
    && !PastDeadline(db.rows[id], now)
    && db.rows[id].amountCents.Some?
    && TakesPayments(db, spaceId)
  }

  /** Which retries are refused, and how. Only one of a failed hold past its deadline goes on to do anything. */
  lemma RetryRefuses(w: World, id: Id, spaceId: Id, userId: Id)
    requires Inv(w)
    ensures var (v, a) := Retry(w, id, spaceId, userId);
            && (a.NotFound? <==> !OwnedAndLive(w.db, id, spaceId, userId))
            && (OwnedAndLive(w.db, id, spaceId, userId) ==>
                  var b := w.db.rows[id];
                  && (b.cancelledAt.Some? || b.status.PAID? ==> a.BadRequest? && v == w)
                  && (b.cancelledAt.None? && b.status.PENDING? ==> a.Conflict? && v == w)
                  && (b.cancelledAt.None? && b.status in {UNPAID, FAILED} && !PastDeadline(b, w.env.now) ==>
                        Payable(w.db, id, spaceId, userId, w.env.now) || (a.BadRequest? && v == w))
                  && (b.cancelledAt.None? && b.status.FAILED? && PastDeadline(b, w.env.now) ==> a.BadRequest? || a.Conflict?))
            && (a.PaymentStarted? || a.Failed? ==> Payable(w.db, id, spaceId, userId, w.env.now))
            && (Payable(w.db, id, spaceId, userId, w.env.now) && !Claim(w, id, userId, w.db.rows[id].status).1 ==> a.Conflict?)
  {
    hide RowsOk, LedgerOk, TreeOk, NoOverlap, Release, CreateAndAttach, Revert, Claim;
    if id in w.db.rows { RowOf(w, id); }
  }

  /** With Stripe reachable a retry that may start starts, exactly when there is a positive price to pay. */
  lemma RetryStarts(w: World, id: Id, spaceId: Id, userId: Id)
    requires Inv(w) && ClearSkies(w) && Payable(w.db, id, spaceId, userId, w.env.now)
    ensures var a := Retry(w, id, spaceId, userId).1;
            if w.db.rows[id].amountCents.value > 0 then a.PaymentStarted? else a.Failed?
  {
    hide RowsOk, LedgerOk, TreeOk, NoOverlap, Release, CreateAndAttach, Revert, Turn;
    TurnClear(w);
    SameRows(w);
    RowOf(w, id);
    var b := w.db.rows[id];
    var (w1, won) := Claim(w, id, userId, b.status);
    assert won && id in w1.db.rows && ClearSkies(w1);
    if b.amountCents.value > 0 {
      PayGoesThrough(w1, id, b.amountCents.value);
    } else {
      NothingToPay(w1, id, b.amountCents.value);
    }
  }

  lemma NothingToPay(w: World, id: Id, amount: int)
    requires amount <= 0
    ensures CreateAndAttach(w, id, amount).1.Threw?
  {
  }

  /** The booking a started retry leaves, field by field: pending behind a new intent for its own price, held for
      fifteen minutes from now. */
  lemma RetriedIsHeldAgain(w: World, id: Id, spaceId: Id, userId: Id)
    requires Inv(w) && Retry(w, id, spaceId, userId).1.PaymentStarted?
    ensures var v := Retry(w, id, spaceId, userId).0;
            && id in w.db.rows && id in v.db.rows
            && var b, c := w.db.rows[id], v.db.rows[id];
               && b.amountCents.Some? && CalculateFeeSplit(b.amountCents.value).Some?
               && c.intent.Some? && c.intent.value in v.stripe.intents && c.intent.value !in w.stripe.intents
               && v.stripe.intents[c.intent.value].bookingId == id
               && v.stripe.intents[c.intent.value].amountCents == b.amountCents.value
               && c == b.(status := PENDING, intent := c.intent,
                          platformFeeCents := Some(CalculateFeeSplit(b.amountCents.value).value.platformFeeCents),
                          holdExpiresAt := Some(v.env.now + 15 * 60 * 1000))
  {
    hide TreeOk, NoOverlap, RowsOk, Release, CreateAndAttach, Revert, Claim;
    var b := w.db.rows[id];
    RowOf(w, id);
    ClaimFrame(w, id, userId, b.status);
    ClaimStripe(w, id, userId, b.status);
    var (w1, won) := Claim(w, id, userId, b.status);
    AttachEffect(w1, id, b.amountCents.value);
    AttachIsNew(w1, id, b.amountCents.value);
  }

  lemma ClaimStripe(w: World, id: Id, userId: Id, was: Status)
    ensures var w1 := Claim(w, id, userId, was).0;
            w1.stripe.nextIntent == w.stripe.nextIntent && w1.stripe.intents.Keys == w.stripe.intents.Keys
  {
  }

  lemma AttachIsNew(w: World, id: Id, amount: int)
    ensures var made := CreateAndAttach(w, id, amount).1; made.Returned? ==> made.value == w.stripe.nextIntent
  {
  }

  /** The claim is won exactly by the owner of an uncancelled booking whose status is still what was read. */
  lemma ClaimEffect(w: World, id: Id, userId: Id, was: Status)
    ensures var (v, won) := Claim(w, id, userId, was);
            && (won <==> !v.env.halted && id in w.db.rows && w.db.rows[id].userId == userId
                         && w.db.rows[id].cancelledAt.None? && w.db.rows[id].status == was)
            && (won ==> v.db == w.db.(rows := w.db.rows[id := w.db.rows[id].(
                          status := PENDING, holdExpiresAt := Some(v.env.now + 15 * 60 * 1000))]))
            && (!won ==> v.db == w.db)
  {
  }
}
