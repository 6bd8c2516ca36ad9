/** What a create request does, in terms of the fields it reads and writes. */
module CreateEffects {
  import opened Schema
  import opened Pricing
  import opened StripeCalls
  import opened Bookings
  import opened Protocol
  import opened BookingProofs
  import opened ReachableStripe

  /** An unpaid hold whose deadline has passed. */
  predicate PastDeadline(b: Booking, now: Time) {
    (b.status.PENDING? || b.status.FAILED?) && b.holdExpiresAt.Some? && b.holdExpiresAt.value < now
  }

  // -------------------------------------------------------------- refusals

  predicate LiveHere(db: Database, resource: Resource, spaceId: Id) {
    && resource in db.items && db.items[resource].deletedAt.None?
    && db.items[resource].zoneId in db.zones && db.zones[db.items[resource].zoneId].spaceId == spaceId
  }

  /** The price list of a desk or room, and the flat price of its space. */
  function ListPrice(db: Database, resource: Resource, spaceId: Id, start: Time, end: Time): Option<int>
    requires resource in db.items
  {
    AmountCents(
      db.items[resource].hourlyRateCents, db.items[resource].dailyRateCents, start, end,
      if spaceId in db.spaces then db.spaces[spaceId].priceCents else None)
  }

  predicate Offered(db: Database, resource: Resource, spaceId: Id, start: Time, end: Time) {
    && LiveHere(db, resource, spaceId)
    && db.zones[db.items[resource].zoneId].isActive
    && ListPrice(db, resource, spaceId, start, end).Some?
    && spaceId in db.spaces && db.spaces[spaceId].manager.Some?
  }

  predicate TakesPayments(db: Database, spaceId: Id) {
    && spaceId in db.spaces && db.spaces[spaceId].manager.Some?
    && db.spaces[spaceId].manager.value.hasAccount && db.spaces[spaceId].manager.value.onboarded
  }

  /** The price and the mode of payment that passed checks go on with. */
  lemma CheckedPrice(db: Database, resource: Resource, start: Time, end: Time, spaceId: Id)
    ensures var (verdict, amount, paid) := CreateChecks(db, resource, start, end, spaceId);
            verdict.PaymentStarted? ==>
              && resource in db.items && ListPrice(db, resource, spaceId, start, end) == Some(amount)
              && paid == TakesPayments(db, spaceId)
  {
    hide AmountCents;
  }

  /** Which requests are refused, and how; a refusal changes nothing. */
  lemma CreateRefuses(w: World, resource: Resource, start: Time, end: Time, spaceId: Id, userId: Id)
    ensures var (v, a) := Create(w, resource, start, end, spaceId, userId);
            && (a.NotFound? <==> start < end && !LiveHere(w.db, resource, spaceId))
            && (a.BadRequest? <==>
                  start >= end || (LiveHere(w.db, resource, spaceId) && !Offered(w.db, resource, spaceId, start, end)))
            && (a.NotFound? || a.BadRequest? ==> v == w)
            && (start < end && Offered(w.db, resource, spaceId, start, end) ==> a.Created? || a.Conflict?)
  {
    hide ClearStale, Insert, CreateAndAttach, DeleteMany;
  }

  // ------------------------------------------------------- other bookings

  /** Creating touches no other booking but holds past their deadline on the same resource: those may go or turn out
      paid, everything else is exactly as it was. */
  lemma CreateSparesTheLive(w: World, resource: Resource, start: Time, end: Time, spaceId: Id, userId: Id, id: Id)
    requires Inv(w) && id in w.db.rows
    ensures var v := Create(w, resource, start, end, spaceId, userId).0;
            (id in v.db.rows && v.db.rows[id] == w.db.rows[id])
            || (w.db.rows[id].resource == resource && PastDeadline(w.db.rows[id], w.env.now))
  {
    hide RowsOk, LedgerOk, TreeOk, NoOverlap, RowsForward, TreeForward, StripeForward, AttachForward, DatesForward, ClearStale, Book;
    var (verdict, amount, paid) := CreateChecks(w.db, resource, start, end, spaceId);
    if verdict.PaymentStarted? {
      ClearStaleKeeps(w, resource);
      var w1 := ClearStale(w, resource);
      NextIsNew(w1);
      BookFrame(w1, resource, start, end, spaceId, userId, amount, paid);
    }
  }

  // ------------------------------------------------------------ the booking

  lemma InsertEffect(
    w: World, resource: Resource, start: Time, end: Time, spaceId: Id, userId: Id, amount: int, paid: bool)
    ensures var (v, ok) := Insert(w, resource, start, end, spaceId, userId, amount, paid);
            ok ==>
              && !v.env.halted && w.db.nextRow in v.db.rows
              && v.db.rows[w.db.nextRow] == Booking(
                   resource, userId, spaceId, start, end, v.env.now, Some(amount), None, if paid then PENDING else UNPAID,
                   None, if paid then Some(v.env.now + 15 * 60 * 1000) else None, None, None, None, None)
  {
  }

  lemma AttachEffect(w: World, id: Id, amount: int)
    requires id in w.db.rows
    ensures var (v, made) := CreateAndAttach(w, id, amount);
            made.Returned? ==>
              && !v.env.halted && id in v.db.rows && made.value in v.stripe.intents
              && v.stripe.intents[made.value].bookingId == id && v.stripe.intents[made.value].amountCents == amount
              && CalculateFeeSplit(amount).Some?
              && v.db.rows[id] == w.db.rows[id].(
                   status := PENDING, intent := Some(made.value),
                   platformFeeCents := Some(CalculateFeeSplit(amount).value.platformFeeCents),
                   holdExpiresAt := Some(v.env.now + 15 * 60 * 1000))
  {
  }

  /** The booking a create answers with, field by field: the price is that of its own resource and space, and it is
      held for fifteen minutes behind an intent for that price, or stands unpaid if the space takes no payments. */
  lemma CreatedIsAsAsked(w: World, resource: Resource, start: Time, end: Time, spaceId: Id, userId: Id)
    requires Inv(w) && Create(w, resource, start, end, spaceId, userId).1.Created?
    ensures var v := Create(w, resource, start, end, spaceId, userId).0;
            var id := w.db.nextRow;
            && resource in w.db.items && id in v.db.rows
            && var b, price := v.db.rows[id], ListPrice(w.db, resource, spaceId, start, end);
               && price.Some? && w.env.now <= b.createdAt <= v.env.now
               && if TakesPayments(w.db, spaceId) then
                    && b.intent.Some? && b.intent.value in v.stripe.intents
                    && v.stripe.intents[b.intent.value].bookingId == id
                    && v.stripe.intents[b.intent.value].amountCents == price.value
                    && CalculateFeeSplit(price.value).Some?
                    && b == Booking(
                         resource, userId, spaceId, start, end, b.createdAt, price,
                         Some(CalculateFeeSplit(price.value).value.platformFeeCents), PENDING, b.intent,
                         Some(v.env.now + 15 * 60 * 1000), None, None, None, None)
                  else
                    b == Booking(
                      resource, userId, spaceId, start, end, b.createdAt, price, None, UNPAID, None, None, None, None, None, None)
  {
    hide RowsOk, LedgerOk, TreeOk, NoOverlap, RowsForward, TreeForward, StripeForward, AttachForward, ClearStale, Insert,
      CreateAndAttach, PriceOf, ListPrice;
    var (verdict, amount, paid) := CreateChecks(w.db, resource, start, end, spaceId);
    CheckedPrice(w.db, resource, start, end, spaceId);
    var w1 := ClearStale(w, resource);
    ClearStaleKeeps(w, resource);
    InsertEffect(w1, resource, start, end, spaceId, userId, amount, paid);
    InsertOneKeeps(w1, resource, start, end, spaceId, userId, amount, paid);
    var (w2, ok) := Insert(w1, resource, start, end, spaceId, userId, amount, paid);
    if paid {
      AttachEffect(w2, w1.db.nextRow, amount);
      CreateAndAttachKeeps(w2, w1.db.nextRow, amount);
    }
  }

  // ------------------------------------------------------------- yes or no

  predicate Meets(b: Booking, resource: Resource, start: Time, end: Time) {
    b.resource == resource && start < b.end && b.start < end
  }

  /** With Stripe reachable and a price that can be paid, an offered request is answered yes when no booking of the
      resource meets the range, and no when one does that is not a hold past its deadline. */
  lemma CreateDecides(w: World, resource: Resource, start: Time, end: Time, spaceId: Id, userId: Id)
    requires Inv(w) && ClearSkies(w) && start < end && Offered(w.db, resource, spaceId, start, end)
    requires TakesPayments(w.db, spaceId) ==> ListPrice(w.db, resource, spaceId, start, end).value > 0
    ensures var a := Create(w, resource, start, end, spaceId, userId).1;
            && ((forall id | id in w.db.rows :: !Meets(w.db.rows[id], resource, start, end)) ==> a == Created(w.db.nextRow))
            && ((exists id | id in w.db.rows ::
                   Meets(w.db.rows[id], resource, start, end) && !PastDeadline(w.db.rows[id], w.env.now)) ==> a.Conflict?)
  {
    hide RowsOk, LedgerOk, TreeOk, NoOverlap, RowsForward, TreeForward, StripeForward, AttachForward, DatesForward, ClearStale,
      CreateAndAttach, Turn;
    var (_, amount, paid) := CreateChecks(w.db, resource, start, end, spaceId);
    var w1 := ClearStale(w, resource);
    ClearStaleKeeps(w, resource);
    ClearStaysClear(w, resource);
    TurnClear(w1);
    SameRows(w1);
    var (w2, ok) := Insert(w1, resource, start, end, spaceId, userId, amount, paid);
    if ok && paid {
      PayGoesThrough(w2, w1.db.nextRow, amount);
    }
    if id :| id in w.db.rows && Meets(w.db.rows[id], resource, start, end) && !PastDeadline(w.db.rows[id], w.env.now) {
      assert id in w1.db.rows && Overlap(start, end, w1.db.rows[id].start, w1.db.rows[id].end);
    }
  }

  lemma SameRows(w: World)
    ensures Turn(w).db == w.db
  {
  }

  lemma ClearStaysClear(w: World, resource: Resource)
    requires Inv(w) && ClearSkies(w)
    ensures ClearSkies(ClearStale(w, resource))
  {
    hide RowsOk, LedgerOk, TreeOk, NoOverlap, ClearSkies;
    var stale := StaleIds(w.db, resource, w.env.now);
    if stale != [] {
      HoldRefsOk(w, stale);
      ReleaseAnswers(w, HoldRefs(w.db.rows, stale));
    }
  }

  lemma PayGoesThrough(w: World, id: Id, amount: int)
    requires ClearSkies(w) && id in w.db.rows && amount > 0
    ensures CreateAndAttach(w, id, amount).1.Returned? && ClearSkies(CreateAndAttach(w, id, amount).0)
  {
    TurnClear(w);
    TurnClear(CreateIntent(w, id, amount).0);
  }
}
