/** Whole runs: any sequence of requests, webhook deliveries and administrative changes, each with its own
    behaviour of Stripe, of the clock and of crashes. What holds of every run is stated here. */
module Runs {
  import opened Schema
  import opened StripeCalls
  import opened Bookings
  import opened Webhook
  import opened Deletion
  import opened Protocol
  import opened BookingProofs
  import opened ListAndRetryProofs
  import opened WebhookProofs
  import RemoveProofs

  /** The administrative writes the protocol depends on. */
  datatype Change =
    | AddZone(zoneId: Id, ofSpace: Id)
    | SetActive(zoneId: Id, active: bool)
    | AddItem(resource: Resource, inZone: Id, ofSpace: Id, hourly: Option<int>, daily: Option<int>)
    | Reprice(resource: Resource, hourly: Option<int>, daily: Option<int>)
    | Configure(spaces: map<Id, Space>)

  /** Desks and rooms are only added to a live zone of the space; nothing else restricts these writes. */
  function Administer(db: Database, c: Change): Database {
    match c
    case AddZone(z, s) => if z in db.zones then db else db.(zones := db.zones[z := Zone(s, true, None)])
    case SetActive(z, a) => if z !in db.zones then db else db.(zones := db.zones[z := db.zones[z].(isActive := a)])
    case AddItem(r, z, s, h, d) =>
      if r in db.items || z !in db.zones || db.zones[z].deletedAt.Some? || db.zones[z].spaceId != s then db
      else db.(items := db.items[r := Item(z, h, d, None)])
    case Reprice(r, h, d) =>
      if r !in db.items then db
      else db.(items := db.items[r := db.items[r].(hourlyRateCents := h, dailyRateCents := d)])
    case Configure(spaces) => db.(spaces := spaces)
  }

  datatype Call =
    | DoCreate(resource: Resource, start: Time, end: Time, spaceId: Id, userId: Id)
    | DoList(spaceId: Id, scope: Option<Id>)
    | DoRetry(id: Id, spaceId: Id, userId: Id)
    | DoWebhook(event: Event)
    | DoRemove(target: Target, spaceId: Id, confirmRefund: bool)
    | DoRetryRefund(id: Id, spaceId: Id)
    | DoChange(change: Change)
    | DoNothing

  datatype Step = Step(call: Call, future: seq<Weather>)

  /** A request starts in a fresh process: an earlier crash is over. */
  function Begin(w: World, future: seq<Weather>): World {
    w.(env := w.env.(future := future, halted := false))
  }

  function Exec(w: World, s: Step): World {
    var b := Begin(w, s.future);
    match s.call
    case DoCreate(r, start, end, space, user) => Create(b, r, start, end, space, user).0
    case DoList(space, scope) => FindAll(b, space, scope).0
    case DoRetry(id, space, user) => Retry(b, id, space, user).0
    case DoWebhook(e) => Handle(b, e)
    case DoRemove(target, space, confirm) => Remove(b, target, space, confirm).0
    case DoRetryRefund(id, space) => RetryRefund(b, id, space).0
    case DoChange(c) => b.(db := Administer(b.db, c))
    case DoNothing => Turn(b)
  }

  /** The only thing asked of the outside: webhook events are genuine. */
  ghost predicate Legal(w: World, s: Step) { s.call.DoWebhook? ==> Genuine(w, s.call.event) }

  function Run(w: World, steps: seq<Step>): World
    decreases steps
  {
    if steps == [] then w else Run(Exec(w, steps[0]), steps[1..])
  }

  ghost predicate LegalRun(w: World, steps: seq<Step>)
    decreases steps
  {
    steps == [] || (Legal(w, steps[0]) && LegalRun(Exec(w, steps[0]), steps[1..]))
  }

  /** No bookings, no charges, no refunds, and no live desk or room in a deleted zone. */
  ghost predicate Initial(w: World) {
    w.db.rows == map[] && w.stripe.intents == map[] && w.stripe.refunds == map[] && TreeOk(w.db)
  }

  ghost predicate Reachable(w: World) {
    exists w0: World, steps: seq<Step> :: Initial(w0) && LegalRun(w0, steps) && w == Run(w0, steps)
  }

  // ------------------------------------------------------- the main theorem

  /** What an administrative write leaves: a new zone live and active, the switch or the rates as set, and a new desk
      or room exactly in a live zone of the space. Bookings are never touched. */
  lemma AdministerEffect(db: Database, c: Change)
    ensures Administer(db, c).rows == db.rows && Administer(db, c).nextRow == db.nextRow
    ensures c.AddZone? && c.zoneId !in db.zones ==> Administer(db, c).zones == db.zones[c.zoneId := Zone(c.ofSpace, true, None)]
    ensures c.SetActive? && c.zoneId in db.zones ==>
              Administer(db, c).zones == db.zones[c.zoneId := db.zones[c.zoneId].(isActive := c.active)]
    ensures c.Reprice? && c.resource in db.items ==>
              Administer(db, c).items
              == db.items[c.resource := db.items[c.resource].(hourlyRateCents := c.hourly, dailyRateCents := c.daily)]
    ensures c.AddItem? && c.resource !in db.items ==>
              Administer(db, c).items
              == (if c.inZone in db.zones && db.zones[c.inZone].deletedAt.None? && db.zones[c.inZone].spaceId == c.ofSpace
                  then db.items[c.resource := Item(c.inZone, c.hourly, c.daily, None)] else db.items)
    ensures c.Configure? ==> Administer(db, c).spaces == c.spaces
  {
  }

  lemma AdministerTree(db: Database, c: Change)
    requires TreeOk(db)
    ensures TreeOk(Administer(db, c)) && TreeForward(db, Administer(db, c))
  {
  }

  lemma AdministerKeeps(w: World, c: Change)
    requires Inv(w)
    ensures var v := w.(db := Administer(w.db, c)); Inv(v) && Evolves(w, v)
  {
    hide RowsOk, LedgerOk, TreeOk, NoOverlap, RowsForward, TreeForward, StripeForward, AttachForward, DatesForward;
    AdministerTree(w.db, c);
    TreeMoves(w, Administer(w.db, c));
  }

  lemma BeginKeeps(w: World, future: seq<Weather>)
    requires Inv(w)
    ensures Inv(Begin(w, future)) && Evolves(w, Begin(w, future))
  {
    StripeMoves(w, Begin(w, future));
  }

  lemma ExecKeeps(w: World, s: Step)
    requires Inv(w) && Legal(w, s)
    ensures Inv(Exec(w, s)) && Evolves(w, Exec(w, s))
  {
    hide RowsOk, LedgerOk, TreeOk, NoOverlap, RowsForward, TreeForward, StripeForward, AttachForward, DatesForward;
    BeginKeeps(w, s.future);
    var b := Begin(w, s.future);
    match s.call {
      case DoCreate(r, start, end, space, user) => CreateSafe(b, r, start, end, space, user);
      case DoList(space, scope) => FindAllSafe(b, space, scope);
      case DoRetry(id, space, user) => RetryKeeps(b, id, space, user);
      case DoWebhook(e) => HandleKeeps(b, e);
      case DoRemove(target, space, confirm) => RemoveProofs.RemoveKeeps(b, target, space, confirm);
      case DoRetryRefund(id, space) => RemoveProofs.RetryRefundKeeps(b, id, space);
      case DoChange(c) => AdministerKeeps(b, c);
      case DoNothing => TurnKeeps(b);
    }
    EvolvesTrans(w, b, Exec(w, s));
  }

  /** Every run keeps the invariant and only moves forward, crashes included. */
  lemma {:induction false} RunSafe(w: World, steps: seq<Step>)
    requires Inv(w) && LegalRun(w, steps)
    ensures Inv(Run(w, steps)) && Evolves(w, Run(w, steps))
    decreases steps
  {
    if steps == [] {
      EvolvesRefl(w);
    } else {
      ExecKeeps(w, steps[0]);
      RunSafe(Exec(w, steps[0]), steps[1..]);
      EvolvesTrans(w, Exec(w, steps[0]), Run(w, steps));
    }
  }

  lemma ReachableInv(w: World)
    requires Reachable(w)
    ensures Inv(w)
  {
    var w0: World, steps: seq<Step> :| Initial(w0) && LegalRun(w0, steps) && w == Run(w0, steps);
    RunSafe(w0, steps);
  }

  // ------------------------------------------------ what that means, in words

  /** In every reachable state money is backed: a booking that counts as collected has an attached charge of
      its own that Stripe reports succeeded, for exactly its price. */
  lemma MoneyIsBacked(w: World, id: Id)
    requires Reachable(w) && id in w.db.rows && Money(w.db.rows[id].status)
    ensures var b := w.db.rows[id];
            && b.intent.Some? && b.intent.value in w.stripe.intents
            && w.stripe.intents[b.intent.value].status.Succeeded?
            && w.stripe.intents[b.intent.value].bookingId == id
            && b.amountCents == Some(w.stripe.intents[b.intent.value].amountCents)
            && b.paidAt.Some? && b.holdExpiresAt.None?
            && (b.status.PAID? <==> b.cancelledAt.None?)
  {
    ReachableInv(w);
    RowOf(w, id);
  }

  /** No intent is attached to two bookings. */
  lemma IntentsAreNotShared(w: World, a: Id, b: Id)
    requires Reachable(w) && a in w.db.rows && b in w.db.rows
    requires w.db.rows[a].intent.Some? && w.db.rows[a].intent == w.db.rows[b].intent
    ensures a == b
  {
    ReachableInv(w);
    RowOf(w, a);
    RowOf(w, b);
  }

  /** No double booking, cancelled rows included: no instant belongs to two bookings of one resource. */
  lemma NoDoubleBooking(w: World, a: Id, b: Id, t: Time)
    requires Reachable(w) && a in w.db.rows && b in w.db.rows && a != b
    requires w.db.rows[a].resource == w.db.rows[b].resource
    ensures w.db.rows[a].start < w.db.rows[a].end
    ensures !(w.db.rows[a].start <= t < w.db.rows[a].end && w.db.rows[b].start <= t < w.db.rows[b].end)
  {
    ReachableInv(w);
    RowOf(w, a);
    RowOf(w, b);
    assert !Overlap(w.db.rows[a].start, w.db.rows[a].end, w.db.rows[b].start, w.db.rows[b].end);
  }

  /** Wherever a process stopped, an unpaid hold carries a deadline at most fifteen minutes away, and a booking
      that is no hold carries none. */
  lemma HoldsAreBounded(w: World, id: Id)
    requires Reachable(w) && id in w.db.rows
    ensures var b := w.db.rows[id];
            && (Hold(b.status) && b.cancelledAt.None? <==> b.holdExpiresAt.Some?)
            && (b.holdExpiresAt.Some? ==> b.holdExpiresAt.value <= w.env.now + 15 * 60 * 1000)
  {
    ReachableInv(w);
    RowOf(w, id);
  }

  /** A refund is never more than the one charge it gives back, and REFUNDED means given back in full. */
  lemma RefundsAreFull(w: World, id: Id)
    requires Reachable(w)
    ensures id in w.stripe.refunds ==>
              var r := w.stripe.refunds[id];
              && r.intent in w.stripe.intents && w.stripe.intents[r.intent].bookingId == id
              && w.stripe.intents[r.intent].status.Succeeded? && r.amountCents == w.stripe.intents[r.intent].amountCents
    ensures id in w.db.rows && w.db.rows[id].status.REFUNDED? ==>
              && id in w.stripe.refunds && !w.stripe.refunds[id].status.RefundDeclined?
              && w.db.rows[id].refundedCents == w.db.rows[id].amountCents == Some(w.stripe.refunds[id].amountCents)
  {
    ReachableInv(w);
    if id in w.stripe.refunds { RefundOf(w, id); }
    if id in w.db.rows { RowOf(w, id); }
  }

  /** A refund the table says is owed can always be asked for again, also after a crash right behind the transaction
      of a delete. Money that came in for a cancelled hold after such a crash is not among it: see `Stranded`. */
  lemma OwedRefundCanBeRetried(w: World, id: Id)
    requires Reachable(w) && id in w.db.rows
    requires w.db.rows[id].status.REFUND_PENDING? || w.db.rows[id].status.REFUND_FAILED?
    ensures AwaitsRefund(w.db, id, w.db.rows[id].spaceId)
  {
    ReachableInv(w);
    RowOf(w, id);
  }

  /** A live desk or room never sits in a deleted zone, and a booking's space is its resource's space. */
  lemma TreeIsSound(w: World, id: Id, r: Resource)
    requires Reachable(w)
    ensures r in w.db.items && w.db.items[r].deletedAt.None? ==>
              w.db.items[r].zoneId in w.db.zones && w.db.zones[w.db.items[r].zoneId].deletedAt.None?
    ensures id in w.db.rows ==>
              var b := w.db.rows[id];
              && b.resource in w.db.items && w.db.items[b.resource].zoneId in w.db.zones
              && w.db.zones[w.db.items[b.resource].zoneId].spaceId == b.spaceId
  {
    ReachableInv(w);
    if id in w.db.rows { RowOf(w, id); }
  }

  /** Status never goes back, REFUNDED is final, what was agreed stays agreed, a booking with money under it
      is never removed, and the id of a removed row never comes back. */
  lemma NothingGoesBack(w: World, steps: seq<Step>, id: Id)
    requires Reachable(w) && LegalRun(w, steps) && id in w.db.rows
    ensures var v := Run(w, steps);
            var a := w.db.rows[id];
            && (Money(a.status) || a.cancelledAt.Some? ==> id in v.db.rows)
            && (id in v.db.rows ==>
                  var b := v.db.rows[id];
                  && Rank(a.status) <= Rank(b.status)
                  && (a.status.REFUNDED? ==> b == a)
                  && a.resource == b.resource && a.start == b.start && a.end == b.end && a.amountCents == b.amountCents
                  && (a.cancelledAt.Some? ==> b.cancelledAt == a.cancelledAt)
                  && (Money(a.status) ==> b.intent == a.intent))
  {
    ReachableInv(w);
    RunSafe(w, steps);
  }

  /** Money is dated when it is recorded: a booking that begins to carry money on a stretch of a run is paid at an
      instant of that stretch. */
  lemma PaymentsAreDated(w: World, steps: seq<Step>, id: Id)
    requires Reachable(w) && LegalRun(w, steps) && id in Run(w, steps).db.rows && Money(Run(w, steps).db.rows[id].status)
    requires !(id in w.db.rows && Money(w.db.rows[id].status))
    ensures var v := Run(w, steps); v.db.rows[id].paidAt.Some? && w.env.now <= v.db.rows[id].paidAt.value <= v.env.now
  {
    ReachableInv(w);
    RunSafe(w, steps);
    var v := Run(w, steps);
    if id in w.db.rows { assert Dated(w.db.rows[id], v.db.rows[id], w.env.now, v.env.now); }
  }

  lemma RemovedStaysRemoved(w: World, mid: seq<Step>, later: seq<Step>, id: Id)
    requires Reachable(w) && id in w.db.rows
    requires LegalRun(w, mid) && id !in Run(w, mid).db.rows && LegalRun(Run(w, mid), later)
    ensures id !in Run(Run(w, mid), later).db.rows
  {
    ReachableInv(w);
    RunSafe(w, mid);
    RunSafe(Run(w, mid), later);
    RowOf(w, id);
  }

  /** Deleting a resource is final: along every later run only past bookings, lapsed holds, and lapsed holds
      that turned out paid stand on it, and each of them was there when it was deleted. */
  lemma DeletedStaysEmpty(w: World, future: seq<Weather>, target: Target, spaceId: Id, confirm: bool, later: seq<Step>, id: Id)
    requires Reachable(w)
    requires var (v, out) := Remove(Begin(w, future), target, spaceId, confirm);
             && out.Deleted? && LegalRun(v, later)
             && id in Run(v, later).db.rows
             && Within(w.db, target, Run(v, later).db.rows[id].resource)
             && Run(v, later).db.rows[id].cancelledAt.None?
    ensures var v := Remove(Begin(w, future), target, spaceId, confirm).0;
            var b := Run(v, later).db.rows[id];
            && id in v.db.rows && RemoveProofs.Residue(v.db.rows[id], w.env.now)
            && (RemoveProofs.Residue(b, w.env.now) || (b.status.PAID? && Hold(v.db.rows[id].status)))
  {
    ReachableInv(w);
    BeginKeeps(w, future);
    var w0 := Begin(w, future);
    var v := Remove(w0, target, spaceId, confirm).0;
    RemoveProofs.RemoveKeeps(w0, target, spaceId, confirm);
    RemoveProofs.RemoveCovers(w0, target, spaceId, confirm);
    RunSafe(v, later);
    RemoveProofs.StaysCovered(w0.db, v, Run(v, later), target, w0.env.now, id);
  }
}
