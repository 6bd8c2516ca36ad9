/** The handlers of the bookings service as functions on the world. Every statement against the database and
    every Stripe call takes one turn of the outside first; once the process has stopped, nothing changes. */
module Bookings {
  import opened Schema
  import opened Pricing
  import opened StripeCalls

  datatype Answer =
    | Created(id: Id)
    | Listed(ids: seq<Id>)
    | PaymentStarted
    | BadRequest
    | NotFound
    | Conflict
    | Failed  // the error of the payment provider, rethrown

  // ------------------------------------------------------------ statements

  function PutRow(db: Database, id: Id, b: Booking): Database { db.(rows := db.rows[id := b]) }

  function DropRows(db: Database, ids: set<Id>): Database { db.(rows := db.rows - ids) }

  function Paid(b: Booking, now: Time): Booking { b.(status := PAID, holdExpiresAt := None, paidAt := Some(now)) }

  function MarkLastSecondPaid(w: World, id: Id): World {
    var t := Turn(w);
    if t.env.halted || id !in t.db.rows || !Hold(t.db.rows[id].status) then t
    else t.(db := PutRow(t.db, id, Paid(t.db.rows[id], t.env.now)))
  }

  function DeleteMany(w: World, ids: set<Id>): World {
    var t := Turn(w);
    if t.env.halted then t else t.(db := DropRows(t.db, ids))
  }

  // --------------------------------------------------------- expired holds

  datatype HoldRef = HoldRef(id: Id, intent: Option<Id>)

  function ReleaseLoop(w: World, todo: seq<HoldRef>, released: set<Id>): (World, set<Id>)
    decreases todo
  {
    if todo == [] then (w, released)
    else if todo[0].intent.None? then ReleaseLoop(w, todo[1..], released + {todo[0].id})
    else
      var (w1, out) := CancelIntent(w, todo[0].intent.value);
      match out
      case Threw => ReleaseLoop(w1, todo[1..], released)
      case Returned(WasSucceeded) => ReleaseLoop(MarkLastSecondPaid(w1, todo[0].id), todo[1..], released)
      case Returned(_) => ReleaseLoop(w1, todo[1..], released + {todo[0].id})
  }

  /** `releaseExpiredHolds` */
  function Release(w: World, todo: seq<HoldRef>): (World, set<Id>) {
    var (w1, released) := ReleaseLoop(w, todo, {});
    (if released == {} then w1 else DeleteMany(w1, released), released)
  }

  predicate Expired(b: Booking, now: Time) {
    Hold(b.status) && b.holdExpiresAt.Some? && b.holdExpiresAt.value < now
  }

  function HoldRefs(rows: map<Id, Booking>, ids: seq<Id>): (r: seq<HoldRef>)
    requires forall i | 0 <= i < |ids| :: ids[i] in rows
    ensures |r| == |ids|
    ensures forall i | 0 <= i < |ids| :: r[i] == HoldRef(ids[i], rows[ids[i]].intent)
  {
    if ids == [] then [] else [HoldRef(ids[0], rows[ids[0]].intent)] + HoldRefs(rows, ids[1..])
  }

  function StaleIds(db: Database, resource: Resource, now: Time): seq<Id> {
    Listing(db.nextRow, set id | id in db.rows && db.rows[id].resource == resource && Expired(db.rows[id], now))
  }

  // ------------------------------------------------------ payment intents

  function Attached(b: Booking, p: Id, fee: Option<int>, now: Time): Booking {
    b.(status := PENDING, intent := Some(p), platformFeeCents := fee, holdExpiresAt := Some(now + HOLD_MS))
  }

  function FeeOf(amount: int): Option<int> {
    match CalculateFeeSplit(amount) case None => None case Some(s) => Some(s.platformFeeCents)
  }

  /** The unguarded attach write; updating a row that is gone throws. */
  function Attach(w: World, id: Id, p: Id, amount: int): (World, Reply<Id>) {
    var t := Turn(w);
    if t.env.halted || id !in t.db.rows then (t, Threw)
    else
      (World(
         PutRow(t.db, id, Attached(t.db.rows[id], p, FeeOf(amount), t.env.now)),
         t.stripe.(intents := MarkAttached(t.stripe.intents, p)),
         t.env),
       Returned(p))
  }

  /** `createAndAttachPaymentIntent` */
  function CreateAndAttach(w: World, id: Id, amount: int): (World, Reply<Id>) {
    var (w1, made) := CreateIntent(w, id, amount);
    match made
    case Threw => (w1, Threw)
    case Returned(p) => Attach(w1, id, p, amount)
  }

  // ---------------------------------------------------------------- create

  /** `resolveBookable` */
  predicate Bookable(db: Database, resource: Resource, spaceId: Id) {
    && resource in db.items
    && db.items[resource].deletedAt.None?
    && db.items[resource].zoneId in db.zones
    && db.zones[db.items[resource].zoneId].spaceId == spaceId
  }

  predicate Overlap(s1: Time, e1: Time, s2: Time, e2: Time) { s1 < e2 && s2 < e1 }

  /** What the exclusion constraint tests before it lets a row in. */
  predicate SlotFree(rows: map<Id, Booking>, resource: Resource, start: Time, end: Time) {
    forall id | id in rows :: rows[id].resource == resource ==> !Overlap(start, end, rows[id].start, rows[id].end)
  }

  function ManagerOf(db: Database, spaceId: Id): Option<Manager> {
    if spaceId in db.spaces then db.spaces[spaceId].manager else None
  }

  function FlatPrice(db: Database, spaceId: Id): Option<int> {
    if spaceId in db.spaces then db.spaces[spaceId].priceCents else None
  }

  predicate PaymentsEnabled(m: Manager) { m.hasAccount && m.onboarded }

  function PriceOf(db: Database, resource: Resource, spaceId: Id, start: Time, end: Time): Option<int>
    requires resource in db.items
  {
    AmountCents(db.items[resource].hourlyRateCents, db.items[resource].dailyRateCents, start, end, FlatPrice(db, spaceId))
  }

  function NewBooking(
    resource: Resource, start: Time, end: Time, spaceId: Id, userId: Id, amount: int, paid: bool, now: Time): Booking
  {
    Booking(resource, userId, spaceId, start, end, now, Some(amount), None,
            if paid then PENDING else UNPAID, None, if paid then Some(now + HOLD_MS) else None,
            None, None, None, None)
  }

  /** The insert; `false` is the violated exclusion constraint, or a process that stopped. */
  function Insert(
    w: World, resource: Resource, start: Time, end: Time, spaceId: Id, userId: Id, amount: int, paid: bool)
    : (World, bool)
  {
    var t := Turn(w);
    if t.env.halted || !SlotFree(t.db.rows, resource, start, end) then (t, false)
    else
      var b := NewBooking(resource, start, end, spaceId, userId, amount, paid, t.env.now);
      (t.(db := PutRow(t.db, t.db.nextRow, b).(nextRow := t.db.nextRow + 1)), true)
  }

  /** The checks of `create`; a price and the payments switch when they all pass. */
  function CreateChecks(db: Database, resource: Resource, start: Time, end: Time, spaceId: Id)
    : (r: (Answer, int, bool))
    ensures r.0.PaymentStarted? ==> start < end && Bookable(db, resource, spaceId)
  {
    if start >= end then (BadRequest, 0, false)
    else if !Bookable(db, resource, spaceId) then (NotFound, 0, false)
    else if !db.zones[db.items[resource].zoneId].isActive then (BadRequest, 0, false)
    else if PriceOf(db, resource, spaceId, start, end).None? then (BadRequest, 0, false)
    else if ManagerOf(db, spaceId).None? then (BadRequest, 0, false)
    else
      (PaymentStarted, PriceOf(db, resource, spaceId, start, end).value,
       PaymentsEnabled(ManagerOf(db, spaceId).value))
  }

  function ClearStale(w: World, resource: Resource): World {
    var stale := StaleIds(w.db, resource, w.env.now);
    if stale == [] then w else Release(w, HoldRefs(w.db.rows, stale)).0
  }

  /** The insert, and the payment behind it; a failed payment takes the new row away again. */
  function Book(
    w: World, resource: Resource, start: Time, end: Time, spaceId: Id, userId: Id, amount: int, paid: bool)
    : (World, Answer)
  {
    var id := w.db.nextRow;
    var (w1, inserted) := Insert(w, resource, start, end, spaceId, userId, amount, paid);
    if !inserted then (w1, Conflict)
    else if !paid then (w1, Created(id))
    else
      var (w2, made) := CreateAndAttach(w1, id, amount);
      match made
      case Returned(_) => (w2, Created(id))
      case Threw => (DeleteMany(w2, {id}), Conflict)
  }

  /** `create` */
  function Create(w: World, resource: Resource, start: Time, end: Time, spaceId: Id, userId: Id): (World, Answer) {
    var (verdict, amount, paid) := CreateChecks(w.db, resource, start, end, spaceId);
    if !verdict.PaymentStarted? then (w, verdict)
    else Book(ClearStale(w, resource), resource, start, end, spaceId, userId, amount, paid)
  }

  // ------------------------------------------------------------------ list

  datatype Resolution = Resolution(id: Id, paid: bool)

  predicate Reconcilable(b: Booking) { b.status.PENDING? && b.intent.Some? && b.cancelledAt.None? }

  /** What one looked-up intent says about its booking: None leaves the row PENDING. */
  function Resolve(id: Id, look: Reply<Intent>): Option<Resolution> {
    match look
    case Threw => None
    case Returned(i) =>
      if i.status.Succeeded? then Some(Resolution(id, true))
      else if i.status.Canceled? || (i.status.Open? && i.failedAttempt) then Some(Resolution(id, false))
      else None
  }

  /** The lookups, on the rows as they were read at the start of the request. */
  function LookUpAll(w: World, rows: map<Id, Booking>, ids: seq<Id>): (World, seq<Resolution>)
    requires forall i | 0 <= i < |ids| :: ids[i] in rows && rows[ids[i]].intent.Some?
    decreases ids
  {
    if ids == [] then (w, [])
    else
      var (w1, look) := ApiRetrieve(w, rows[ids[0]].intent.value);
      var (w2, rest) := LookUpAll(w1, rows, ids[1..]);
      match Resolve(ids[0], look)
      case None => (w2, rest)
      case Some(r) => (w2, [r] + rest)
  }

  /** The reconcile write carries no guard on the status. */
  function ApplyResolution(w: World, r: Resolution): World {
    var t := Turn(w);
    if t.env.halted || r.id !in t.db.rows then t
    else t.(db := PutRow(t.db, r.id, if r.paid then Paid(t.db.rows[r.id], t.env.now) else t.db.rows[r.id].(status := FAILED)))
  }

  function ApplyAll(w: World, rs: seq<Resolution>): World
    decreases rs
  {
    if rs == [] then w else ApplyAll(ApplyResolution(w, rs[0]), rs[1..])
  }

  function ListedIds(db: Database, spaceId: Id, scope: Option<Id>): seq<Id> {
    Listing(db.nextRow,
            set id | id in db.rows && db.rows[id].spaceId == spaceId && (scope.None? || db.rows[id].userId == scope.value))
  }

  function Keep(ids: seq<Id>, keep: set<Id>): (r: seq<Id>)
    ensures forall i | 0 <= i < |r| :: r[i] in ids && r[i] in keep
    ensures Ascending(ids) ==> Ascending(r)
    ensures forall id | id in ids && id in keep :: id in r
  {
    if ids == [] then []
    else
      var rest := Keep(ids[1..], keep);
      if ids[0] in keep then [ids[0]] + rest else rest
  }

  function ExpiredAmong(db: Database, ids: seq<Id>, now: Time): (r: seq<Id>)
    ensures forall i | 0 <= i < |r| :: r[i] in ids && r[i] in db.rows && Expired(db.rows[r[i]], now)
  {
    Keep(ids, set id | id in db.rows && Expired(db.rows[id], now))
  }

  function ReconcilableAmong(db: Database, ids: seq<Id>, released: set<Id>): (r: seq<Id>)
    ensures forall i | 0 <= i < |r| :: r[i] in ids && r[i] in db.rows && r[i] !in released && Reconcilable(db.rows[r[i]])
  {
    Keep(ids, set id | id in db.rows && id !in released && Reconcilable(db.rows[id]))
  }

  /** `expireStaleHolds` */
  function ExpireStale(w: World, ids: seq<Id>): (World, set<Id>) {
    var expired := ExpiredAmong(w.db, ids, w.env.now);
    if expired == [] then (w, {}) else Release(w, HoldRefs(w.db.rows, expired))
  }

  /** `reconcilePendingPayments` on the copies `rows`. */
  function Reconcile(w: World, rows: map<Id, Booking>, ids: seq<Id>): World
    requires forall i | 0 <= i < |ids| :: ids[i] in rows && rows[ids[i]].intent.Some?
  {
    var (w1, resolutions) := LookUpAll(w, rows, ids);
    ApplyAll(w1, resolutions)
  }

  /** `findAllForSpace`: the copies read at the start serve both steps. */
  function FindAll(w: World, spaceId: Id, scope: Option<Id>): (World, Answer) {
    var ids := ListedIds(w.db, spaceId, scope);
    var (w1, released) := ExpireStale(w, ids);
    (Reconcile(w1, w.db.rows, ReconcilableAmong(w.db, ids, released)),
     Listed(Keep(ids, (set id | id in w.db.rows) - released)))
  }

  // ----------------------------------------------------------------- retry

  /** The checks of `retryPayment` up to the claim, except the lapsed hold. */
  function RetryChecks(db: Database, id: Id, spaceId: Id, userId: Id): Answer {
    if id !in db.rows then NotFound
    else
      var b := db.rows[id];
      if b.userId != userId then NotFound
      else if !Bookable(db, b.resource, spaceId) then NotFound
      else if b.cancelledAt.Some? then BadRequest
      else if b.status.PAID? then BadRequest
      else if b.status.PENDING? then Conflict
      else PaymentStarted
  }

  predicate Claimable(db: Database, id: Id, userId: Id, was: Status) {
    id in db.rows && db.rows[id].userId == userId && db.rows[id].cancelledAt.None? && db.rows[id].status == was
  }

  function Claimed(b: Booking, now: Time): Booking { b.(status := PENDING, holdExpiresAt := Some(now + HOLD_MS)) }

  function Claim(w: World, id: Id, userId: Id, was: Status): (World, bool) {
    var t := Turn(w);
    if t.env.halted || !Claimable(t.db, id, userId, was) then (t, false)
    else (t.(db := PutRow(t.db, id, Claimed(t.db.rows[id], t.env.now))), true)
  }

  function Revert(w: World, id: Id, before: Booking): World {
    var t := Turn(w);
    if t.env.halted || id !in t.db.rows || !t.db.rows[id].status.PENDING? || t.db.rows[id].intent != before.intent then t
    else t.(db := PutRow(t.db, id, t.db.rows[id].(status := before.status, holdExpiresAt := before.holdExpiresAt)))
  }

  /** `retryPayment` */
  function Retry(w: World, id: Id, spaceId: Id, userId: Id): (World, Answer) {
    var verdict := RetryChecks(w.db, id, spaceId, userId);
    if !verdict.PaymentStarted? then (w, verdict)
    else
      var b := w.db.rows[id];
      if b.status.FAILED? && b.holdExpiresAt.Some? && b.holdExpiresAt.value < w.env.now then
        var (w1, released) := Release(w, [HoldRef(id, b.intent)]);
        (w1, if id !in released then Conflict else BadRequest)
      else if b.amountCents.None? then (w, BadRequest)
      else if ManagerOf(w.db, spaceId).None? || !PaymentsEnabled(ManagerOf(w.db, spaceId).value) then (w, BadRequest)
      else
        var (w1, won) := Claim(w, id, userId, b.status);
        if !won then (w1, Conflict)
        else
          var (w2, made) := CreateAndAttach(w1, id, b.amountCents.value);
          match made
          case Returned(_) => (w2, PaymentStarted)
          case Threw => (Revert(w2, id, b), Failed)
  }
}
