/** Concurrent bookings, interleaved statement by statement: any number of `create` requests, each reading lapsed
    holds, deleting what Stripe let go, inserting, paying and taking its row back, between arbitrary statements of
    the other handlers. Other handlers never write the resource or the times of a row. */
module CreateRace {
  import opened Schema
  import opened Bookings
  import opened Protocol
  import opened CreateEffects

  /** A request that has passed its checks, but for its times. */
  datatype Ask = Ask(
    resource: Resource, start: Time, end: Time, spaceId: Id, userId: Id, amount: int, paid: bool)

  /** Where one request stands. `stale` are the lapsed holds as they were read. */
  datatype Pc =
    | Arrived(ask: Ask)
    | Releasing(ask: Ask, stale: map<Id, Booking>)
    | Cleared(ask: Ask)
    | HasRow(ask: Ask, id: Id)
    | MustRemove(ask: Ask, id: Id)
    | Booked(ask: Ask, id: Id)
    | Refused
    | Crashed

  /** `made` records every row each request inserted. */
  datatype Race = Race(rows: map<Id, Booking>, nextRow: Id, now: Time, pcs: map<Id, Pc>, made: map<Id, seq<Id>>)

  datatype Action =
    | Arrive(r: Id, ask: Ask)
    | ReadStale(r: Id)
    | DeleteReleased(r: Id, released: set<Id>)  // Stripe's answers decide which
    | Insert(r: Id)
    | Pay(r: Id, p: Option<Id>)                 // None: the payment could not be set up
    | TakeBack(r: Id)
    | Crash(r: Id)
    | UpdateElsewhere(id: Id, b: Booking)
    | DeleteElsewhere(ids: set<Id>)
    | Tick(ms: nat)

  function Go(s: Race, r: Id, pc: Pc): Race { s.(pcs := s.pcs[r := pc]) }

  predicate SameSlot(a: Booking, b: Booking) { a.resource == b.resource && a.start == b.start && a.end == b.end }

  function StaleRows(s: Race, resource: Resource): map<Id, Booking> {
    map id | id in s.rows && s.rows[id].resource == resource && Expired(s.rows[id], s.now) :: s.rows[id]
  }

  function Made(s: Race, r: Id): seq<Id> { if r in s.made then s.made[r] else [] }

  /** The insert, under the exclusion constraint. */
  function DoInsert(s: Race, r: Id, ask: Ask): Race {
    if !SlotFree(s.rows, ask.resource, ask.start, ask.end) then Go(s, r, Refused)
    else
      var b := NewBooking(ask.resource, ask.start, ask.end, ask.spaceId, ask.userId, ask.amount, ask.paid, s.now);
      Race(s.rows[s.nextRow := b], s.nextRow + 1, s.now,
           s.pcs[r := if ask.paid then HasRow(ask, s.nextRow) else Booked(ask, s.nextRow)],
           s.made[r := Made(s, r) + [s.nextRow]])
  }

  /** The attach write finds the row gone when another request released it as a lapsed hold. */
  function DoPay(s: Race, r: Id, ask: Ask, id: Id, p: Option<Id>): Race {
    if p.None? || id !in s.rows then Go(s, r, MustRemove(ask, id))
    else Go(s, r, Booked(ask, id)).(rows := s.rows[id := Attached(s.rows[id], p.value, FeeOf(ask.amount), s.now)])
  }

  /** One statement of one request, or of the outside; an action that is not due changes nothing. */
  function Act(s: Race, a: Action): Race {
    match a
    case Arrive(r, ask) =>
      if r in s.pcs then s else Go(s, r, if ask.start >= ask.end then Refused else Arrived(ask))
    case UpdateElsewhere(id, b) => if id in s.rows && SameSlot(s.rows[id], b) then s.(rows := s.rows[id := b]) else s
    case DeleteElsewhere(ids) => s.(rows := s.rows - ids)
    case Tick(ms) => s.(now := s.now + ms)
    case _ =>
      if a.r !in s.pcs then s
      else
        var pc := s.pcs[a.r];
        match a
        case ReadStale(r) => if pc.Arrived? then Go(s, r, Releasing(pc.ask, StaleRows(s, pc.ask.resource))) else s
        case DeleteReleased(r, released) =>
          if pc.Releasing? && released <= pc.stale.Keys then Go(s, r, Cleared(pc.ask)).(rows := s.rows - released) else s
        case Insert(r) => if pc.Cleared? then DoInsert(s, r, pc.ask) else s
        case Pay(r, p) => if pc.HasRow? then DoPay(s, r, pc.ask, pc.id, p) else s
        case TakeBack(r) => if pc.MustRemove? then Go(s, r, Refused).(rows := s.rows - {pc.id}) else s
        case Crash(r) => Go(s, r, Crashed)
        case _ => s
  }

  function RunRace(s: Race, actions: seq<Action>): Race
    decreases actions
  {
    if actions == [] then s else RunRace(Act(s, actions[0]), actions[1..])
  }

  // ------------------------------------------------------------ invariant

  predicate Owns(pc: Pc) { pc.HasRow? || pc.MustRemove? || pc.Booked? }

  predicate Asking(pc: Pc) { pc.Arrived? || pc.Releasing? || pc.Cleared? || Owns(pc) }

  /** The row of a request is the one it asked for, whatever else happened to it. */
  ghost predicate PcOk(s: Race, pc: Pc) {
    && (Asking(pc) ==> pc.ask.start < pc.ask.end)
    && (pc.Releasing? ==> forall id | id in pc.stale :: pc.stale[id].resource == pc.ask.resource && Expired(pc.stale[id], s.now))
    && (Owns(pc) ==> pc.id < s.nextRow)
    && (Owns(pc) && pc.id in s.rows ==>
          var b := s.rows[pc.id]; b.resource == pc.ask.resource && b.start == pc.ask.start && b.end == pc.ask.end)
  }

  ghost predicate TableOk(s: Race) {
    && NoOverlap(s.rows)
    && forall id | id in s.rows :: id < s.nextRow && s.rows[id].start < s.rows[id].end
  }

  ghost predicate OwnersDiffer(s: Race) {
    forall q, r | q in s.pcs && r in s.pcs && q != r && Owns(s.pcs[q]) && Owns(s.pcs[r]) :: s.pcs[q].id != s.pcs[r].id
  }

  /** A request that has not inserted yet has made nothing; one that has a row has made exactly that row. */
  ghost predicate MadeOk(s: Race, r: Id) {
    && |Made(s, r)| <= 1
    && (r !in s.pcs || s.pcs[r].Arrived? || s.pcs[r].Releasing? || s.pcs[r].Cleared? ==> Made(s, r) == [])
    && (r in s.pcs && Owns(s.pcs[r]) ==> Made(s, r) == [s.pcs[r].id])
    && (forall id | id in Made(s, r) :: id < s.nextRow)
    && (r in s.pcs && s.pcs[r].Refused? ==> forall id | id in Made(s, r) :: id !in s.rows)
  }

  ghost predicate RaceInv(s: Race) {
    TableOk(s) && OwnersDiffer(s) && (forall r | r in s.pcs :: PcOk(s, s.pcs[r])) && forall r :: MadeOk(s, r)
  }

  ghost predicate Start(s: Race) { TableOk(s) && s.pcs == map[] && s.made == map[] }

  lemma TableKeeps(s: Race, a: Action)
    requires RaceInv(s)
    ensures TableOk(Act(s, a))
  {
    hide NoOverlap, StaleRows;
    var t := Act(s, a);
    match a {
      case UpdateElsewhere(id, b) => if t != s { SlotKept(s.rows, id, b); }
      case DeleteElsewhere(ids) => DropApart(s.rows, ids);
      case DeleteReleased(r, released) => DropApart(s.rows, released);
      case TakeBack(r) => if t != s { DropApart(s.rows, {s.pcs[r].id}); }
      case Pay(r, p) => if t.rows != s.rows { SlotKept(s.rows, s.pcs[r].id, t.rows[s.pcs[r].id]); }
      case Insert(r) =>
        if t.rows != s.rows {
          assert PcOk(s, s.pcs[r]);
          InsertApart(s.rows, s.nextRow, t.rows[s.nextRow]);
        }
      case _ =>
    }
  }

  lemma SlotKept(rows: map<Id, Booking>, id: Id, b: Booking)
    requires NoOverlap(rows) && id in rows && SameSlot(rows[id], b)
    ensures NoOverlap(rows[id := b])
  {
  }

  /** What a statement does to the table: rows keep their slot, and a new one is the next id. */
  lemma RowsAfter(s: Race, a: Action)
    requires RaceInv(s)
    ensures s.nextRow <= Act(s, a).nextRow && s.now <= Act(s, a).now
    ensures forall id | id in Act(s, a).rows && id in s.rows :: SameSlot(s.rows[id], Act(s, a).rows[id])
    ensures forall id | id in Act(s, a).rows && id !in s.rows :: id == s.nextRow
  {
  }

  lemma OthersStay(s: Race, a: Action, q: Id)
    requires RaceInv(s) && q in s.pcs
    ensures PcOk(Act(s, a), s.pcs[q])
  {
    hide Act;
    assert PcOk(s, s.pcs[q]);
    RowsAfter(s, a);
  }

  /** A statement of one of these requests. */
  ghost predicate OwnMove(a: Action) {
    a.Arrive? || a.ReadStale? || a.DeleteReleased? || a.Insert? || a.Pay? || a.TakeBack? || a.Crash?
  }

  lemma OnlyOwnPc(s: Race, a: Action)
    ensures forall q | q in Act(s, a).pcs && (OwnMove(a) ==> q != a.r) :: q in s.pcs && Act(s, a).pcs[q] == s.pcs[q]
  {
  }

  lemma OwnStep(s: Race, a: Action)
    requires RaceInv(s) && OwnMove(a)
    ensures a.r in Act(s, a).pcs ==>
              && PcOk(Act(s, a), Act(s, a).pcs[a.r])
              && (Owns(Act(s, a).pcs[a.r]) ==>
                    Act(s, a).pcs[a.r].id == s.nextRow
                    || (a.r in s.pcs && Owns(s.pcs[a.r]) && Act(s, a).pcs[a.r].id == s.pcs[a.r].id))
  {
    if a.r in s.pcs { assert PcOk(s, s.pcs[a.r]); }
  }

  lemma MadeKeeps(s: Race, a: Action, r: Id)
    requires MadeOk(s, r)
    ensures MadeOk(Act(s, a), r)
  {
    hide SlotFree, StaleRows;
  }

  lemma ActKeeps(s: Race, a: Action)
    requires RaceInv(s)
    ensures RaceInv(Act(s, a))
  {
    hide Act, TableOk, PcOk, MadeOk;
    var t := Act(s, a);
    forall r ensures MadeOk(t, r) { MadeKeeps(s, a, r); }
    TableKeeps(s, a);
    OnlyOwnPc(s, a);
    if OwnMove(a) { OwnStep(s, a); }
    forall q | q in t.pcs ensures PcOk(t, t.pcs[q]) {
      if q in s.pcs { OthersStay(s, a, q); }
    }
    forall q | q in s.pcs && Owns(s.pcs[q]) ensures s.pcs[q].id < s.nextRow { OldId(s, q); }
  }

  lemma OldId(s: Race, q: Id)
    requires RaceInv(s) && q in s.pcs && Owns(s.pcs[q])
    ensures s.pcs[q].id < s.nextRow
  {
    assert PcOk(s, s.pcs[q]);
  }

  lemma {:induction false} RaceKeeps(s: Race, actions: seq<Action>)
    requires RaceInv(s)
    ensures RaceInv(RunRace(s, actions))
    decreases actions
  {
    hide Act, RaceInv;
    if actions != [] {
      ActKeeps(s, actions[0]);
      RaceKeeps(Act(s, actions[0]), actions[1..]);
    }
  }

  // ------------------------------------------------------------- theorems

  /** However the statements of any number of requests interleave, no instant of a resource is booked twice, and
      every booking has some length. */
  lemma NoInstantTwice(s: Race, actions: seq<Action>, a: Id, b: Id, t: Time)
    requires Start(s)
    requires var rows := RunRace(s, actions).rows; a in rows && b in rows && a != b && rows[a].resource == rows[b].resource
    ensures var rows := RunRace(s, actions).rows;
            && rows[a].start < rows[a].end
            && !(rows[a].start <= t < rows[a].end && rows[b].start <= t < rows[b].end)
  {
    hide Act;
    RaceKeeps(s, actions);
    var rows := RunRace(s, actions).rows;
    assert !Overlap(rows[a].start, rows[a].end, rows[b].start, rows[b].end);
  }

  /** Two requests that were both told yes, and whose bookings still stand, did not ask for a common instant of
      the same resource; and each booking that stands is the one that was asked for. */
  lemma OneWinner(s: Race, actions: seq<Action>, q: Id, r: Id, t: Time)
    requires Start(s) && q != r
    requires var z := RunRace(s, actions);
             && q in z.pcs && r in z.pcs && z.pcs[q].Booked? && z.pcs[r].Booked?
             && z.pcs[q].id in z.rows && z.pcs[r].id in z.rows
    ensures var z := RunRace(s, actions);
            var x, y := z.pcs[q].ask, z.pcs[r].ask;
            && z.pcs[q].id != z.pcs[r].id
            && z.rows[z.pcs[q].id].resource == x.resource
            && z.rows[z.pcs[q].id].start == x.start < x.end == z.rows[z.pcs[q].id].end
            && !(x.resource == y.resource && x.start <= t < x.end && y.start <= t < y.end)
  {
    hide Act;
    RaceKeeps(s, actions);
    var z := RunRace(s, actions);
    assert PcOk(z, z.pcs[q]) && PcOk(z, z.pcs[r]);
    if z.pcs[q].ask.resource == z.pcs[r].ask.resource { NoInstantTwice(s, actions, z.pcs[q].id, z.pcs[r].id, t); }
  }

  lemma RowsAreMade(s: Race, a: Action, id: Id)
    ensures id in Act(s, a).rows ==> id in s.rows || (OwnMove(a) && id in Made(Act(s, a), a.r))
  {
  }

  lemma {:induction false} MadeStays(s: Race, actions: seq<Action>, r: Id)
    ensures Made(s, r) <= Made(RunRace(s, actions), r)
    decreases actions
  {
    if actions != [] {
      assert Made(s, r) <= Made(Act(s, actions[0]), r);
      hide Act;
      MadeStays(Act(s, actions[0]), actions[1..], r);
    }
  }

  lemma {:induction false} SomebodyMadeIt(s: Race, actions: seq<Action>, id: Id)
    requires id in RunRace(s, actions).rows && id !in s.rows
    ensures exists r :: id in Made(RunRace(s, actions), r)
    decreases actions
  {
    hide Act, Made;
    var a, t := actions[0], Act(s, actions[0]);
    if id in t.rows {
      RowsAreMade(s, a, id);
      MadeStays(t, actions[1..], a.r);
    } else {
      SomebodyMadeIt(t, actions[1..], id);
    }
  }

  /** Over a whole run a request inserts one row or none; once it was told yes, or is still paying, exactly the row
      it was given; one that was told no has left no row behind; and every row the run has added was inserted by one
      of the requests. */
  lemma OneRowEach(s: Race, actions: seq<Action>, r: Id, id: Id)
    requires Start(s)
    ensures var z := RunRace(s, actions);
            && |Made(z, r)| <= 1
            && (r in z.pcs && Owns(z.pcs[r]) ==> Made(z, r) == [z.pcs[r].id])
            && (r !in z.pcs ==> Made(z, r) == [])
            && (r in z.pcs && z.pcs[r].Refused? && id in Made(z, r) ==> id !in z.rows)
            && (id in z.rows && id !in s.rows ==> exists q :: Made(z, q) == [id])
  {
    hide Act;
    RaceKeeps(s, actions);
    var z := RunRace(s, actions);
    assert MadeOk(z, r);
    if id in z.rows && id !in s.rows {
      SomebodyMadeIt(s, actions, id);
      var q :| id in Made(z, q);
      assert MadeOk(z, q);
    }
  }

  /** A request that must pay is told yes exactly when its intent is attached to its row, which then holds the slot
      for fifteen minutes from now. */
  lemma PayDecides(s: Race, r: Id, p: Option<Id>)
    requires r in s.pcs && s.pcs[r].HasRow?
    ensures var t, pc := Act(s, Pay(r, p)), s.pcs[r];
            if p.Some? && pc.id in s.rows then
              t.pcs[r] == Booked(pc.ask, pc.id) && pc.id in t.rows
              && t.rows[pc.id] == s.rows[pc.id].(
                   status := PENDING, intent := p, platformFeeCents := FeeOf(pc.ask.amount),
                   holdExpiresAt := Some(s.now + 15 * 60 * 1000))
            else
              t.pcs[r] == MustRemove(pc.ask, pc.id) && t.rows == s.rows
  {
  }

  /** A request takes away only its own row or holds it had read as lapsed, and adds a row only by its insert. */
  lemma ComesAndGoes(s: Race, a: Action, id: Id)
    requires RaceInv(s) && OwnMove(a)
    ensures id in Act(s, a).rows && id !in s.rows ==> a.Insert? && Made(s, a.r) == [] && Made(Act(s, a), a.r) == [id]
    ensures id in s.rows && id !in Act(s, a).rows ==>
              && a.r in s.pcs
              && var pc := s.pcs[a.r];
                 || (pc.MustRemove? && pc.id == id && Made(s, a.r) == [id])
                 || (pc.Releasing? && id in pc.stale && pc.stale[id].resource == pc.ask.resource && PastDeadline(pc.stale[id], s.now))
  {
    if a.r in s.pcs { assert PcOk(s, s.pcs[a.r]); }
    assert MadeOk(s, a.r);
  }
}
