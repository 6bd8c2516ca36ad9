/** The booking calendar against the exclusion constraint: does a range it shows as free always pass the insert? */
module Calendar {
  import opened Schema
  import opened Bookings
  import opened Protocol
  import opened Intervals
  import opened Availability

  /** A row the calendar of this caller shows: not cancelled, of this resource, and, for a member, the member's own. */
  predicate Shown(b: Booking, resource: Resource, spaceId: Id, scope: Option<Id>) {
    b.spaceId == spaceId && (scope.None? || b.userId == scope.value) && b.resource == resource && b.cancelledAt.None?
  }

  /** What the booking page keeps of the listed bookings, over the rows below `n`. */
  function CalendarOf(rows: map<Id, Booking>, n: nat, resource: Resource, spaceId: Id, scope: Option<Id>): seq<Interval> {
    if n == 0 then []
    else
      CalendarOf(rows, n - 1, resource, spaceId, scope)
        + (if n - 1 in rows && Shown(rows[n - 1], resource, spaceId, scope)
           then [Interval(rows[n - 1].start, rows[n - 1].end)] else [])
  }

  lemma {:induction false} CalendarShows(rows: map<Id, Booking>, n: nat, resource: Resource, spaceId: Id, scope: Option<Id>, iv: Interval)
    ensures iv in CalendarOf(rows, n, resource, spaceId, scope)
      <==> exists id | id in rows && id < n ::
             && rows[id].resource == resource && rows[id].spaceId == spaceId && rows[id].cancelledAt.None?
             && (scope.Some? ==> rows[id].userId == scope.value)
             && iv == Interval(rows[id].start, rows[id].end)
  {
    if n > 0 { CalendarShows(rows, n - 1, resource, spaceId, scope, iv); }
  }

  /** Some shown row overlaps the range. */
  lemma OccupiedByARow(w: World, resource: Resource, spaceId: Id, scope: Option<Id>, start: Time, end: Time)
    requires Inv(w)
    ensures IsRangeOccupied(start, end, CalendarOf(w.db.rows, w.db.nextRow, resource, spaceId, scope))
      <==> exists id | id in w.db.rows ::
             Shown(w.db.rows[id], resource, spaceId, scope) && Overlap(start, end, w.db.rows[id].start, w.db.rows[id].end)
  {
    var cal := CalendarOf(w.db.rows, w.db.nextRow, resource, spaceId, scope);
    if IsRangeOccupied(start, end, cal) {
      var iv :| iv in cal && IntervalsOverlap(start, end, iv.start, iv.end);
      CalendarShows(w.db.rows, w.db.nextRow, resource, spaceId, scope, iv);
      var id :| id in w.db.rows && Shown(w.db.rows[id], resource, spaceId, scope) && iv == Interval(w.db.rows[id].start, w.db.rows[id].end);
      assert Overlap(start, end, w.db.rows[id].start, w.db.rows[id].end);
    }
    if id :| id in w.db.rows && Shown(w.db.rows[id], resource, spaceId, scope)
             && Overlap(start, end, w.db.rows[id].start, w.db.rows[id].end)
    {
      var iv := Interval(w.db.rows[id].start, w.db.rows[id].end);
      RowOf(w, id);
      CalendarShows(w.db.rows, w.db.nextRow, resource, spaceId, scope, iv);
      assert IntervalsOverlap(start, end, iv.start, iv.end);
    }
  }

  /** On a resource that can be booked no row is cancelled, so a calendar over all of its bookings says exactly
      what the constraint will say. */
  lemma FullCalendarAgrees(w: World, resource: Resource, spaceId: Id, start: Time, end: Time)
    requires Inv(w) && Bookable(w.db, resource, spaceId)
    ensures IsRangeOccupied(start, end, CalendarOf(w.db.rows, w.db.nextRow, resource, spaceId, None))
      <==> !SlotFree(w.db.rows, resource, start, end)
  {
    hide LedgerOk, TreeOk, NoOverlap, Shown;
    OccupiedByARow(w, resource, spaceId, None, start, end);
    forall id | id in w.db.rows && w.db.rows[id].resource == resource ensures Shown(w.db.rows[id], resource, spaceId, None) {
      AllShown(w, id, resource, spaceId);
    }
    OnlyOfResource(resource, spaceId, None);
  }

  lemma AllShown(w: World, id: Id, resource: Resource, spaceId: Id)
    requires Inv(w) && Bookable(w.db, resource, spaceId) && id in w.db.rows && w.db.rows[id].resource == resource
    ensures Shown(w.db.rows[id], resource, spaceId, None)
  {
    RowOf(w, id);
  }

  lemma OnlyOfResource(resource: Resource, spaceId: Id, scope: Option<Id>)
    ensures forall b: Booking :: Shown(b, resource, spaceId, scope) ==> b.resource == resource
  {
  }

  ghost predicate CalendarAgrees(w: World, resource: Resource, spaceId: Id, scope: Option<Id>) {
    forall start: Time, end: Time | start < end ::
      IsRangeOccupied(start, end, CalendarOf(w.db.rows, w.db.nextRow, resource, spaceId, scope))
      <==> !SlotFree(w.db.rows, resource, start, end)
  }

  /** A member is only listed the member's own bookings. That calendar agrees with the constraint exactly when
      every booking of the resource is the member's own: any other booking is shown as free, because bookings of
      one resource are disjoint, and refused by the insert. */
  lemma MemberCalendarAgreesIff(w: World, resource: Resource, spaceId: Id, userId: Id)
    requires Inv(w) && Bookable(w.db, resource, spaceId)
    ensures CalendarAgrees(w, resource, spaceId, Some(userId))
      <==> forall id | id in w.db.rows && w.db.rows[id].resource == resource :: w.db.rows[id].userId == userId
  {
    if forall id | id in w.db.rows && w.db.rows[id].resource == resource :: w.db.rows[id].userId == userId {
      forall start: Time, end: Time | start < end
        ensures IsRangeOccupied(start, end, CalendarOf(w.db.rows, w.db.nextRow, resource, spaceId, Some(userId)))
          <==> !SlotFree(w.db.rows, resource, start, end)
      {
        OwnCalendar(w, resource, spaceId, userId, start, end);
      }
    } else {
      var id :| id in w.db.rows && w.db.rows[id].resource == resource && w.db.rows[id].userId != userId;
      ForeignIsFree(w, resource, spaceId, userId, id);
    }
  }

  lemma OwnCalendar(w: World, resource: Resource, spaceId: Id, userId: Id, start: Time, end: Time)
    requires Inv(w) && Bookable(w.db, resource, spaceId)
    requires forall id | id in w.db.rows && w.db.rows[id].resource == resource :: w.db.rows[id].userId == userId
    ensures IsRangeOccupied(start, end, CalendarOf(w.db.rows, w.db.nextRow, resource, spaceId, Some(userId)))
      <==> !SlotFree(w.db.rows, resource, start, end)
  {
    hide LedgerOk, TreeOk, NoOverlap;
    OccupiedByARow(w, resource, spaceId, Some(userId), start, end);
    forall id | id in w.db.rows && w.db.rows[id].resource == resource
      ensures Shown(w.db.rows[id], resource, spaceId, Some(userId))
    {
      AllShown(w, id, resource, spaceId);
    }
  }

  /** The range of another member's booking: shown as free, refused by the constraint. */
  lemma ForeignIsFree(w: World, resource: Resource, spaceId: Id, userId: Id, id: Id)
    requires Inv(w) && id in w.db.rows && w.db.rows[id].resource == resource && w.db.rows[id].userId != userId
    ensures var b := w.db.rows[id];
            && b.start < b.end
            && !IsRangeOccupied(b.start, b.end, CalendarOf(w.db.rows, w.db.nextRow, resource, spaceId, Some(userId)))
            && !SlotFree(w.db.rows, resource, b.start, b.end)
  {
    hide LedgerOk, TreeOk;
    var b := w.db.rows[id];
    RowOf(w, id);
    OccupiedByARow(w, resource, spaceId, Some(userId), b.start, b.end);
    forall k | k in w.db.rows && Shown(w.db.rows[k], resource, spaceId, Some(userId))
      ensures !Overlap(b.start, b.end, w.db.rows[k].start, w.db.rows[k].end)
    {
      assert k != id;
    }
    assert Overlap(b.start, b.end, b.start, b.end);
  }
}
