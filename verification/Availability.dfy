/** Interval algorithms of the calendar and the floor plan: one sweep each, against the pointwise meaning. */
module Intervals {
  import opened Schema

  datatype Interval = Interval(start: Time, end: Time)

  /** The meaning of a list of bookings, in any order, overlapping, empty or inverted: which instants it covers. */
  ghost predicate Covered(ivs: seq<Interval>, t: Time) { exists iv | iv in ivs :: iv.start <= t < iv.end }

  predicate Sorted(ivs: seq<Interval>) { forall i, j | 0 <= i < j < |ivs| :: ivs[i].start <= ivs[j].start }

  function InsertByStart(iv: Interval, ivs: seq<Interval>): (r: seq<Interval>)
    requires Sorted(ivs)
    ensures Sorted(r)
    ensures forall x :: x in r <==> x == iv || x in ivs
  {
    if ivs == [] || iv.start <= ivs[0].start then [iv] + ivs
    else
      assert forall j | 0 <= j < |ivs[1..]| :: ivs[1..][j] == ivs[j + 1];
      var rest := InsertByStart(iv, ivs[1..]);
      assert forall j | 0 <= j < |rest| :: rest[j] in rest && (rest[j] == iv || rest[j] in ivs[1..]);
      [ivs[0]] + rest
  }

  function SortByStart(ivs: seq<Interval>): (r: seq<Interval>)
    ensures Sorted(r)
    ensures forall x :: x in r <==> x in ivs
  {
    if ivs == [] then []
    else
      assert ivs == [ivs[0]] + ivs[1..];
      InsertByStart(ivs[0], SortByStart(ivs[1..]))
  }

  /** Every instant of [from, to) is covered. */
  ghost predicate Solid(ivs: seq<Interval>, from: Time, to: Time) {
    forall t: Time | from <= t < to :: Covered(ivs, t)
  }

  lemma Extend(ivs: seq<Interval>, from: Time, to: Time, iv: Interval)
    requires Solid(ivs, from, to) && iv in ivs && iv.start <= to
    ensures Solid(ivs, from, iv.end)
  {
    forall t: Time | from <= t < iv.end ensures Covered(ivs, t) {
      if t >= to { assert iv.start <= t < iv.end; }
    }
  }

  /** The first `n` intervals end by `at` or start after it, all others start after it. */
  predicate Clear(ivs: seq<Interval>, n: nat, at: Time)
    requires n <= |ivs|
  {
    && (forall j | 0 <= j < n :: ivs[j].end <= at || ivs[j].start > at)
    && (forall j | n <= j < |ivs| :: ivs[j].start > at)
  }

  lemma ClearUncovered(ivs: seq<Interval>, n: nat, at: Time)
    requires n <= |ivs| && Clear(ivs, n, at)
    ensures !Covered(ivs, at)
  {
  }

  /** A gap at `at`. */
  lemma Gap(ivs: seq<Interval>, n: nat, at: Time, from: Time, to: Time)
    requires n <= |ivs| && Clear(ivs, n, at) && from <= at < to
    ensures !Solid(ivs, from, to)
  {
    ClearUncovered(ivs, n, at);
  }

  lemma SameCover(xs: seq<Interval>, ys: seq<Interval>, t: Time)
    requires forall iv :: iv in xs <==> iv in ys
    ensures Covered(xs, t) <==> Covered(ys, t)
  {
  }
}

module Availability {
  import opened Schema
  import opened Intervals

  predicate IntervalsOverlap(aStart: Time, aEnd: Time, bStart: Time, bEnd: Time) { aStart < bEnd && bStart < aEnd }

  predicate IsRangeOccupied(start: Time, end: Time, occupied: seq<Interval>) {
    exists iv | iv in occupied :: IntervalsOverlap(start, end, iv.start, iv.end)
  }

  function Clip(iv: Interval, dayStart: Time, dayEnd: Time): Interval {
    Interval(if iv.start < dayStart then dayStart else iv.start, if iv.end > dayEnd then dayEnd else iv.end)
  }

  /** Clipped to the day, what is empty dropped. */
  function Clipped(occupied: seq<Interval>, dayStart: Time, dayEnd: Time): (r: seq<Interval>)
    ensures forall iv | iv in r :: dayStart <= iv.start < iv.end <= dayEnd
    ensures forall iv | iv in r :: exists o | o in occupied :: iv == Clip(o, dayStart, dayEnd)
    ensures forall o | o in occupied && Clip(o, dayStart, dayEnd).start < Clip(o, dayStart, dayEnd).end ::
              Clip(o, dayStart, dayEnd) in r
  {
    if occupied == [] then []
    else
      var iv := Clip(occupied[0], dayStart, dayEnd);
      var rest := Clipped(occupied[1..], dayStart, dayEnd);
      assert occupied == [occupied[0]] + occupied[1..];
      if iv.start < iv.end then [iv] + rest else rest
  }

  lemma ClippedCovers(occupied: seq<Interval>, dayStart: Time, dayEnd: Time, t: Time)
    requires dayStart <= t < dayEnd
    ensures Covered(Clipped(occupied, dayStart, dayEnd), t) <==> Covered(occupied, t)
  {
    var clipped := Clipped(occupied, dayStart, dayEnd);
    if Covered(occupied, t) {
      var o :| o in occupied && o.start <= t < o.end;
      assert Clip(o, dayStart, dayEnd) in clipped;
    }
    if Covered(clipped, t) {
      var iv :| iv in clipped && iv.start <= t < iv.end;
      var o :| o in occupied && iv == Clip(o, dayStart, dayEnd);
    }
  }

  /** Clipped, filtered and sorted: what the sweep runs over. */
  function DayIntervals(occupied: seq<Interval>, dayStart: Time, dayEnd: Time): (r: seq<Interval>)
    ensures Sorted(r) && forall j | 0 <= j < |r| :: r[j].start < r[j].end <= dayEnd
  {
    var r := SortByStart(Clipped(occupied, dayStart, dayEnd));
    assert forall j | 0 <= j < |r| :: r[j] in r;
    r
  }

  /** The sweep answers exactly the pointwise question. */
  method IsDayFullyOccupied(dayStart: Time, dayEnd: Time, occupied: seq<Interval>) returns (full: bool)
    requires dayStart < dayEnd
    ensures full <==> Solid(occupied, dayStart, dayEnd)
  {
    hide Covered, Solid, DayIntervals;
    var clipped := DayIntervals(occupied, dayStart, dayEnd);
    DaySolid(occupied, dayStart, dayEnd);
    if |clipped| == 0 {
      Gap(clipped, 0, dayStart, dayStart, dayEnd);
      return false;
    }
    var coveredUntil := dayStart;
    NothingYet(clipped, dayStart);
    for i := 0 to |clipped|
      invariant dayStart <= coveredUntil <= dayEnd
      invariant Solid(clipped, dayStart, coveredUntil)
      invariant forall j | 0 <= j < i :: clipped[j].end <= coveredUntil
    {
      var iv := clipped[i];
      assert iv in clipped;
      if iv.start > coveredUntil {
        Gap(clipped, i, coveredUntil, dayStart, dayEnd);
        return false;
      }
      if iv.end > coveredUntil {
        Extend(clipped, dayStart, coveredUntil, iv);
        coveredUntil := iv.end;
      }
    }
    if coveredUntil < dayEnd { Gap(clipped, |clipped|, coveredUntil, dayStart, dayEnd); }
    full := coveredUntil >= dayEnd;
  }

  lemma NothingYet(ivs: seq<Interval>, at: Time)
    ensures Solid(ivs, at, at)
  {
  }

  lemma DaySolid(occupied: seq<Interval>, dayStart: Time, dayEnd: Time)
    ensures Solid(DayIntervals(occupied, dayStart, dayEnd), dayStart, dayEnd) <==> Solid(occupied, dayStart, dayEnd)
  {
    var sorted := DayIntervals(occupied, dayStart, dayEnd);
    forall t: Time | dayStart <= t < dayEnd ensures Covered(sorted, t) <==> Covered(occupied, t) {
      SameCover(sorted, Clipped(occupied, dayStart, dayEnd), t);
      ClippedCovers(occupied, dayStart, dayEnd, t);
    }
  }

  /** A full day leaves no start time: every non-empty range that starts that day meets a booking. */
  lemma FullDayHasNoStart(dayStart: Time, dayEnd: Time, occupied: seq<Interval>, start: Time, end: Time)
    requires Solid(occupied, dayStart, dayEnd) && dayStart <= start < dayEnd && start < end
    ensures IsRangeOccupied(start, end, occupied)
  {
    assert Covered(occupied, start);
  }

  /** Over non-empty intervals, a range is occupied exactly when some instant of it is covered. */
  lemma RangeOccupiedPointwise(start: Time, end: Time, occupied: seq<Interval>)
    requires start < end && forall iv | iv in occupied :: iv.start < iv.end
    ensures IsRangeOccupied(start, end, occupied) <==> exists t: Time | start <= t < end :: Covered(occupied, t)
  {
    if IsRangeOccupied(start, end, occupied) {
      var iv :| iv in occupied && IntervalsOverlap(start, end, iv.start, iv.end);
      var t := if iv.start < start then start else iv.start;
      assert Covered(occupied, t);
    }
  }
}

module FloorPlan {
  import opened Schema
  import opened Intervals

  datatype FloorBooking = FloorBooking(resourceId: Id, start: Time, end: Time, cancelled: bool)

  datatype ResourceState = Occupied(until: Time) | Available(next: Option<Time>)

  /** The live, non-empty bookings of one resource. */
  function Mine(bookings: seq<FloorBooking>, resourceId: Id): (r: seq<Interval>)
    ensures forall iv | iv in r :: iv.start < iv.end
    ensures forall iv :: iv in r <==> iv.start < iv.end && IsMine(bookings, resourceId, iv)
  {
    if bookings == [] then []
    else
      var b := bookings[0];
      var rest := Mine(bookings[1..], resourceId);
      assert bookings == [b] + bookings[1..];
      if b.resourceId == resourceId && !b.cancelled && b.end > b.start then [Interval(b.start, b.end)] + rest else rest
  }

  predicate IsMine(bookings: seq<FloorBooking>, resourceId: Id, iv: Interval) {
    FloorBooking(resourceId, iv.start, iv.end, false) in bookings
  }

  /** Some live booking of the resource covers the instant. */
  ghost predicate Busy(bookings: seq<FloorBooking>, resourceId: Id, t: Time) {
    exists b | b in bookings :: b.resourceId == resourceId && !b.cancelled && b.start <= t < b.end
  }

  lemma BusyIsCovered(bookings: seq<FloorBooking>, resourceId: Id, t: Time)
    ensures Busy(bookings, resourceId, t) <==> Covered(Mine(bookings, resourceId), t)
  {
    var mine := Mine(bookings, resourceId);
    if Busy(bookings, resourceId, t) {
      var b :| b in bookings && b.resourceId == resourceId && !b.cancelled && b.start <= t < b.end;
      assert b == FloorBooking(resourceId, b.start, b.end, false);
      assert Interval(b.start, b.end) in mine;
    }
    if Covered(mine, t) {
      var iv :| iv in mine && iv.start <= t < iv.end;
      assert IsMine(bookings, resourceId, iv);
    }
  }

  /** The earliest start after `now` among live, non-empty bookings of the resource. */
  ghost predicate EarliestAfter(bookings: seq<FloorBooking>, resourceId: Id, now: Time, s: Time) {
    && (exists iv | iv in Mine(bookings, resourceId) :: iv.start == s > now)
    && (forall iv | iv in Mine(bookings, resourceId) && iv.start > now :: s <= iv.start)
  }

  ghost predicate NoneAfter(bookings: seq<FloorBooking>, resourceId: Id, now: Time) {
    forall iv | iv in Mine(bookings, resourceId) :: iv.start <= now
  }

  /** Until when the resource stays occupied: the whole stretch from `now` is busy, and `until` is free. */
  ghost predicate BusyUntil(bookings: seq<FloorBooking>, resourceId: Id, now: Time, until: Time) {
    now < until && !Busy(bookings, resourceId, until) && forall t: Time | now <= t < until :: Busy(bookings, resourceId, t)
  }

  /** One pass over the sorted bookings finds the end of the whole continuous occupation: the least instant from
      `now` on that no booking covers, even when bookings overlap or one contains another. `day` is the calendar
      day of an instant. */
  method GetResourceState(bookings: seq<FloorBooking>, resourceId: Id, now: Time, day: Time -> int)
    returns (r: ResourceState)
    ensures r.Occupied? <==> Busy(bookings, resourceId, now)
    ensures r.Occupied? ==> BusyUntil(bookings, resourceId, now, r.until)
    ensures r.Available? && r.next.Some? ==>
              EarliestAfter(bookings, resourceId, now, r.next.value) && day(r.next.value) == day(now)
    ensures r.Available? && r.next.None? ==>
              || NoneAfter(bookings, resourceId, now)
              || exists s :: EarliestAfter(bookings, resourceId, now, s) && day(s) != day(now)
  {
    var mine := SortByStart(Mine(bookings, resourceId));
    SameCover(mine, Mine(bookings, resourceId), now);
    BusyIsCovered(bookings, resourceId, now);

    var c := 0;
    while c < |mine| && !(mine[c].start <= now < mine[c].end)
      invariant 0 <= c <= |mine|
      invariant forall j | 0 <= j < c :: !(mine[j].start <= now < mine[j].end)
    {
      c := c + 1;
    }
    if c < |mine| {
      var until := ExtendOccupation(mine, c, now);
      OccupationIsBusy(bookings, resourceId, mine, now, until);
      return Occupied(until);
    }
    r := NextStart(bookings, resourceId, mine, now, day);
  }

  method ExtendOccupation(mine: seq<Interval>, c: nat, now: Time) returns (until: Time)
    requires Sorted(mine) && c < |mine| && mine[c].start <= now < mine[c].end
    ensures now < until && Solid(mine, now, until) && !Covered(mine, until)
    ensures Covered(mine, now)
  {
    assert mine[c] in mine;
    until := mine[c].end;
    for i := 0 to |mine|
      invariant now < until && Solid(mine, now, until)
      invariant forall j | 0 <= j < i :: mine[j].end <= until || mine[j].start > until
    {
      var next := mine[i];
      if next.start <= until && next.end > until {
        Extend(mine, now, until, next);
        until := next.end;
      }
    }
    ClearUncovered(mine, |mine|, until);
  }

  lemma OccupationIsBusy(bookings: seq<FloorBooking>, resourceId: Id, mine: seq<Interval>, now: Time, until: Time)
    requires forall iv :: iv in mine <==> iv in Mine(bookings, resourceId)
    requires now < until && Solid(mine, now, until) && !Covered(mine, until)
    ensures BusyUntil(bookings, resourceId, now, until)
  {
    forall t: Time ensures Covered(mine, t) <==> Busy(bookings, resourceId, t) {
      SameCover(mine, Mine(bookings, resourceId), t);
      BusyIsCovered(bookings, resourceId, t);
    }
  }

  method NextStart(bookings: seq<FloorBooking>, resourceId: Id, mine: seq<Interval>, now: Time, day: Time -> int)
    returns (r: ResourceState)
    requires Sorted(mine) && forall iv :: iv in mine <==> iv in Mine(bookings, resourceId)
    ensures r.Available?
    ensures r.next.Some? ==> EarliestAfter(bookings, resourceId, now, r.next.value) && day(r.next.value) == day(now)
    ensures r.next.None? ==>
              || NoneAfter(bookings, resourceId, now)
              || exists s :: EarliestAfter(bookings, resourceId, now, s) && day(s) != day(now)
  {
    var n := 0;
    while n < |mine| && !(mine[n].start > now)
      invariant 0 <= n <= |mine|
      invariant forall j | 0 <= j < n :: mine[j].start <= now
    {
      n := n + 1;
    }
    if n == |mine| {
      assert NoneAfter(bookings, resourceId, now);
      return Available(None);
    }
    FirstIsEarliest(bookings, resourceId, mine, now, n);
    r := Available(if day(mine[n].start) == day(now) then Some(mine[n].start) else None);
  }

  lemma FirstIsEarliest(bookings: seq<FloorBooking>, resourceId: Id, mine: seq<Interval>, now: Time, n: nat)
    requires Sorted(mine) && forall iv :: iv in mine <==> iv in Mine(bookings, resourceId)
    requires n < |mine| && mine[n].start > now && forall j | 0 <= j < n :: mine[j].start <= now
    ensures EarliestAfter(bookings, resourceId, now, mine[n].start)
  {
    assert mine[n] in mine;
    forall iv | iv in Mine(bookings, resourceId) && iv.start > now ensures mine[n].start <= iv.start {
      var j :| 0 <= j < |mine| && mine[j] == iv;
    }
  }
}
