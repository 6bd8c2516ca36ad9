/** The day buckets of the analytics trends and the per-space rows of the administrator's overview: loops over
    maps, each proved against direct sums over the booking rows. */
module Aggregates {
  import opened Schema
  import opened Deletion
  import opened Totals

  const DAY_MS: Time := 24 * 60 * 60 * 1000

  /** The UTC day of an instant, counted from the epoch: what the first ten characters of its ISO form name. */
  function DayOf(t: Time): int { t / DAY_MS }

  // ---------------------------------------------------------------- trends

  /** `Math.min(Math.max(Math.trunc(days) || 30, 7), 90)` */
  function Window(days: int): (w: nat)
    ensures 7 <= w <= 90
    ensures 7 <= days <= 90 ==> w == days
    ensures days > 90 ==> w == 90
    ensures days == 0 ==> w == 30
  {
    var d := if days == 0 then 30 else days;
    if d < 7 then 7 else if d > 90 then 90 else d
  }

  datatype Bucket = Bucket(bookings: nat, revenueCents: int)
  datatype Point = Point(day: int, bucket: Bucket)

  /** What the trends query selects, and what a selected booking brings in. */
  predicate Counted(b: Booking, spaceId: Id) { b.spaceId == spaceId && b.cancelledAt.None? }

  function Revenue(b: Booking): int { if b.status.PAID? then AmountOr0(b) else 0 }

  /** The reference: an uncancelled booking of the space, made within these days, and its price once paid. */
  predicate MadeWithin(b: Booking, spaceId: Id, first: int, last: int) {
    b.spaceId == spaceId && !b.cancelledAt.Some? && first * DAY_MS <= b.createdAt < last * DAY_MS
  }

  predicate MadeOn(b: Booking, spaceId: Id, day: int) { MadeWithin(b, spaceId, day, day + 1) }

  function PaidPrice(b: Booking): int {
    match b.status
    case PAID => if b.amountCents.Some? then b.amountCents.value else 0
    case _ => 0
  }

  /** Direct sums over the first `n` rows: bookings, and paid revenue, of one day. */
  function OnDay(rows: seq<Booking>, n: nat, spaceId: Id, day: int): Bucket
    requires n <= |rows|
  {
    if n == 0 then Bucket(0, 0)
    else
      var rest := OnDay(rows, n - 1, spaceId, day);
      var b := rows[n - 1];
      if MadeOn(b, spaceId, day) then Bucket(rest.bookings + 1, rest.revenueCents + PaidPrice(b))
      else rest
  }

  /** The same over a range of days. */
  function InRange(rows: seq<Booking>, n: nat, spaceId: Id, first: int, last: int): Bucket
    requires n <= |rows|
  {
    if n == 0 then Bucket(0, 0)
    else
      var rest := InRange(rows, n - 1, spaceId, first, last);
      var b := rows[n - 1];
      if MadeWithin(b, spaceId, first, last) then Bucket(rest.bookings + 1, rest.revenueCents + PaidPrice(b))
      else rest
  }

  function SumBuckets(series: seq<Point>): Bucket {
    if series == [] then Bucket(0, 0)
    else
      var rest := SumBuckets(series[..|series| - 1]);
      var last := series[|series| - 1].bucket;
      Bucket(rest.bookings + last.bookings, rest.revenueCents + last.revenueCents)
  }

  predicate IsTrend(series: seq<Point>, rows: seq<Booking>, spaceId: Id, first: int) {
    forall i | 0 <= i < |series| :: series[i] == Point(first + i, OnDay(rows, |rows|, spaceId, first + i))
  }

  /** What the two loops build: one point for each of `window` consecutive days ending today, each the direct
      sum over that day's bookings. Rows from before the window, or from the future, fall outside. */
  method Trends(rows: seq<Booking>, spaceId: Id, days: int, now: Time) returns (series: seq<Point>)
    ensures |series| == Window(days)
    ensures IsTrend(series, rows, spaceId, DayOf(now) - (Window(days) - 1))
  {
    var window := Window(days);
    var start := DayOf(now) - (window - 1);
    var buckets: map<int, Bucket> := map[];
    for i := 0 to window
      invariant forall d :: d in buckets <==> start <= d < start + i
      invariant forall d | d in buckets :: buckets[d] == Bucket(0, 0)
    {
      buckets := buckets[start + i := Bucket(0, 0)];
    }
    for k := 0 to |rows|
      invariant forall d :: d in buckets <==> start <= d < start + window
      invariant forall d | d in buckets :: buckets[d] == OnDay(rows, k, spaceId, d)
    {
      var row := rows[k];
      if Counted(row, spaceId) && row.createdAt >= start * DAY_MS && DayOf(row.createdAt) in buckets {
        var day := DayOf(row.createdAt);
        var bucket := buckets[day];
        buckets := buckets[day := Bucket(bucket.bookings + 1, bucket.revenueCents + Revenue(row))];
      }
      forall d ensures MadeOn(row, spaceId, d) <==> Counted(row, spaceId) && DayOf(row.createdAt) == d {
        DayBounds(row.createdAt, d);
        DayBounds(row.createdAt, d + 1);
      }
      DayBounds(row.createdAt, start);
    }
    series := [];
    for i := 0 to window
      invariant |series| == i && IsTrend(series, rows, spaceId, start)
    {
      series := series + [Point(start + i, buckets[start + i])];
    }
  }

  lemma DayBounds(t: Time, start: int)
    ensures t >= start * DAY_MS <==> DayOf(t) >= start
  {
  }

  lemma {:induction false} RangeOneMore(rows: seq<Booking>, n: nat, spaceId: Id, first: int, last: int)
    requires n <= |rows| && first <= last
    ensures var a, b, c := InRange(rows, n, spaceId, first, last + 1), InRange(rows, n, spaceId, first, last),
                           OnDay(rows, n, spaceId, last);
            a == Bucket(b.bookings + c.bookings, b.revenueCents + c.revenueCents)
  {
    if n > 0 {
      RangeOneMore(rows, n - 1, spaceId, first, last);
      assert first * DAY_MS <= last * DAY_MS < (last + 1) * DAY_MS;
    }
  }

  lemma {:induction false} EmptyRange(rows: seq<Booking>, n: nat, spaceId: Id, first: int)
    requires n <= |rows|
    ensures InRange(rows, n, spaceId, first, first) == Bucket(0, 0)
  {
    if n > 0 { EmptyRange(rows, n - 1, spaceId, first); }
  }

  /** The points of a trend add up to the direct sum over the whole window: no booking is counted twice or lost. */
  lemma {:induction false} TrendAddsUp(series: seq<Point>, rows: seq<Booking>, spaceId: Id, first: int)
    requires IsTrend(series, rows, spaceId, first)
    ensures SumBuckets(series) == InRange(rows, |rows|, spaceId, first, first + |series|)
    decreases |series|
  {
    if series == [] {
      EmptyRange(rows, |rows|, spaceId, first);
    } else {
      var n := |series| - 1;
      TrendAddsUp(series[..n], rows, spaceId, first);
      RangeOneMore(rows, |rows|, spaceId, first, first + n);
    }
  }

  // -------------------------------------------------------------- overview

  /** One column of one space, over the rows below `n`; the thirty-day figures restrict to payments since `from`. */
  function OfSpace(rows: map<Id, Booking>, n: nat, spaceId: Id, from: Option<Time>): int {
    if n == 0 then 0
    else
      OfSpace(rows, n - 1, spaceId, from)
        + (if n - 1 in rows && rows[n - 1].spaceId == spaceId && PaidSince(rows[n - 1], from) then AmountOr0(rows[n - 1]) else 0)
  }

  predicate PaidSince(b: Booking, from: Option<Time>) {
    b.status.PAID? && (from.Some? ==> b.paidAt.Some? && b.paidAt.value >= from.value)
  }

  /** The platform figure: `from` None is the net total, `from` thirty days ago the thirty-day total. */
  function Platform(rows: map<Id, Booking>, n: nat, from: Option<Time>): int {
    if n == 0 then 0
    else
      Platform(rows, n - 1, from)
        + (if n - 1 in rows && rows[n - 1].status.PAID?
              && (from.None? || (rows[n - 1].paidAt.Some? && from.value <= rows[n - 1].paidAt.value))
           then AmountOr0(rows[n - 1]) else 0)
  }

  function SumSpaces(rows: map<Id, Booking>, n: nat, spaces: seq<Id>, from: Option<Time>): int
    decreases spaces
  {
    if spaces == [] then 0 else OfSpace(rows, n, spaces[0], from) + SumSpaces(rows, n, spaces[1..], from)
  }

  predicate AllDifferent(spaces: seq<Id>) { forall i, j | 0 <= i < j < |spaces| :: spaces[i] != spaces[j] }

  /** Adding one row adds it to exactly one space. */
  lemma {:induction false} OneRowMore(rows: map<Id, Booking>, n: nat, spaces: seq<Id>, from: Option<Time>)
    requires AllDifferent(spaces)
    ensures SumSpaces(rows, n + 1, spaces, from)
            == SumSpaces(rows, n, spaces, from)
               + (if n in rows && rows[n].spaceId in spaces && PaidSince(rows[n], from) then AmountOr0(rows[n]) else 0)
    decreases spaces
  {
    if spaces != [] {
      OneRowMore(rows, n, spaces[1..], from);
      assert n in rows ==> (rows[n].spaceId in spaces <==> rows[n].spaceId == spaces[0] || rows[n].spaceId in spaces[1..]);
      assert spaces[0] !in spaces[1..];
    }
  }

  lemma {:induction false} NoRows(rows: map<Id, Booking>, spaces: seq<Id>, from: Option<Time>)
    ensures SumSpaces(rows, 0, spaces, from) == 0
    decreases spaces
  {
    if spaces != [] { NoRows(rows, spaces[1..], from); }
  }

  /** The per-space rows partition the platform total, net and thirty-day alike, closed spaces included. */
  lemma {:induction false} SpacesPartition(rows: map<Id, Booking>, n: nat, spaces: seq<Id>, from: Option<Time>)
    requires AllDifferent(spaces)
    requires forall id | id in rows :: rows[id].spaceId in spaces
    ensures SumSpaces(rows, n, spaces, from) == Platform(rows, n, from)
  {
    if n == 0 {
      NoRows(rows, spaces, from);
    } else {
      SpacesPartition(rows, n - 1, spaces, from);
      OneRowMore(rows, n - 1, spaces, from);
    }
  }

  lemma {:induction false} PlatformIsNet(rows: map<Id, Booking>, n: nat)
    ensures Platform(rows, n, None) == Sum(Net, rows, n)
  {
    if n > 0 { PlatformIsNet(rows, n - 1); }
  }

  /** The per-space net figures add up to the net total of the overview. */
  lemma OverviewNetBySpace(db: Database, spaces: seq<Id>)
    requires AllDifferent(spaces) && forall id | id in db.rows :: db.rows[id].spaceId in spaces
    ensures SumSpaces(db.rows, db.nextRow, spaces, None) == Overview(db).netCents
  {
    SpacesPartition(db.rows, db.nextRow, spaces, None);
    PlatformIsNet(db.rows, db.nextRow);
  }

  // ------------------------------------------------- counts kept in a map

  /** A grouped or per-zone count: how many of something belong to a space; no space is possible for members. */
  datatype Group = Group(spaceId: Option<Id>, count: nat)

  function CountOf(groups: seq<Group>, n: nat, spaceId: Id): nat
    requires n <= |groups|
  {
    if n == 0 then 0
    else CountOf(groups, n - 1, spaceId) + if groups[n - 1].spaceId == Some(spaceId) then groups[n - 1].count else 0
  }

  function Get(m: map<Id, nat>, k: Id): nat { if k in m then m[k] else 0 }

  /** The loop over live zones that adds desks, or rooms, up by space. */
  method CountBySpace(groups: seq<Group>) returns (bySpace: map<Id, nat>)
    ensures forall s :: Get(bySpace, s) == CountOf(groups, |groups|, s)
  {
    bySpace := map[];
    for i := 0 to |groups|
      invariant forall s :: Get(bySpace, s) == CountOf(groups, i, s)
    {
      var g := groups[i];
      if g.spaceId.Some? {
        bySpace := bySpace[g.spaceId.value := Get(bySpace, g.spaceId.value) + g.count];
      }
    }
  }

  function TotalCount(groups: seq<Group>, n: nat): nat
    requires n <= |groups|
  {
    if n == 0 then 0 else TotalCount(groups, n - 1) + if groups[n - 1].spaceId.Some? then groups[n - 1].count else 0
  }

  function SumCounts(groups: seq<Group>, n: nat, spaces: seq<Id>): nat
    requires n <= |groups|
    decreases spaces
  {
    if spaces == [] then 0 else CountOf(groups, n, spaces[0]) + SumCounts(groups, n, spaces[1..])
  }

  lemma {:induction false} OneGroupMore(groups: seq<Group>, n: nat, spaces: seq<Id>)
    requires n < |groups| && AllDifferent(spaces)
    ensures SumCounts(groups, n + 1, spaces)
            == SumCounts(groups, n, spaces)
               + (if groups[n].spaceId.Some? && groups[n].spaceId.value in spaces then groups[n].count else 0)
    decreases spaces
  {
    if spaces != [] {
      OneGroupMore(groups, n, spaces[1..]);
      assert spaces[0] !in spaces[1..];
    }
  }

  lemma {:induction false} NoGroups(groups: seq<Group>, spaces: seq<Id>)
    ensures SumCounts(groups, 0, spaces) == 0
    decreases spaces
  {
    if spaces != [] { NoGroups(groups, spaces[1..]); }
  }

  /** Members, desks and rooms by space add up to the platform's. */
  lemma {:induction false} CountsPartition(groups: seq<Group>, n: nat, spaces: seq<Id>)
    requires n <= |groups| && AllDifferent(spaces)
    requires forall i | 0 <= i < |groups| :: groups[i].spaceId.Some? ==> groups[i].spaceId.value in spaces
    ensures SumCounts(groups, n, spaces) == TotalCount(groups, n)
  {
    if n == 0 {
      NoGroups(groups, spaces);
    } else {
      CountsPartition(groups, n - 1, spaces);
      OneGroupMore(groups, n - 1, spaces);
    }
  }
}
