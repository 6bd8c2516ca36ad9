/** The bookings service as it runs: rows inserted, updated and deleted in place. Every method is proved to do
    exactly what its function in `Bookings` says, for which the protocol properties are proved. */
module BookingsServices {
  import opened Schema
  import opened StripeCalls
  import opened Bookings
  import opened Store

  class BookingsService {
    const tables: Tables
    const account: Gateway
    const stripe: StripeService

    constructor (tables: Tables, account: Gateway)
      ensures this.tables == tables && this.account == account && Wired()
    {
      this.tables, this.account := tables, account;
      stripe := new StripeService(tables, account);
    }

    predicate Wired() { stripe.tables == tables && stripe.account == account }

    function Now(): World
      reads tables, account
    {
      State(tables, account)
    }

    method MarkPaidIfHeld(id: Id)
      requires Wired()
      modifies tables, account
      ensures Now() == MarkLastSecondPaid(old(Now()), id)
    {
      stripe.Wait();
      if account.halted || id !in tables.rows || !Hold(tables.rows[id].status) { return; }
      tables.rows := tables.rows[id := Paid(tables.rows[id], account.now)];
    }

    method DeleteRows(ids: set<Id>)
      requires Wired()
      modifies tables, account
      ensures Now() == DeleteMany(old(Now()), ids)
    {
      stripe.Wait();
      if account.halted { return; }
      tables.rows := tables.rows - ids;
    }

    method ReleaseExpiredHolds(todo: seq<HoldRef>) returns (released: set<Id>)
      requires Wired()
      modifies tables, account
      ensures (Now(), released) == Release(old(Now()), todo)
    {
      released := {};
      var i := 0;
      while i < |todo|
        invariant 0 <= i <= |todo|
        invariant ReleaseLoop(Now(), todo[i..], released) == ReleaseLoop(old(Now()), todo, {})
      {
        var row := todo[i];
        assert todo[i..][0] == row && todo[i..][1..] == todo[i + 1..];
        i := i + 1;
        if row.intent.None? {
          released := released + {row.id};
          continue;
        }
        var outcome := stripe.CancelPaymentIntent(row.intent.value);
        if outcome.Threw? { continue; }
        if outcome.value.WasSucceeded? {
          MarkPaidIfHeld(row.id);
          continue;
        }
        released := released + {row.id};
      }
      if released != {} { DeleteRows(released); }
    }

    method ExpireStaleHolds(ids: seq<Id>) returns (released: set<Id>)
      requires Wired()
      modifies tables, account
      ensures (Now(), released) == ExpireStale(old(Now()), ids)
    {
      var expired := ExpiredAmong(tables.Value(), ids, account.now);
      if expired == [] { return {}; }
      released := ReleaseExpiredHolds(HoldRefs(tables.rows, expired));
    }

    method LookUpPayments(rows: map<Id, Booking>, ids: seq<Id>) returns (resolutions: seq<Resolution>)
      requires Wired() && forall i | 0 <= i < |ids| :: ids[i] in rows && rows[ids[i]].intent.Some?
      modifies account
      ensures (Now(), resolutions) == LookUpAll(old(Now()), rows, ids)
    {
      resolutions := [];
      var i := 0;
      assert ids[0..] == ids && [] + LookUpAll(Now(), rows, ids).1 == LookUpAll(Now(), rows, ids).1;
      while i < |ids|
        invariant 0 <= i <= |ids|
        invariant var (v, rest) := LookUpAll(Now(), rows, ids[i..]);
                  LookUpAll(old(Now()), rows, ids) == (v, resolutions + rest)
      {
        assert ids[i..][0] == ids[i] && ids[i..][1..] == ids[i + 1..];
        ghost var rest := LookUpAll(Now(), rows, ids[i..]).1;
        var look := stripe.Retrieve(rows[ids[i]].intent.value);
        var found := Resolve(ids[i], look);
        if found.Some? {
          assert resolutions + rest == resolutions + [found.value] + rest[1..];
          resolutions := resolutions + [found.value];
        }
        i := i + 1;
      }
      assert resolutions + [] == resolutions;
    }

    method WriteResolutions(resolutions: seq<Resolution>)
      requires Wired()
      modifies tables, account
      ensures Now() == ApplyAll(old(Now()), resolutions)
    {
      var i := 0;
      while i < |resolutions|
        invariant 0 <= i <= |resolutions|
        invariant ApplyAll(Now(), resolutions[i..]) == ApplyAll(old(Now()), resolutions)
      {
        var r := resolutions[i];
        assert resolutions[i..][0] == r && resolutions[i..][1..] == resolutions[i + 1..];
        stripe.Wait();
        if !account.halted && r.id in tables.rows {
          var b := tables.rows[r.id];
          tables.rows := tables.rows[r.id := if r.paid then Paid(b, account.now) else b.(status := FAILED)];
        }
        i := i + 1;
      }
    }

    method ReconcilePendingPayments(rows: map<Id, Booking>, ids: seq<Id>)
      requires Wired() && forall i | 0 <= i < |ids| :: ids[i] in rows && rows[ids[i]].intent.Some?
      modifies tables, account
      ensures Now() == Reconcile(old(Now()), rows, ids)
    {
      var resolutions := LookUpPayments(rows, ids);
      WriteResolutions(resolutions);
    }

    method FindAllForSpace(spaceId: Id, scope: Option<Id>) returns (a: Answer)
      requires Wired()
      modifies tables, account
      ensures (Now(), a) == FindAll(old(Now()), spaceId, scope)
    {
      var read := tables.Value();
      var ids := ListedIds(read, spaceId, scope);
      var released := ExpireStaleHolds(ids);
      ReconcilePendingPayments(read.rows, ReconcilableAmong(read, ids, released));
      a := Listed(Keep(ids, (set id | id in read.rows) - released));
    }

    method CreateAndAttachPaymentIntent(id: Id, amount: int) returns (r: Reply<Id>)
      requires Wired()
      modifies tables, account
      ensures (Now(), r) == CreateAndAttach(old(Now()), id, amount)
    {
      r := stripe.CreateBookingPaymentIntent(id, amount);
      if r.Threw? { return; }
      stripe.Wait();
      if account.halted || id !in tables.rows { return Threw; }
      tables.rows := tables.rows[id := Attached(tables.rows[id], r.value, FeeOf(amount), account.now)];
      account.intents := MarkAttached(account.intents, r.value);
    }

    method InsertRow(
      resource: Resource, start: Time, end: Time, spaceId: Id, userId: Id, amount: int, paid: bool)
      returns (ok: bool)
      requires Wired()
      modifies tables, account
      ensures (Now(), ok) == Insert(old(Now()), resource, start, end, spaceId, userId, amount, paid)
    {
      stripe.Wait();
      if account.halted || !SlotFree(tables.rows, resource, start, end) { return false; }
      var b := NewBooking(resource, start, end, spaceId, userId, amount, paid, account.now);
      tables.rows := tables.rows[tables.nextRow := b];
      tables.nextRow := tables.nextRow + 1;
      return true;
    }

    method CreateBooking(resource: Resource, start: Time, end: Time, spaceId: Id, userId: Id) returns (a: Answer)
      requires Wired()
      modifies tables, account
      ensures (Now(), a) == Create(old(Now()), resource, start, end, spaceId, userId)
    {
      var (verdict, amount, paid) := CreateChecks(tables.Value(), resource, start, end, spaceId);
      if !verdict.PaymentStarted? { return verdict; }
      var stale := StaleIds(tables.Value(), resource, account.now);
      if stale != [] { var _ := ReleaseExpiredHolds(HoldRefs(tables.rows, stale)); }
      var id := tables.nextRow;
      var inserted := InsertRow(resource, start, end, spaceId, userId, amount, paid);
      if !inserted { return Conflict; }
      if paid {
        var made := CreateAndAttachPaymentIntent(id, amount);
        if made.Threw? {
          DeleteRows({id});
          return Conflict;
        }
      }
      return Created(id);
    }

    method RetryPayment(id: Id, spaceId: Id, userId: Id) returns (a: Answer)
      requires Wired()
      modifies tables, account
      ensures (Now(), a) == Retry(old(Now()), id, spaceId, userId)
    {
      var verdict := RetryChecks(tables.Value(), id, spaceId, userId);
      if !verdict.PaymentStarted? { return verdict; }
      var b := tables.rows[id];
      if b.status.FAILED? && b.holdExpiresAt.Some? && b.holdExpiresAt.value < account.now {
        var released := ReleaseExpiredHolds([HoldRef(id, b.intent)]);
        return if id !in released then Conflict else BadRequest;
      }
      if b.amountCents.None? { return BadRequest; }
      var manager := ManagerOf(tables.Value(), spaceId);
      if manager.None? || !PaymentsEnabled(manager.value) { return BadRequest; }

      stripe.Wait();
      if account.halted || !Claimable(tables.Value(), id, userId, b.status) { return Conflict; }
      tables.rows := tables.rows[id := Claimed(tables.rows[id], account.now)];

      var made := CreateAndAttachPaymentIntent(id, b.amountCents.value);
      if made.Returned? { return PaymentStarted; }
      stripe.Wait();
      if !account.halted && id in tables.rows && tables.rows[id].status.PENDING? && tables.rows[id].intent == b.intent {
        tables.rows := tables.rows[id := tables.rows[id].(status := b.status, holdExpiresAt := b.holdExpiresAt)];
      }
      return Failed;
    }
  }
}
