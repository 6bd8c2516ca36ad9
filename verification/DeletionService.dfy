/** The deletion service and the webhook controller as they run, and the server that answers a sequence of
    requests; each proved to do exactly what the functions of the protocol say. */
module DeletionServices {
  import opened Schema
  import opened Deletion
  import opened Store

  class DeletionService {
    const tables: Tables
    const account: Gateway
    const stripe: StripeService

    constructor (tables: Tables, account: Gateway)
      ensures this.tables == tables && this.account == account && Wired()
    {
      this.tables, this.account := tables, account;
      stripe := new StripeService(tables, account);
    }

    predicate Wired() { stripe.tables == tables && stripe.account == account }

    function Now(): World
      reads tables, account
    {
      State(tables, account)
    }

    /** The refund call and the write that records its result. */
    method RefundBooking(id: Id, p: Id) returns (issued: bool)
      requires Wired()
      modifies tables, account
      ensures (Now(), issued) == RefundOne(old(Now()), id, p)
    {
      var answer := stripe.RefundBookingPayment(p, id);
      issued := answer.Returned? && Issued(answer.value.status);
      stripe.Wait();
      if account.halted || id !in tables.rows { return; }
      var b := tables.rows[id];
      tables.rows := tables.rows[id := if issued then Refunded(b, answer.value) else b.(status := REFUND_FAILED)];
    }

    method ReleasePendingPayment(id: Id, p: Id)
      requires Wired()
      modifies tables, account
      ensures Now() == ReleasePending(old(Now()), id, p)
    {
      var outcome := stripe.CancelPaymentIntent(p);
      if outcome.Threw? { return; }
      if outcome.value.WasSucceeded? {
        stripe.Wait();
        if !account.halted && id in tables.rows {
          tables.rows := tables.rows[id := tables.rows[id].(status := REFUND_PENDING, paidAt := Some(account.now))];
        }
        var _ := RefundBooking(id, p);
        return;
      }
      if outcome.value.WasCanceled? {
        stripe.Wait();
        if !account.halted && id in tables.rows {
          tables.rows := tables.rows[id := tables.rows[id].(status := FAILED)];
        }
      }
    }

    method SettleCancelledBookings(was: map<Id, Booking>, ids: seq<Id>) returns (refunds: Refunds)
      requires Wired() && forall i | 0 <= i < |ids| :: ids[i] in was
      modifies tables, account
      ensures (Now(), refunds) == Settle(old(Now()), was, ids, Refunds(0, 0, 0))
    {
      hide RefundOne, ReleasePending;
      var succeeded, failed, refundedCents := 0, 0, 0;
      var i := 0;
      while i < |ids|
        invariant 0 <= i <= |ids| && succeeded >= 0 && failed >= 0
        invariant Settle(Now(), was, ids[i..], Refunds(succeeded, failed, refundedCents))
                  == Settle(old(Now()), was, ids, Refunds(0, 0, 0))
      {
        var id := ids[i];
        var b := was[id];
        assert ids[i..][0] == id && ids[i..][1..] == ids[i + 1..];
        i := i + 1;
        if b.status.PAID? && b.intent.Some? {
          var ok := RefundBooking(id, b.intent.value);
          if ok {
            succeeded := succeeded + 1;
            refundedCents := refundedCents + AmountOr0(b);
          } else {
            failed := failed + 1;
          }
          continue;
        }
        if Hold(b.status) && b.intent.Some? {
          ReleasePendingPayment(id, b.intent.value);
          if id in tables.rows {
            if tables.rows[id].status.REFUNDED? {
              succeeded := succeeded + 1;
              refundedCents := refundedCents
                + if tables.rows[id].refundedCents.Some? then tables.rows[id].refundedCents.value else 0;
            } else if tables.rows[id].status.REFUND_FAILED? {
              failed := failed + 1;
            }
          }
        }
      }
      refunds := Refunds(succeeded, failed, refundedCents);
    }

    method SoftDeleteSubtree(target: Target, now: Time)
      modifies tables
      ensures tables.Value() == SoftDelete(old(tables.Value()), target, now)
    {
      var db := tables.Value();
      if target.WholeZone? && target.zoneId in tables.zones {
        tables.zones := tables.zones[target.zoneId := tables.zones[target.zoneId].(deletedAt := Some(now))];
      }
      tables.items := map r | r in db.items ::
        if Within(db, target, r) then db.items[r].(deletedAt := Some(now)) else db.items[r];
    }

    method RemoveResource(target: Target, spaceId: Id, confirmRefund: bool) returns (out: Outcome)
      requires Wired()
      modifies tables, account
      ensures (Now(), out) == Remove(old(Now()), target, spaceId, confirmRefund)
    {
      var now := account.now;
      stripe.Wait();
      if account.halted { return Stopped; }
      var read := tables.Value();
      if !TargetLive(read, target, spaceId) { return Missing; }
      var active := ActiveIds(read, spaceId, target, now);
      if |active| > 0 && !confirmRefund { return ActiveBookings(BuildImpact(read.rows, active)); }
      SoftDeleteSubtree(target, now);
      var ids := ActiveSet(read, spaceId, target, now);
      tables.rows := map id | id in tables.rows :: if id in ids then Cancelled(tables.rows[id], now) else tables.rows[id];
      var refunds := SettleCancelledBookings(read.rows, active);
      out := if account.halted then Stopped else Deleted(|active|, refunds);
    }

    method RetryOneRefund(id: Id, spaceId: Id) returns (ok: Option<bool>)
      requires Wired()
      modifies tables, account
      ensures (Now(), ok) == RetryRefund(old(Now()), id, spaceId)
    {
      if !AwaitsRefund(tables.Value(), id, spaceId) { return None; }
      var issued := RefundBooking(id, tables.rows[id].intent.value);
      return Some(issued);
    }
  }
}

module Servers {
  import opened Schema
  import opened StripeCalls
  import opened Bookings
  import opened Webhook
  import opened Deletion
  import opened Protocol
  import opened Store
  import opened Runs
  import B = BookingsServices
  import D = DeletionServices

  class WebhookController {
    const tables: Tables
    const account: Gateway
    const stripe: StripeService

    constructor (tables: Tables, account: Gateway)
      ensures this.tables == tables && this.account == account && Wired()
    {
      this.tables, this.account := tables, account;
      stripe := new StripeService(tables, account);
    }

    predicate Wired() { stripe.tables == tables && stripe.account == account }

    method HandleWebhook(e: Event) returns (count: nat)
      requires Wired()
      modifies tables, account
      ensures State(tables, account) == Handle(old(State(tables, account)), e)
      ensures count == if tables.Value() == old(tables.Value()) then 0 else 1
    {
      stripe.Wait();
      count := 0;
      if account.halted || e.bookingId.None? || e.bookingId.value !in tables.rows { return; }
      var id := e.bookingId.value;
      var b := tables.rows[id];
      match e {
        case PaymentSucceeded(p, _) =>
          if SucceedGuard(b) {
            tables.rows := tables.rows[id := Paid(b, account.now).(intent := Some(p))];
            count := 1;
          }
        case PaymentFailed(p, _) =>
          if FailGuard(b, p) {
            tables.rows := tables.rows[id := b.(status := FAILED)];
            count := 1;
          }
      }
      assert if count == 0 then tables.rows == tables.rows[id := b] else tables.rows[id].status != b.status;
    }
  }

  class Server {
    const tables: Tables
    const account: Gateway
    const bookings: B.BookingsService
    const deletion: D.DeletionService
    const webhook: WebhookController

    /** A new server over empty tables: the start of every run. */
    constructor (startOfTime: Time)
      ensures fresh(tables) && fresh(account) && Wired()
      ensures Initial(State(tables, account))
    {
      var t := new Tables();
      var g := new Gateway(startOfTime);
      tables, account := t, g;
      bookings := new B.BookingsService(t, g);
      deletion := new D.DeletionService(t, g);
      webhook := new WebhookController(t, g);
    }

    predicate Wired() {
      && bookings.tables == deletion.tables == webhook.tables == tables
      && bookings.account == deletion.account == webhook.account == account
      && bookings.Wired() && deletion.Wired() && webhook.Wired()
    }

    method ApplyChange(c: Change)
      modifies tables
      ensures tables.Value() == Administer(old(tables.Value()), c)
    {
      var db := Administer(tables.Value(), c);
      tables.zones, tables.items, tables.spaces := db.zones, db.items, db.spaces;
    }

    method Serve(s: Step)
      requires Wired()
      modifies tables, account
      ensures State(tables, account) == Exec(old(State(tables, account)), s)
    {
      hide Create, FindAll, Retry, Handle, Remove, RetryRefund, Turn, Administer;
      account.future, account.halted := s.future, false;
      match s.call {
        case DoCreate(r, start, end, space, user) => var _ := bookings.CreateBooking(r, start, end, space, user);
        case DoList(space, scope) => var _ := bookings.FindAllForSpace(space, scope);
        case DoRetry(id, space, user) => var _ := bookings.RetryPayment(id, space, user);
        case DoWebhook(e) => var _ := webhook.HandleWebhook(e);
        case DoRemove(target, space, confirm) => var _ := deletion.RemoveResource(target, space, confirm);
        case DoRetryRefund(id, space) => var _ := deletion.RetryOneRefund(id, space);
        case DoChange(c) => ApplyChange(c);
        case DoNothing => webhook.stripe.Wait();
      }
    }

    /** Any sequence of requests, with every behaviour of Stripe, the clock and crashes in between, keeps the
        invariant and moves the world only forward. */
    method ServeAll(steps: seq<Step>)
      requires Wired() && Inv(State(tables, account)) && LegalRun(State(tables, account), steps)
      modifies tables, account
      ensures State(tables, account) == Run(old(State(tables, account)), steps)
      ensures Inv(State(tables, account)) && Evolves(old(State(tables, account)), State(tables, account))
    {
      var i := 0;
      while i < |steps|
        invariant 0 <= i <= |steps|
        invariant Run(State(tables, account), steps[i..]) == Run(old(State(tables, account)), steps)
      {
        assert steps[i..][0] == steps[i] && steps[i..][1..] == steps[i + 1..];
        Serve(steps[i]);
        i := i + 1;
      }
      RunSafe(old(State(tables, account)), steps);
    }
  }
}
