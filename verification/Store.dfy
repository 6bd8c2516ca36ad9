/** The mutable state behind the services: the tables, and the Stripe account with the outside that drives it. */
module Store {
  import opened Schema
  import opened Pricing
  import opened StripeCalls

  class Tables {
    var rows: map<Id, Booking>
    var nextRow: nat
    var zones: map<Id, Zone>
    var items: map<Resource, Item>
    var spaces: map<Id, Space>

    constructor ()
      ensures Value() == Database(map[], 0, map[], map[], map[])
    {
      rows, nextRow, zones, items, spaces := map[], 0, map[], map[], map[];
    }

    function Value(): Database
      reads this
    {
      Database(rows, nextRow, zones, items, spaces)
    }
  }

  class Gateway {
    var intents: map<Id, Intent>
    var nextIntent: nat
    var refunds: map<Id, Refund>
    var nextRefund: nat
    var now: Time
    var sky: Weather
    var future: seq<Weather>
    var halted: bool

    constructor (startOfTime: Time)
      ensures Value() == Stripe(map[], 0, map[], 0)
      ensures Outside() == Env(startOfTime, CALM, [], false)
    {
      intents, nextIntent, refunds, nextRefund := map[], 0, map[], 0;
      now, sky, future, halted := startOfTime, CALM, [], false;
    }

    function Value(): Stripe
      reads this
    {
      Stripe(intents, nextIntent, refunds, nextRefund)
    }

    function Outside(): Env
      reads this
    {
      Env(now, sky, future, halted)
    }
  }

  function State(t: Tables, g: Gateway): World
    reads t, g
  {
    World(t.Value(), g.Value(), g.Outside())
  }

  /** The Stripe service of one process. */
  class StripeService {
    const tables: Tables
    const account: Gateway

    constructor (tables: Tables, account: Gateway)
      ensures this.tables == tables && this.account == account
    {
      this.tables, this.account := tables, account;
    }

    function Now(): World
      reads tables, account
    {
      State(tables, account)
    }

    /** Before every statement the outside moves. */
    method Wait()
      modifies account
      ensures Now() == Turn(old(Now()))
    {
      if account.halted { return; }
      if account.future == [] {
        account.sky := CALM;
        return;
      }
      var sky := account.future[0];
      account.intents := Drift(account.intents, sky.drift);
      account.now := account.now + sky.tick;
      account.sky := sky;
      account.future := account.future[1..];
      account.halted := sky.fault.Stop?;
    }

    method Retrieve(p: Id) returns (r: Reply<Intent>)
      modifies account
      ensures (Now(), r) == ApiRetrieve(old(Now()), p)
    {
      Wait();
      if account.halted || !account.sky.fault.Fine? || p !in account.intents { return Threw; }
      return Returned(account.intents[p]);
    }

    method Cancel(p: Id) returns (r: Reply<bool>)
      modifies account
      ensures (Now(), r) == ApiCancel(old(Now()), p)
    {
      Wait();
      if account.halted || account.sky.fault.NoReply? || p !in account.intents || Terminal(account.intents[p].status) {
        return Threw;
      }
      account.intents := account.intents[p := account.intents[p].(status := Canceled)];
      r := if account.sky.fault.LostReply? then Threw else Returned(account.sky.shownCanceled);
    }

    method CancelPaymentIntent(p: Id) returns (r: Reply<CancelOutcome>)
      modifies account
      ensures (Now(), r) == CancelIntent(old(Now()), p)
    {
      var cancel := Cancel(p);
      if cancel.Returned? { return Returned(if cancel.value then WasCanceled else Other); }
      var look := Retrieve(p);
      if look.Threw? { return Threw; }
      if look.value.status.Canceled? { return Returned(WasCanceled); }
      if look.value.status.Succeeded? { return Returned(WasSucceeded); }
      return Threw;
    }

    method CreateBookingPaymentIntent(bookingId: Id, amount: int) returns (r: Reply<Id>)
      modifies account
      ensures (Now(), r) == CreateIntent(old(Now()), bookingId, amount)
    {
      var split := CalculateFeeSplit(amount);
      if split.None? { return Threw; }
      Wait();
      if account.halted || account.sky.fault.NoReply? { return Threw; }
      var p := account.nextIntent;
      account.intents := account.intents[p := Intent(bookingId, amount, Open, false, false)];
      account.nextIntent := p + 1;
      r := if account.sky.fault.LostReply? then Threw else Returned(p);
    }

    method RefundBookingPayment(p: Id, bookingId: Id) returns (r: Reply<Refund>)
      modifies account
      ensures (Now(), r) == RefundIntent(old(Now()), p, bookingId)
    {
      Wait();
      if account.halted || account.sky.fault.NoReply? { return Threw; }
      if bookingId in account.refunds {
        if account.sky.fault.LostReply? || account.refunds[bookingId].intent != p { return Threw; }
        return Returned(account.refunds[bookingId]);
      }
      if p !in account.intents || !account.intents[p].status.Succeeded? { return Threw; }
      var refund := Refund(account.nextRefund, p, account.intents[p].amountCents, account.sky.refundStatus);
      account.refunds := account.refunds[bookingId := refund];
      account.nextRefund := account.nextRefund + 1;
      r := if account.sky.fault.LostReply? then Threw else Returned(refund);
    }
  }
}
