/** What one statement against the database or one call to Stripe does to the world.

    Assumptions about Stripe, all stated here: a succeeded or cancelled PaymentIntent stays so; a cancel call
    that returns normally has cancelled the intent; a terminal intent cannot be cancelled; a refund without an
    amount is full and needs a succeeded intent; one idempotency key gives one refund, whose first answer is
    replayed; an intent can succeed only after it was attached to its booking. */
module StripeCalls {
  import opened Schema
  import opened Pricing

  predicate IntentStep(i: Intent, j: Intent) {
    && i.bookingId == j.bookingId
    && i.amountCents == j.amountCents
    && (Terminal(i.status) ==> j.status == i.status)
    && (i.failedAttempt ==> j.failedAttempt)
    && (i.attached ==> j.attached)
  }

  predicate IntentsGrow(a: map<Id, Intent>, b: map<Id, Intent>) {
    forall p | p in a :: p in b && IntentStep(a[p], b[p])
  }

  /** The outside moves, then the next statement is about to run. */
  function Turn(w: World): World {
    if w.env.halted then w
    else if w.env.future == [] then w.(env := w.env.(sky := CALM))
    else
      var sky := w.env.future[0];
      World(
        w.db,
        w.stripe.(intents := Drift(w.stripe.intents, sky.drift)),
        Env(w.env.now + sky.tick, sky, w.env.future[1..], sky.fault.Stop?))
  }

  /** Only drifts that respect what Stripe promises about intents happen, and nobody can pay an intent before its
      client secret was handed out. */
  function Drift(a: map<Id, Intent>, b: map<Id, Intent>): map<Id, Intent> {
    if a.Keys == b.Keys && IntentsGrow(a, b) && PaidAfterAttach(a, b) then b else a
  }

  predicate PaidAfterAttach(a: map<Id, Intent>, b: map<Id, Intent>) {
    forall p | p in a && p in b ::
      a[p].attached == b[p].attached && (b[p].status.Succeeded? ==> a[p].status.Succeeded? || a[p].attached)
  }

  /** From the attach write on the member may hold the client secret. */
  function MarkAttached(intents: map<Id, Intent>, p: Id): map<Id, Intent> {
    if p in intents then intents[p := intents[p].(attached := true)] else intents
  }

  datatype Reply<+T> = Returned(value: T) | Threw

  function ApiCancel(w: World, p: Id): (World, Reply<bool>) {
    var t := Turn(w);
    if t.env.halted || t.env.sky.fault.NoReply? || p !in t.stripe.intents || Terminal(t.stripe.intents[p].status)
    then (t, Threw)
    else
      var intents := t.stripe.intents[p := t.stripe.intents[p].(status := Canceled)];
      (t.(stripe := t.stripe.(intents := intents)),
       if t.env.sky.fault.LostReply? then Threw else Returned(t.env.sky.shownCanceled))
  }

  function ApiRetrieve(w: World, p: Id): (World, Reply<Intent>) {
    var t := Turn(w);
    (t, if t.env.halted || !t.env.sky.fault.Fine? || p !in t.stripe.intents then Threw
        else Returned(t.stripe.intents[p]))
  }

  datatype CancelOutcome = WasCanceled | WasSucceeded | Other

  /** `cancelPaymentIntent`: a refused cancel looks at where the intent ended up. */
  function CancelIntent(w: World, p: Id): (World, Reply<CancelOutcome>) {
    var (w1, cancel) := ApiCancel(w, p);
    match cancel
    case Returned(shown) => (w1, Returned(if shown then WasCanceled else Other))
    case Threw =>
      var (w2, look) := ApiRetrieve(w1, p);
      match look
      case Threw => (w2, Threw)
      case Returned(i) =>
        (w2, if i.status.Canceled? then Returned(WasCanceled)
             else if i.status.Succeeded? then Returned(WasSucceeded)
             else Threw)
  }

  /** `createBookingPaymentIntent`: the fee split refuses amounts that are not positive before any call. */
  function CreateIntent(w: World, bookingId: Id, amount: int): (World, Reply<Id>) {
    if CalculateFeeSplit(amount).None? then (w, Threw)
    else
      var t := Turn(w);
      if t.env.halted || t.env.sky.fault.NoReply? then (t, Threw)
      else
        var p := t.stripe.nextIntent;
        (t.(stripe := t.stripe.(
           intents := t.stripe.intents[p := Intent(bookingId, amount, Open, false, false)], nextIntent := p + 1)),
         if t.env.sky.fault.LostReply? then Threw else Returned(p))
  }

  /** `refundBookingPayment`, with the booking as the idempotency key. */
  function RefundIntent(w: World, p: Id, bookingId: Id): (World, Reply<Refund>) {
    var t := Turn(w);
    if t.env.halted || t.env.sky.fault.NoReply? then (t, Threw)
    else if bookingId in t.stripe.refunds then
      (t, if t.env.sky.fault.LostReply? || t.stripe.refunds[bookingId].intent != p then Threw
          else Returned(t.stripe.refunds[bookingId]))
    else if p !in t.stripe.intents || !t.stripe.intents[p].status.Succeeded? then (t, Threw)
    else
      var refund := Refund(t.stripe.nextRefund, p, t.stripe.intents[p].amountCents, t.env.sky.refundStatus);
      (t.(stripe := t.stripe.(
         refunds := t.stripe.refunds[bookingId := refund], nextRefund := t.stripe.nextRefund + 1)),
       if t.env.sky.fault.LostReply? then Threw else Returned(refund))
  }
}
