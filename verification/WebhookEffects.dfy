/** What a webhook event writes, field by field, and what any list of deliveries leaves in the table. */
module WebhookEffects {
  import opened Schema
  import opened StripeCalls
  import opened Webhook
  import opened WebhookProofs
  import opened Runs

  /** The booking an event is about, if it is there. */
  predicate About(w: World, e: Event, id: Id) { e.bookingId == Some(id) && id in w.db.rows }

  ghost predicate Takes(b: Booking, e: Event) {
    b.cancelledAt.None? && if e.PaymentSucceeded? then b.status in {UNPAID, PENDING, FAILED}
                           else b.intent == Some(e.intent) && b.status in {UNPAID, PENDING}
  }

  /** A success event makes an uncancelled unpaid booking PAID through its intent, now and without a hold; a failure
      event makes one that waits on its intent FAILED and leaves the rest of it; any other event writes nothing, and
      no event touches another row or calls Stripe. */
  lemma HandleEffect(w: World, e: Event)
    ensures var v := Handle(w, e);
            && v.stripe == Turn(w).stripe && v.env == Turn(w).env
            && (v.env.halted ==> v.db == w.db)
            && (!v.env.halted ==>
                  && (forall id | About(w, e, id) && Takes(w.db.rows[id], e) && e.PaymentSucceeded? ::
                        v.db == w.db.(rows := w.db.rows[id := w.db.rows[id].(
                          status := PAID, intent := Some(e.intent), holdExpiresAt := None, paidAt := Some(v.env.now))]))
                  && (forall id | About(w, e, id) && Takes(w.db.rows[id], e) && e.PaymentFailed? ::
                        v.db == w.db.(rows := w.db.rows[id := w.db.rows[id].(status := FAILED)]))
                  && ((forall id | About(w, e, id) :: !Takes(w.db.rows[id], e)) ==> v.db == w.db))
  {
    var t := Turn(w);
    assert t.db == w.db;
    if !t.env.halted && e.bookingId.Some? && About(w, e, e.bookingId.value) {
      var id := e.bookingId.value;
      if !Takes(w.db.rows[id], e) { assert w.db.rows[id := w.db.rows[id]] == w.db.rows; }
    }
  }

  // ---------------------------------------------------------- lists of events

  /** What a list of deliveries brings one booking, with the times at which it is handled. */
  function Deliveries(w: World, steps: seq<Step>, id: Id): seq<Delivery>
    decreases steps
  {
    if steps == [] then []
    else
      var v := Exec(w, steps[0]);
      (if steps[0].call.DoWebhook? && steps[0].call.event.bookingId == Some(id)
       then [Delivery(steps[0].call.event, v.env.now)] else [])
      + Deliveries(v, steps[1..], id)
  }

  ghost predicate OnlyEvents(w: World, steps: seq<Step>)
    decreases steps
  {
    steps == []
    || (steps[0].call.DoWebhook? && !Exec(w, steps[0]).env.halted && OnlyEvents(Exec(w, steps[0]), steps[1..]))
  }

  /** After any list of deliveries that are all handled, every row is what its own deliveries fold it to. */
  lemma {:induction false} EventsFold(w: World, steps: seq<Step>, id: Id)
    requires OnlyEvents(w, steps) && id in w.db.rows
    ensures id in Run(w, steps).db.rows
    ensures Run(w, steps).db.rows[id] == Fold(w.db.rows[id], Deliveries(w, steps, id))
    ensures Run(w, steps).db.rows.Keys == w.db.rows.Keys
    decreases steps
  {
    if steps != [] {
      var v := Exec(w, steps[0]);
      EventsFold(v, steps[1..], id);
      var e := steps[0].call.event;
      var first := if e.bookingId == Some(id) then [Delivery(e, v.env.now)] else [];
      assert Deliveries(w, steps, id) == first + Deliveries(v, steps[1..], id);
      if e.bookingId == Some(id) {
        assert (first + Deliveries(v, steps[1..], id))[1..] == Deliveries(v, steps[1..], id);
      } else {
        assert first + Deliveries(v, steps[1..], id) == Deliveries(v, steps[1..], id);
      }
    }
  }
}
