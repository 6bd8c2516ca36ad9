/** The webhook keeps the protocol, and its events commute: late, repeated and reordered deliveries agree. */
module WebhookProofs {
  import opened Schema
  import opened StripeCalls
  import opened Bookings
  import opened Webhook
  import opened Protocol

  /** A signed event tells the truth about an intent in the ledger. */
  ghost predicate Genuine(w: World, e: Event) {
    && e.intent in w.stripe.intents
    && (e.bookingId.Some? ==> e.bookingId.value == w.stripe.intents[e.intent].bookingId)
    && (e.PaymentSucceeded? ==> w.stripe.intents[e.intent].status.Succeeded?)
  }

  lemma HandleKeeps(w: World, e: Event)
    requires Inv(w) && Genuine(w, e)
    ensures var v := Handle(w, e); Inv(v) && Evolves(w, v)
  {
    hide RowsOk, TreeOk, NoOverlap, RowsForward, TreeForward, AttachForward, DatesForward;
    TurnKeeps(w);
    var t := Turn(w);
    assert IntentStep(w.stripe.intents[e.intent], t.stripe.intents[e.intent]);
    if !t.env.halted && e.bookingId.Some? && e.bookingId.value in t.db.rows {
      var id := e.bookingId.value;
      RowOf(t, id);
      assert IntentOk(t.stripe.intents[e.intent], t.db);
      PutKeeps(t, id, OnRow(t.db.rows[id], e, t.env.now));
      EvolvesTrans(w, t, Handle(w, e));
    }
  }

  // ------------------------------------------------------------ confluence

  datatype Delivery = Delivery(event: Event, at: Time)

  function Fold(b: Booking, ds: seq<Delivery>): Booking
    decreases ds
  {
    if ds == [] then b else Fold(OnRow(b, ds[0].event, ds[0].at), ds[1..])
  }

  ghost predicate Waiting(b: Booking) { SucceedGuard(b) }

  /** Position of the first success, or the number of deliveries. */
  function FirstSuccess(ds: seq<Delivery>): (i: nat)
    ensures i <= |ds|
    ensures i < |ds| ==> ds[i].event.PaymentSucceeded?
    ensures forall j | 0 <= j < i :: ds[j].event.PaymentFailed?
  {
    if ds == [] || ds[0].event.PaymentSucceeded? then 0 else 1 + FirstSuccess(ds[1..])
  }

  /** Some failure names the intent the booking is waiting on. */
  ghost predicate FailsAttached(b: Booking, ds: seq<Delivery>) {
    exists i | 0 <= i < |ds| :: ds[i].event.PaymentFailed? && b.intent == Some(ds[i].event.intent)
  }

  /** A row that is cancelled or already carries money ignores every event. */
  lemma {:induction false} IgnoresEvents(b: Booking, ds: seq<Delivery>)
    requires b.cancelledAt.Some? || Money(b.status)
    ensures Fold(b, ds) == b
    decreases ds
  {
    if ds != [] { IgnoresEvents(b, ds[1..]); }
  }

  /** The closed form of any finite sequence of deliveries over a booking still waiting for payment: the first
      success alone decides, and fixes intent and time; without one, only failures of the attached intent count. */
  lemma {:induction false} FoldClosedForm(b: Booking, ds: seq<Delivery>)
    requires Waiting(b)
    ensures var i := FirstSuccess(ds);
            Fold(b, ds) ==
              if i < |ds| then Paid(b, ds[i].at).(intent := Some(ds[i].event.intent))
              else if FailsAttached(b, ds) then b.(status := FAILED)
              else b
    decreases ds
  {
    if ds != [] {
      var c := OnRow(b, ds[0].event, ds[0].at);
      if ds[0].event.PaymentSucceeded? {
        IgnoresEvents(c, ds[1..]);
      } else {
        FoldClosedForm(c, ds[1..]);
        FailsAttachedCons(b, ds);
        assert FailsAttached(c, ds[1..]) == FailsAttached(b, ds[1..]);
      }
    }
  }

  lemma FailsAttachedCons(b: Booking, ds: seq<Delivery>)
    requires ds != []
    ensures FailsAttached(b, ds) <==>
              (ds[0].event.PaymentFailed? && b.intent == Some(ds[0].event.intent)) || FailsAttached(b, ds[1..])
  {
    if FailsAttached(b, ds[1..]) {
      var i :| 0 <= i < |ds[1..]| && ds[1..][i].event.PaymentFailed? && b.intent == Some(ds[1..][i].event.intent);
      assert ds[i + 1] == ds[1..][i];
    }
    if FailsAttached(b, ds) {
      var i :| 0 <= i < |ds| && ds[i].event.PaymentFailed? && b.intent == Some(ds[i].event.intent);
      if i > 0 { assert ds[1..][i - 1] == ds[i]; }
    }
  }

  ghost predicate SomeSuccess(ds: seq<Delivery>) { exists i | 0 <= i < |ds| :: ds[i].event.PaymentSucceeded? }

  function Events(ds: seq<Delivery>): set<Event> { set i | 0 <= i < |ds| :: ds[i].event }

  /** What a booking ends as. */
  lemma FoldStatus(b: Booking, ds: seq<Delivery>)
    requires Waiting(b)
    ensures Fold(b, ds).status.PAID? <==> SomeSuccess(ds)
    ensures !SomeSuccess(ds) ==>
              (Fold(b, ds).status.FAILED? <==> b.status.FAILED? || FailsAttached(b, ds))
    ensures !SomeSuccess(ds) && !FailsAttached(b, ds) ==> Fold(b, ds) == b
  {
    FoldClosedForm(b, ds);
    var i := FirstSuccess(ds);
    if i == |ds| { assert forall j | 0 <= j < |ds| :: ds[j].event.PaymentFailed?; }
  }

  /** Order and repetition do not matter: the same events, delivered in any order and any number of times,
      leave the same status, and when no success is among them exactly the same row. */
  lemma DeliveryOrderIrrelevant(b: Booking, xs: seq<Delivery>, ys: seq<Delivery>)
    requires Events(xs) == Events(ys)
    ensures Fold(b, xs).status == Fold(b, ys).status
    ensures !SomeSuccess(xs) ==> Fold(b, xs) == Fold(b, ys)
  {
    if Waiting(b) {
      FoldClosedForm(b, xs);
      FoldClosedForm(b, ys);
      ByEvents(b, xs);
      ByEvents(b, ys);
    } else {
      IgnoresEvents(b, xs);
      IgnoresEvents(b, ys);
    }
  }

  lemma ByEvents(b: Booking, ds: seq<Delivery>)
    ensures SomeSuccess(ds) <==> exists e | e in Events(ds) :: e.PaymentSucceeded?
    ensures FirstSuccess(ds) < |ds| <==> SomeSuccess(ds)
    ensures FailsAttached(b, ds) <==> exists e | e in Events(ds) :: e.PaymentFailed? && b.intent == Some(e.intent)
  {
    if SomeSuccess(ds) {
      var i :| 0 <= i < |ds| && ds[i].event.PaymentSucceeded?;
      assert ds[i].event in Events(ds);
    }
    if FailsAttached(b, ds) {
      var i :| 0 <= i < |ds| && ds[i].event.PaymentFailed? && b.intent == Some(ds[i].event.intent);
      assert ds[i].event in Events(ds);
    }
  }
}
