/** What a released hold may still cost the member. The services cancel the attached intent and look no further;
    a retry leaves the intent it replaces open, so a booking can be charged through an earlier one. Here is exactly
    when a removed booking was charged, and when it ever can be. */
module Charges {
  import opened Schema
  import opened Pricing
  import opened StripeCalls
  import opened Bookings
  import opened Webhook
  import opened Deletion
  import opened Protocol
  import opened BookingProofs
  import opened ListAndRetryProofs
  import opened ReachableStripe
  import opened CreateEffects
  import opened ListEffects
  import opened Runs
  import opened Stranded

  predicate Names(s: Stripe, p: Id, id: Id) { p in s.intents && s.intents[p].bookingId == id }

  /** Some intent of the booking has succeeded. */
  ghost predicate Charged(id: Id, s: Stripe) { exists p :: Names(s, p, id) && s.intents[p].status.Succeeded? }

  /** Some intent of the booking has, or can still bring, a payment. */
  predicate Payable(s: Stripe, p: Id, id: Id) { Names(s, p, id) && s.intents[p].attached && !s.intents[p].status.Canceled? }

  // ------------------------------------------------- what a handler removes

  lemma ListRemoves(w: World, spaceId: Id, scope: Option<Id>, id: Id)
    requires Inv(w) && id in w.db.rows && id !in FindAll(w, spaceId, scope).0.db.rows
    ensures Freeable(w.db.rows[id], FindAll(w, spaceId, scope).0.stripe) && PastDeadline(w.db.rows[id], w.env.now)
  {
    hide FindAll, Inv, Evolves;
    FindAllSafe(w, spaceId, scope);
    ListEffect(w, spaceId, scope, id);
  }

  lemma CreateRemoves(w: World, resource: Resource, start: Time, end: Time, spaceId: Id, userId: Id, id: Id)
    requires Inv(w) && id in w.db.rows && id !in Create(w, resource, start, end, spaceId, userId).0.db.rows
    ensures Freeable(w.db.rows[id], Create(w, resource, start, end, spaceId, userId).0.stripe)
    ensures PastDeadline(w.db.rows[id], w.env.now)
  {
    hide Create, Inv, Evolves;
    CreateSafe(w, resource, start, end, spaceId, userId);
    CreateSparesTheLive(w, resource, start, end, spaceId, userId, id);
  }

  lemma RetryRemoves(w: World, k: Id, spaceId: Id, userId: Id, id: Id)
    requires Inv(w) && id in w.db.rows && id !in Retry(w, k, spaceId, userId).0.db.rows
    ensures Freeable(w.db.rows[id], Retry(w, k, spaceId, userId).0.stripe) && PastDeadline(w.db.rows[id], w.env.now)
  {
    hide RowsOk, LedgerOk, TreeOk, NoOverlap, RowsForward, TreeForward, StripeForward, Release, Freeable,
      AttachForward, DatesForward;
    if k != id { RetryTouchesOne(w, k, spaceId, userId, id); }
    var b := w.db.rows[id];
    RowOf(w, id);
    if Expired(b, w.env.now) {
      ReleaseSafe(w, [HoldRef(id, b.intent)]);
    } else {
      ClaimFrame(w, id, userId, b.status);
      var (w1, won) := Claim(w, id, userId, b.status);
      if won {
        PayFrame(w1, id, b.amountCents.value);
        RevertFrame(CreateAndAttach(w1, id, b.amountCents.value).0, id, b);
      }
    }
  }

  lemma RemoveRemovesNone(w: World, target: Target, spaceId: Id, confirm: bool)
    requires Inv(w)
    ensures Remove(w, target, spaceId, confirm).0.db.rows.Keys == w.db.rows.Keys
  {
    hide RowsOk, LedgerOk, TreeOk, NoOverlap, RowsForward, TreeForward, StripeForward, Settle, TargetLive,
      AttachForward, DatesForward;
    TurnKeeps(w);
    var t, v := Turn(w), Remove(w, target, spaceId, confirm).0;
    if v != t { RP.SettleTx(t, target, spaceId, w.env.now); }
  }

  /** Whichever handler removes a row, it was an unpaid hold past its deadline when the request came in, and its
      attached intent is absent or cancelled by then. */
  lemma RemovedWasFreed(w: World, s: Step, id: Id)
    requires Inv(w) && Legal(w, s) && id in w.db.rows && id !in Exec(w, s).db.rows
    ensures Freeable(w.db.rows[id], Exec(w, s).stripe) && PastDeadline(w.db.rows[id], w.env.now)
  {
    hide Create, FindAll, Retry, Remove, RetryRefund, Freeable, Inv, Evolves;
    BeginKeeps(w, s.future);
    var b := Begin(w, s.future);
    match s.call
    case DoCreate(r, start, end, space, user) => CreateRemoves(b, r, start, end, space, user, id);
    case DoList(space, scope) => ListRemoves(b, space, scope, id);
    case DoRetry(k, space, user) => RetryRemoves(b, k, space, user, id);
    case DoWebhook(e) =>
    case DoRemove(target, space, confirm) => RemoveRemovesNone(b, target, space, confirm);
    case DoRetryRefund(k, space) => RP.RetryRefundKeeps(b, k, space);
    case DoChange(c) =>
    case DoNothing =>
  }

  // ------------------------------------------------------- charged or not

  lemma ChargeNeedsAnOpening(v: World, z: World, id: Id)
    requires Inv(v) && Inv(z) && Evolves(v, z) && id < v.db.nextRow && id !in v.db.rows && Charged(id, z.stripe)
    ensures exists p :: Payable(v.stripe, p, id)
  {
    var p :| Names(z.stripe, p, id) && z.stripe.intents[p].status.Succeeded?;
    assert IntentOk(z.stripe.intents[p], z.db);
    assert p in v.stripe.intents && v.stripe.intents[p].attached;
    assert IntentStep(v.stripe.intents[p], z.stripe.intents[p]);
    assert Payable(v.stripe, p, id);
  }

  lemma OpeningBringsACharge(v: World, p: Id, id: Id)
    requires Payable(v.stripe, p, id)
    ensures var pay := [Step(DoNothing, [Paying(v.stripe.intents, p, 0)])];
            LegalRun(v, pay) && Charged(id, Run(v, pay).stripe)
  {
    var step := Step(DoNothing, [Paying(v.stripe.intents, p, 0)]);
    MemberPays(v, p, 0);
    var u := Exec(v, step);
    hide Exec;
    assert LegalRun(u, []) && Run(v, [step]) == Run(u, []) == u;
    assert Names(u.stripe, p, id) && u.stripe.intents[p].status.Succeeded?;
  }

  ghost predicate ChargedOnSomeRun(v: World, id: Id) {
    exists later: seq<Step> :: LegalRun(v, later) && Charged(id, Run(v, later).stripe)
  }

  /** Exactly when a hold that a handler released had been charged, and exactly when it ever can be: through another
      intent that names the booking, succeeded or, respectively, attached before the call and not cancelled by it.
      The intent that was attached to the row is out of the question. */
  lemma ReleasedIsChargedIff(w: World, s: Step, id: Id)
    requires Reachable(w) && Legal(w, s) && id in w.db.rows && id !in Exec(w, s).db.rows
    ensures var v, attached := Exec(w, s), w.db.rows[id].intent;
            && (Charged(id, v.stripe)
                <==> exists p: Id :: Names(v.stripe, p, id) && v.stripe.intents[p].status.Succeeded? && attached != Some(p))
            && (ChargedOnSomeRun(v, id)
                <==> exists p: Id :: Payable(v.stripe, p, id) && Names(w.stripe, p, id) && w.stripe.intents[p].attached && attached != Some(p))
  {
    hide Exec, Inv, Evolves, Legal;
    ReachableInv(w);
    ExecKeeps(w, s);
    RemovedWasFreed(w, s, id);
    var v := Exec(w, s);
    RowOf(w, id);
    GoneIsOld(w, v, id);
    if ChargedOnSomeRun(v, id) {
      var later: seq<Step> :| LegalRun(v, later) && Charged(id, Run(v, later).stripe);
      RunSafe(v, later);
      ChargeNeedsAnOpening(v, Run(v, later), id);
    }
    if p :| Payable(v.stripe, p, id) { OpeningBringsACharge(v, p, id); }
    forall p: Id | Payable(v.stripe, p, id) ensures Names(w.stripe, p, id) && w.stripe.intents[p].attached {
      RemovedGetsNoIntent(w, s, id, p);
    }
  }

  lemma GoneIsOld(w: World, v: World, id: Id)
    requires Inv(w) && Evolves(w, v) && id in w.db.rows
    ensures id < v.db.nextRow
  {
    RowOf(w, id);
  }

  // ------------------------------------------------- known before the call

  /** Every intent attached in `v` was attached in `w`. */
  ghost predicate NoneAttached(w: World, v: World) {
    forall p | p in v.stripe.intents && v.stripe.intents[p].attached :: p in w.stripe.intents && w.stripe.intents[p].attached
  }

  lemma TurnAttachesNone(w: World)
    ensures NoneAttached(w, Turn(w)) && NoneAttached(w, w)
  {
    hide IntentsGrow;
  }

  lemma CancelAttachesNone(w: World, p: Id)
    ensures NoneAttached(w, CancelIntent(w, p).0)
  {
    hide Turn;
    var w1 := ApiCancel(w, p).0;
    TurnAttachesNone(w);
    assert NoneAttached(w, w1);
    TurnAttachesNone(w1);
  }

  lemma RoundAttachesNone(w: World, h: HoldRef)
    ensures NoneAttached(w, Round(w, h))
  {
    hide CancelIntent, Turn;
    TurnAttachesNone(w);
    if h.intent.Some? {
      CancelAttachesNone(w, h.intent.value);
      TurnAttachesNone(CancelIntent(w, h.intent.value).0);
    }
  }

  lemma {:induction false} LoopAttachesNone(w: World, todo: seq<HoldRef>, released: set<Id>)
    ensures NoneAttached(w, ReleaseLoop(w, todo, released).0)
    decreases todo
  {
    hide ReleaseLoop, Round, Gives;
    if todo == [] {
      LoopEmpty(w, released);
    } else {
      LoopSplit(w, todo, released);
      RoundAttachesNone(w, todo[0]);
      LoopAttachesNone(Round(w, todo[0]), todo[1..], if Gives(w, todo[0]) then released + {todo[0].id} else released);
    }
  }

  lemma ReleaseAttachesNone(w: World, todo: seq<HoldRef>)
    ensures NoneAttached(w, Release(w, todo).0)
  {
    hide ReleaseLoop, Turn;
    LoopAttachesNone(w, todo, {});
    TurnAttachesNone(ReleaseLoop(w, todo, {}).0);
  }

  /** A booking that is gone gets no further intent attached. */
  lemma GoneGetsNone(w: World, v: World, p: Id, id: Id)
    requires Evolves(w, v) && id < w.db.nextRow && id !in w.db.rows && Names(v.stripe, p, id) && v.stripe.intents[p].attached
    ensures Names(w.stripe, p, id) && w.stripe.intents[p].attached
  {
    assert p in w.stripe.intents && w.stripe.intents[p].attached;
    assert IntentStep(w.stripe.intents[p], v.stripe.intents[p]);
  }

  lemma NamedBefore(w: World, v: World, p: Id, id: Id)
    requires StripeForward(w.stripe, v.stripe) && p in w.stripe.intents && Names(v.stripe, p, id)
    ensures Names(w.stripe, p, id)
  {
    assert IntentStep(w.stripe.intents[p], v.stripe.intents[p]);
  }

  lemma CreateAttachesNone(w: World, resource: Resource, start: Time, end: Time, spaceId: Id, userId: Id, id: Id, p: Id)
    requires Inv(w) && id in w.db.rows && id !in Create(w, resource, start, end, spaceId, userId).0.db.rows
    requires var v := Create(w, resource, start, end, spaceId, userId).0.stripe; Names(v, p, id) && v.intents[p].attached
    ensures Names(w.stripe, p, id) && w.stripe.intents[p].attached
  {
    hide RowsOk, LedgerOk, TreeOk, NoOverlap, RowsForward, TreeForward, StripeForward, AttachForward, Book, Release,
      DatesForward;
    var v := Create(w, resource, start, end, spaceId, userId).0;
    var (_, amount, paid) := CreateChecks(w.db, resource, start, end, spaceId);
    var w1 := ClearStale(w, resource);
    ClearStaleKeeps(w, resource);
    NextIsNew(w1);
    BookFrame(w1, resource, start, end, spaceId, userId, amount, paid);
    BookKeeps(w1, resource, start, end, spaceId, userId, amount, paid);
    RowOf(w, id);
    GoneIsOld(w, w1, id);
    GoneGetsNone(w1, v, p, id);
    var stale := StaleIds(w.db, resource, w.env.now);
    if stale != [] { ReleaseAttachesNone(w, HoldRefs(w.db.rows, stale)); }
    NamedBefore(w, w1, p, id);
  }

  lemma ListAttachesNone(w: World, spaceId: Id, scope: Option<Id>, id: Id, p: Id)
    requires Inv(w) && id in w.db.rows && id !in FindAll(w, spaceId, scope).0.db.rows
    requires var v := FindAll(w, spaceId, scope).0.stripe; Names(v, p, id) && v.intents[p].attached
    ensures Names(w.stripe, p, id) && w.stripe.intents[p].attached
  {
    hide RowsOk, LedgerOk, TreeOk, NoOverlap, RowsForward, TreeForward, StripeForward, AttachForward, Reconcile,
      Release, AllFresh, DatesForward;
    var ids := ListedIds(w.db, spaceId, scope);
    var (w1, released) := ExpireStale(w, ids);
    ExpireStaleKeeps(w, ids);
    PendingFresh(w, w1, ids, released);
    var pending := ReconcilableAmong(w.db, ids, released);
    var v := Reconcile(w1, w.db.rows, pending);
    ReconcileKeeps(w1, w.db.rows, pending);
    RowOf(w, id);
    GoneIsOld(w, w1, id);
    GoneGetsNone(w1, v, p, id);
    var expired := ExpiredAmong(w.db, ids, w.env.now);
    if expired != [] { ReleaseAttachesNone(w, HoldRefs(w.db.rows, expired)); }
    NamedBefore(w, w1, p, id);
  }

  lemma RetryAttachesNone(w: World, k: Id, spaceId: Id, userId: Id, id: Id, p: Id)
    requires Inv(w) && id in w.db.rows && id !in Retry(w, k, spaceId, userId).0.db.rows
    requires var v := Retry(w, k, spaceId, userId).0.stripe; Names(v, p, id) && v.intents[p].attached
    ensures Names(w.stripe, p, id) && w.stripe.intents[p].attached
  {
    hide RowsOk, LedgerOk, TreeOk, NoOverlap, RowsForward, TreeForward, StripeForward, AttachForward, Release,
      DatesForward;
    if k != id { RetryTouchesOne(w, k, spaceId, userId, id); }
    var b := w.db.rows[id];
    RowOf(w, id);
    if Expired(b, w.env.now) {
      ReleaseAttachesNone(w, [HoldRef(id, b.intent)]);
      RetryKeeps(w, k, spaceId, userId);
      NamedBefore(w, Retry(w, k, spaceId, userId).0, p, id);
    } else {
      ClaimFrame(w, id, userId, b.status);
      var (w1, won) := Claim(w, id, userId, b.status);
      if won {
        PayFrame(w1, id, b.amountCents.value);
        RevertFrame(CreateAndAttach(w1, id, b.amountCents.value).0, id, b);
      }
    }
  }

  /** Whichever handler removes a row attaches no intent to it: all that could charge it was attached before. */
  lemma RemovedGetsNoIntent(w: World, s: Step, id: Id, p: Id)
    requires Inv(w) && Legal(w, s) && id in w.db.rows && id !in Exec(w, s).db.rows
    requires Names(Exec(w, s).stripe, p, id) && Exec(w, s).stripe.intents[p].attached
    ensures Names(w.stripe, p, id) && w.stripe.intents[p].attached
  {
    hide Create, FindAll, Retry, Remove, RetryRefund, Inv, Evolves;
    BeginKeeps(w, s.future);
    var b := Begin(w, s.future);
    match s.call
    case DoCreate(r, start, end, space, user) => CreateAttachesNone(b, r, start, end, space, user, id, p);
    case DoList(space, scope) => ListAttachesNone(b, space, scope, id, p);
    case DoRetry(k, space, user) => RetryAttachesNone(b, k, space, user, id, p);
    case DoWebhook(e) =>
    case DoRemove(target, space, confirm) => RemoveRemovesNone(b, target, space, confirm);
    case DoRetryRefund(k, space) => RP.RetryRefundKeeps(b, k, space);
    case DoChange(c) =>
    case DoNothing =>
  }

  /** When, before a call, the intent on the row is the only one that was ever attached to the booking, and the call
      removes the row, it was never charged and never will be, whatever happens. */
  lemma OnlyIntentNeverCharged(w: World, s: Step, id: Id, later: seq<Step>)
    requires Reachable(w) && Legal(w, s) && id in w.db.rows && id !in Exec(w, s).db.rows
    requires forall p: Id | Names(w.stripe, p, id) && w.stripe.intents[p].attached :: w.db.rows[id].intent == Some(p)
    requires LegalRun(Exec(w, s), later)
    ensures !Charged(id, Run(Exec(w, s), later).stripe)
  {
    hide Exec, Legal, Run, LegalRun, Inv;
    ReachableInv(w);
    ReleasedIsChargedIff(w, s, id);
    forall p: Id | Payable(Exec(w, s).stripe, p, id) ensures w.db.rows[id].intent == Some(p) {
      RemovedGetsNoIntent(w, s, id, p);
    }
  }

  /** Conversely, an intent attached before the call, other than the one on the row, lets the removed booking be
      charged unless it was cancelled by then. */
  lemma OtherIntentCharges(w: World, s: Step, id: Id, p: Id)
    requires Reachable(w) && Legal(w, s) && id in w.db.rows && id !in Exec(w, s).db.rows
    requires Names(w.stripe, p, id) && w.stripe.intents[p].attached && w.db.rows[id].intent != Some(p)
    ensures var v := Exec(w, s);
            p in v.stripe.intents && (!v.stripe.intents[p].status.Canceled? ==> ChargedOnSomeRun(v, id))
  {
    hide Exec, Legal, Inv, RowsOk, LedgerOk, TreeOk, NoOverlap, ChargedOnSomeRun;
    ReachableInv(w);
    ExecKeeps(w, s);
    NamesStay(w, Exec(w, s), p, id);
    assert IntentStep(w.stripe.intents[p], Exec(w, s).stripe.intents[p]);
    ReleasedIsChargedIff(w, s, id);
  }

  // ------------------------------------------------------ a run that does it

  /** With a quiet outside no cancel finds a charge that was not there before. */
  lemma {:induction false} LoopStill(w: World, todo: seq<HoldRef>, released: set<Id>, q: Id)
    requires w.env.future == [] && q in w.stripe.intents && !w.stripe.intents[q].status.Succeeded?
    ensures var v := ReleaseLoop(w, todo, released).0;
            v.env.future == [] && q in v.stripe.intents && !v.stripe.intents[q].status.Succeeded?
    decreases todo
  {
    hide ReleaseLoop, Gives;
    if todo != [] {
      LoopSplit(w, todo, released);
      var freed := if Gives(w, todo[0]) then released + {todo[0].id} else released;
      LoopStill(Round(w, todo[0]), todo[1..], freed, q);
    } else {
      assert ReleaseLoop(w, [], released) == (w, released) by { LoopEmpty(w, released); }
    }
  }

  lemma LoopEmpty(w: World, released: set<Id>)
    ensures ReleaseLoop(w, [], released) == (w, released)
  {
  }

  lemma ClearStill(w: World, resource: Resource, q: Id)
    requires w.env.future == [] && q in w.stripe.intents && !w.stripe.intents[q].status.Succeeded?
    ensures var v := ClearStale(w, resource); q in v.stripe.intents && !v.stripe.intents[q].status.Succeeded?
  {
    hide ReleaseLoop;
    var stale := StaleIds(w.db, resource, w.env.now);
    if stale != [] { LoopStill(w, HoldRefs(w.db.rows, stale), {}, q); }
  }

  /** A lapsed hold behind an open intent is removed by the next create of its resource, whatever was paid through
      other intents. */
  lemma CreateReleases(w: World, resource: Resource, start: Time, end: Time, spaceId: Id, userId: Id, id: Id, q: Id)
    requires Inv(w) && w.env.future == [] && !w.env.halted
    requires CreateChecks(w.db, resource, start, end, spaceId).0.PaymentStarted?
    requires id in w.db.rows && w.db.rows[id].resource == resource && Expired(w.db.rows[id], w.env.now)
    requires w.db.rows[id].intent == Some(q) && q in w.stripe.intents && !w.stripe.intents[q].status.Succeeded?
    ensures id !in Create(w, resource, start, end, spaceId, userId).0.db.rows
  {
    hide RowsOk, LedgerOk, TreeOk, NoOverlap, RowsForward, TreeForward, StripeForward, ClearStale, Book,
      AttachForward, DatesForward;
    CreateClearsTheWay(w, resource, start, end, spaceId, userId, id);
    ClearStaleKeeps(w, resource);
    ClearStill(w, resource, q);
    var w1 := ClearStale(w, resource);
    NextIsNew(w1);
    RowOf(w, id);
    var (_, amount, paid) := CreateChecks(w.db, resource, start, end, spaceId);
    BookFrame(w1, resource, start, end, spaceId, userId, amount, paid);
  }

  /** A declined booking whose owner may retry. */
  ghost predicate Declined(w: World, id: Id, p: Id, spaceId: Id) {
    && id in w.db.rows
    && MayRetry(w, id, spaceId, w.db.rows[id].userId)
    && w.db.rows[id].status.FAILED? && w.db.rows[id].intent == Some(p)
    && p in w.stripe.intents && w.stripe.intents[p].status.Open?
  }

  /** The retry attaches a second intent and leaves the first one as it is. */
  lemma RetryKeepsTheFirst(w: World, id: Id, p: Id, spaceId: Id)
    requires Inv(w) && Declined(w, id, p, spaceId) && w.env.future == [] && !w.env.halted
    ensures var v, n := Retry(w, id, spaceId, w.db.rows[id].userId).0, w.stripe.nextIntent;
            && n != p && v.env.now == w.env.now && v.env.future == [] && id in v.db.rows
            && v.db == PutRow(w.db, id, v.db.rows[id])
            && v.db.rows[id].resource == w.db.rows[id].resource
            && v.db.rows[id].status.PENDING? && v.db.rows[id].holdExpiresAt == Some(w.env.now + HOLD_MS)
            && v.db.rows[id].intent == Some(n)
            && n in v.stripe.intents && v.stripe.intents[n].status.Open?
            && p in v.stripe.intents && v.stripe.intents[p] == w.stripe.intents[p]
  {
    hide RowsOk, TreeOk, NoOverlap, RowOk, Drift;
    AmountIsPositive(w, id, p);
    var b := w.db.rows[id];
    var (w1, won) := Claim(w, id, b.userId, b.status);
    assert won && w1.stripe == w.stripe && w1.env.future == [] && !w1.env.halted;
    var (w2, made) := CreateIntent(w1, id, b.amountCents.value);
    assert made == Returned(w.stripe.nextIntent) && w2.env.future == [] && !w2.env.halted;
  }

  lemma AmountIsPositive(w: World, id: Id, p: Id)
    requires Inv(w) && id in w.db.rows && w.db.rows[id].intent == Some(p)
    ensures p in w.stripe.intents && p < w.stripe.nextIntent && w.stripe.intents[p].bookingId == id && w.stripe.intents[p].attached
    ensures w.db.rows[id].amountCents.Some? && w.db.rows[id].amountCents.value > 0
  {
    RowOf(w, id);
    assert IntentOk(w.stripe.intents[p], w.db);
  }

  /** From every state with a declined booking: its owner retries, the first intent is then paid after all, no event
      arrives, the hold lapses, and the next create of that resource removes a booking that has been charged. */
  lemma ChargedHoldIsReleased(w: World, id: Id, p: Id, spaceId: Id, start: Time, end: Time, userId: Id)
    requires Inv(w) && Declined(w, id, p, spaceId)
    requires CreateChecks(w.db, w.db.rows[id].resource, start, end, spaceId).0.PaymentStarted?
    ensures var b := w.db.rows[id];
            var w1 := Exec(w, Step(DoRetry(id, spaceId, b.userId), []));
            var w2 := Exec(w1, Step(DoNothing, [Paying(w1.stripe.intents, p, HOLD_MS + 1)]));
            var w3 := Exec(w2, Step(DoCreate(b.resource, start, end, spaceId, userId), []));
            id in w2.db.rows && id !in w3.db.rows && Charged(id, w3.stripe)
  {
    hide Inv, Evolves, Retry, Create, CreateChecks, Bookable;
    var b := w.db.rows[id];
    var s1 := Step(DoRetry(id, spaceId, b.userId), []);
    BeginKeeps(w, []);
    RetryKeepsTheFirst(Begin(w, []), id, p, spaceId);
    var w1 := Exec(w, s1);
    ExecKeeps(w, s1);
    AmountIsPositive(w, id, p);
    MemberPays(w1, p, HOLD_MS + 1);
    var s2 := Step(DoNothing, [Paying(w1.stripe.intents, p, HOLD_MS + 1)]);
    var w2 := Exec(w1, s2);
    ExecKeeps(w1, s2);
    var s3 := Step(DoCreate(b.resource, start, end, spaceId, userId), []);
    BeginKeeps(w2, []);
    SameChecks(w.db, w2.db, b.resource, start, end, spaceId);
    CreateReleases(Begin(w2, []), b.resource, start, end, spaceId, userId, id, w.stripe.nextIntent);
    ExecKeeps(w2, s3);
    SucceededStays(w2, Exec(w2, s3), p);
    assert Names(Exec(w2, s3).stripe, p, id) by { NamesStay(w2, Exec(w2, s3), p, id); }
  }

  lemma SameChecks(x: Database, y: Database, resource: Resource, start: Time, end: Time, spaceId: Id)
    requires y.zones == x.zones && y.items == x.items && y.spaces == x.spaces
    ensures CreateChecks(y, resource, start, end, spaceId) == CreateChecks(x, resource, start, end, spaceId)
  {
  }

  lemma NamesStay(x: World, y: World, p: Id, id: Id)
    requires Evolves(x, y) && Names(x.stripe, p, id)
    ensures Names(y.stripe, p, id)
  {
    assert IntentStep(x.stripe.intents[p], y.stripe.intents[p]);
  }

  /** One desk in one zone of one space whose manager takes payments, and nothing else. */
  const OPENING: World := World(
    Database(map[], 0, map[0 := Zone(0, true, None)], map[Resource(DESK, 0) := Item(0, Some(1000), None, None)],
             map[0 := Space(None, Some(Manager(true, true)))]),
    Stripe(map[], 0, map[], 0),
    Env(0, CALM, [], false))

  const BOOKED: Step := Step(DoCreate(Resource(DESK, 0), 3600000, 7200000, 0, 7), [])
  const DECLINED: Step := Step(DoWebhook(PaymentFailed(0, Some(0))), [])

  /** The states the runs above start from are reached: after one create there is a live hold with its intent open,
      after one declined payment a declined booking. */
  lemma HoldsAndDeclinesAreReached()
    ensures var held := Exec(OPENING, BOOKED);
            var declined := Exec(held, DECLINED);
            && Reachable(held) && Reachable(declined)
            && TargetLive(held.db, OneItem(Resource(DESK, 0)), 0)
            && 0 in ActiveSet(held.db, 0, OneItem(Resource(DESK, 0)), held.env.now)
            && Hold(held.db.rows[0].status) && held.db.rows[0].intent == Some(0)
            && 0 in held.stripe.intents && !held.stripe.intents[0].status.Canceled?
            && Declined(declined, 0, 0, 0)
  {
    Booked();
    var held := Exec(OPENING, BOOKED);
    AfterTheDecline(held);
    hide Exec, Declined;
    OneStep(OPENING, BOOKED);
    TwoSteps(OPENING, BOOKED, DECLINED);
    assert Initial(OPENING);
  }

  ghost predicate IsBooked(w: World) {
    && w.db == PutRow(OPENING.db, 0, NewBooking(Resource(DESK, 0), 3600000, 7200000, 0, 7, 1000, true, 0)
                                       .(intent := Some(0), platformFeeCents := Some(50))).(nextRow := 1)
    && w.stripe == Stripe(map[0 := Intent(0, 1000, Open, false, true)], 1, map[], 0)
    && w.env == Env(0, CALM, [], false)
  }

  lemma AfterTheDecline(held: World)
    requires IsBooked(held)
    ensures Legal(held, DECLINED) && Declined(Exec(held, DECLINED), 0, 0, 0)
  {
  }

  lemma TwoSteps(w: World, s: Step, t: Step)
    requires Legal(w, s) && Legal(Exec(w, s), t)
    ensures LegalRun(w, [s, t]) && Run(w, [s, t]) == Exec(Exec(w, s), t)
  {
    hide Exec, Legal;
    OneStep(Exec(w, s), t);
    assert [s, t][1..] == [t];
  }

  lemma Booked()
    ensures IsBooked(Exec(OPENING, BOOKED))
  {
    var w := Begin(OPENING, []);
    assert Listing(0, {}) == [];
    assert StaleIds(w.db, Resource(DESK, 0), 0) == [];
    assert AmountCents(Some(1000), None, 3600000, 7200000, None) == Some(1000);
  }
}
