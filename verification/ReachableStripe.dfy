/** What the handlers achieve when every call goes through: no hold blocks a slot for ever, a missed payment
    is found by the next listing, a delete settles what it cancels, and an owed refund is paid by one retry. */
module ReachableStripe {
  import opened Schema
  import opened StripeCalls
  import opened Bookings
  import opened Deletion
  import opened Protocol
  import opened BookingProofs
  import opened ListAndRetryProofs
  import DP = DeletionProofs
  import RP = RemoveProofs

  ghost predicate ClearSkies(w: World) {
    !w.env.halted && forall i | 0 <= i < |w.env.future| :: w.env.future[i].fault.Fine?
  }

  lemma TurnClear(w: World)
    requires ClearSkies(w)
    ensures ClearSkies(Turn(w)) && Turn(w).env.sky.fault.Fine?
  {
  }

  /** A cancel either cancels or finds the intent already terminal. */
  lemma CancelAnswers(w: World, p: Id)
    requires ClearSkies(w) && p in w.stripe.intents
    ensures ClearSkies(CancelIntent(w, p).0) && CancelIntent(w, p).1.Returned?
  {
    TurnClear(w);
    var w1 := ApiCancel(w, p).0;
    TurnClear(w1);
    assert IntentsGrow(w.stripe.intents, Turn(w).stripe.intents);
    assert IntentsGrow(w1.stripe.intents, Turn(w1).stripe.intents);
  }

  ghost predicate GoneOrPaid(v: World, rel: set<Id>, id: Id) {
    id in rel || (id in v.db.rows && v.db.rows[id].status.PAID?)
  }

  ghost predicate AllGoneOrPaid(v: World, rel: set<Id>, todo: seq<HoldRef>) {
    forall i | 0 <= i < |todo| :: GoneOrPaid(v, rel, todo[i].id)
  }

  lemma RoundAnswers(w: World, h: HoldRef)
    requires Inv(w) && ClearSkies(w) && RefOk(w.db, h) && h.intent.Some?
    ensures var (w1, out) := CancelIntent(w, h.intent.value);
            var v := if out.Returned? && out.value.WasSucceeded? then MarkLastSecondPaid(w1, h.id) else w1;
            ClearSkies(v) && out.Returned?
  {
    hide LedgerOk, TreeOk, NoOverlap;
    RowOf(w, h.id);
    CancelAnswers(w, h.intent.value);
    TurnClear(CancelIntent(w, h.intent.value).0);
  }

  lemma {:induction false} ReleaseLoopAnswers(w: World, todo: seq<HoldRef>, released: set<Id>)
    requires Inv(w) && ClearSkies(w) && Distinct(todo) && AllFreeable(w, released) && released !! Ids(todo)
    requires forall i | 0 <= i < |todo| :: RefOk(w.db, todo[i])
    ensures var (v, rel) := ReleaseLoop(w, todo, released);
            ClearSkies(v) && AllGoneOrPaid(v, rel, todo)
    decreases todo
  {
    hide RowsOk, LedgerOk, TreeOk, NoOverlap, RowsForward, TreeForward, Freeable, PaidInTime, AttachForward,
      DatesForward;
    if todo != [] {
      var h, rest := todo[0], todo[1..];
      Tail(todo);
      assert forall i | 0 <= i < |rest| :: RefOk(w.db, rest[i]);
      ReleaseLoopKeeps(w, todo, released);
      var (v, rel) := ReleaseLoop(w, todo, released);
      if h.intent.None? {
        assert AllFreeable(w, released + {h.id}) by { OneMoreFreeable(w, released, h); }
        ReleaseLoopAnswers(w, rest, released + {h.id});
        ReleaseLoopKeeps(w, rest, released + {h.id});
      } else {
        ReleaseRound(w, h);
        RoundAnswers(w, h);
        var (w1, out) := CancelIntent(w, h.intent.value);
        var u := if out.value.WasSucceeded? then MarkLastSecondPaid(w1, h.id) else w1;
        var freed := if out.value.WasSucceeded? then released else released + {h.id};
        FreeableStays(w, u, released);
        RefsStay(w, u, h, rest);
        ReleaseLoopAnswers(u, rest, freed);
        ReleaseLoopKeeps(u, rest, freed);
        assert ReleaseLoop(u, rest, freed) == (v, rel);
        assert GoneOrPaid(v, rel, h.id);
      }
      AllCons(v, rel, todo);
    }
  }

  lemma OneMoreFreeable(w: World, released: set<Id>, h: HoldRef)
    requires AllFreeable(w, released) && RefOk(w.db, h) && h.intent.None?
    ensures AllFreeable(w, released + {h.id})
  {
  }

  lemma AllCons(v: World, rel: set<Id>, todo: seq<HoldRef>)
    requires todo != [] && GoneOrPaid(v, rel, todo[0].id) && AllGoneOrPaid(v, rel, todo[1..])
    ensures AllGoneOrPaid(v, rel, todo)
  {
    forall i | 0 <= i < |todo| ensures GoneOrPaid(v, rel, todo[i].id) {
      if i > 0 { assert todo[1..][i - 1] == todo[i]; }
    }
  }

  lemma ReleaseAnswers(w: World, todo: seq<HoldRef>)
    requires Inv(w) && ClearSkies(w) && Distinct(todo)
    requires forall i | 0 <= i < |todo| :: RefOk(w.db, todo[i])
    ensures var v := Release(w, todo).0;
            && ClearSkies(v)
            && forall i | 0 <= i < |todo| :: todo[i].id !in v.db.rows || v.db.rows[todo[i].id].status.PAID?
  {
    hide RowsOk, LedgerOk, TreeOk, NoOverlap, RowsForward, TreeForward, Freeable, PaidInTime, AttachForward,
      DatesForward;
    ReleaseLoopAnswers(w, todo, {});
    var (w1, rel) := ReleaseLoop(w, todo, {});
    TurnClear(w1);
    assert AllGoneOrPaid(w1, rel, todo);
  }

  /** Holds cannot block for ever: a create that gets past its checks leaves every lapsed hold of that resource
      deleted or, if its payment had come through, PAID. */
  lemma CreateClearsTheWay(w: World, resource: Resource, start: Time, end: Time, spaceId: Id, userId: Id, id: Id)
    requires Inv(w) && ClearSkies(w) && CreateChecks(w.db, resource, start, end, spaceId).0.PaymentStarted?
    requires id in w.db.rows && w.db.rows[id].resource == resource && Expired(w.db.rows[id], w.env.now)
    ensures var v := Create(w, resource, start, end, spaceId, userId).0;
            id !in v.db.rows || v.db.rows[id].status.PAID?
  {
    hide RowsOk, LedgerOk, TreeOk, NoOverlap, RowsForward, TreeForward, StripeForward, Freeable, PaidInTime,
      AttachForward, DatesForward;
    var stale := StaleIds(w.db, resource, w.env.now);
    RowOf(w, id);
    assert id in stale;
    HoldRefsOk(w, stale);
    HoldRefsIds(w.db.rows, stale);
    var refs := HoldRefs(w.db.rows, stale);
    ReleaseAnswers(w, refs);
    ClearStaleKeeps(w, resource);
    var w1 := ClearStale(w, resource);
    assert id in Ids(refs);
    var (_, amount, paid) := CreateChecks(w.db, resource, start, end, spaceId);
    NextIsNew(w1);
    assert w1.db.nextRow != id;
    BookFrame(w1, resource, start, end, spaceId, userId, amount, paid);
  }

  // -------------------------------------------------- self-healing listings

  lemma {:induction false} LookUpFinds(w: World, rows: map<Id, Booking>, ids: seq<Id>, id: Id)
    requires ClearSkies(w) && id in ids
    requires forall i | 0 <= i < |ids| :: ids[i] in rows && rows[ids[i]].intent.Some?
    requires rows[id].intent.value in w.stripe.intents && w.stripe.intents[rows[id].intent.value].status.Succeeded?
    ensures var (v, rs) := LookUpAll(w, rows, ids); ClearSkies(v) && Resolution(id, true) in rs
    decreases ids
  {
    TurnClear(w);
    var (w1, look) := ApiRetrieve(w, rows[ids[0]].intent.value);
    var p := rows[id].intent.value;
    assert IntentsGrow(w.stripe.intents, w1.stripe.intents);
    assert IntentStep(w.stripe.intents[p], w1.stripe.intents[p]);
    if id in ids[1..] {
      LookUpFinds(w1, rows, ids[1..], id);
    } else {
      assert ids[0] == id;
      LookUpStaysClear(w1, rows, ids[1..]);
    }
  }

  lemma {:induction false} LookUpStaysClear(w: World, rows: map<Id, Booking>, ids: seq<Id>)
    requires ClearSkies(w) && forall i | 0 <= i < |ids| :: ids[i] in rows && rows[ids[i]].intent.Some?
    ensures ClearSkies(LookUpAll(w, rows, ids).0)
    decreases ids
  {
    if ids != [] {
      TurnClear(w);
      LookUpStaysClear(ApiRetrieve(w, rows[ids[0]].intent.value).0, rows, ids[1..]);
    }
  }

  lemma {:induction false} ApplyMarks(w: World, rs: seq<Resolution>, id: Id)
    requires Inv(w) && ClearSkies(w) && AllSound(w, rs) && InOrder(rs) && Resolution(id, true) in rs
    ensures var v := ApplyAll(w, rs); id in v.db.rows && Money(v.db.rows[id].status)
    decreases rs
  {
    hide RowsOk, LedgerOk, TreeOk, NoOverlap, TreeForward, StripeForward;
    TurnClear(w);
    var w1 := ApplyResolution(w, rs[0]);
    ApplyOneKeeps(w, rs[0]);
    AllSoundStays(w, w1, rs);
    ApplyAllKeeps(w1, rs[1..]);
    if Resolution(id, true) in rs[1..] {
      ApplyMarks(w1, rs[1..], id);
    } else {
      assert rs[0] == Resolution(id, true);
      assert w1.db.rows[id].status.PAID?;
      assert RowStep(w1.db.rows[id], ApplyAll(w1, rs[1..]).db.rows[id]);
    }
  }

  lemma ReconcileHeals(w: World, rows: map<Id, Booking>, pending: seq<Id>, id: Id)
    requires Inv(w) && ClearSkies(w) && Ascending(pending) && AllFresh(w, rows, pending) && id in pending
    requires rows[id].intent.value in w.stripe.intents && w.stripe.intents[rows[id].intent.value].status.Succeeded?
    ensures var v := Reconcile(w, rows, pending); id in v.db.rows && Money(v.db.rows[id].status)
  {
    hide RowsOk, LedgerOk, TreeOk, NoOverlap, TreeForward, RowsForward, AttachForward, DatesForward;
    LookUpFinds(w, rows, pending, id);
    LookUpAllSound(w, rows, pending);
    var (w1, rs) := LookUpAll(w, rows, pending);
    ApplyMarks(w1, rs, id);
  }

  /** A hold whose charge has succeeded survives the release step, PAID or ready to be reconciled. */
  lemma ExpirySpares(w: World, ids: seq<Id>, id: Id)
    requires Inv(w) && ClearSkies(w) && Ascending(ids) && id in ids && id in w.db.rows && Reconcilable(w.db.rows[id])
    requires w.db.rows[id].intent.value in w.stripe.intents
    requires w.stripe.intents[w.db.rows[id].intent.value].status.Succeeded?
    ensures var (w1, released) := ExpireStale(w, ids);
            && ClearSkies(w1) && id in w1.db.rows
            && w.db.rows[id].intent.value in w1.stripe.intents
            && w1.stripe.intents[w.db.rows[id].intent.value].status.Succeeded?
            && (w1.db.rows[id].status.PAID? || id in ReconcilableAmong(w.db, ids, released))
  {
    hide RowsOk, LedgerOk, TreeOk, NoOverlap, TreeForward, RowsForward, ClearSkies, AttachForward, DatesForward;
    var b := w.db.rows[id];
    var w1 := ExpireStale(w, ids).0;
    ExpireStaleKeeps(w, ids);
    ExpireAnswers(w, ids);
    assert IntentStep(w.stripe.intents[b.intent.value], w1.stripe.intents[b.intent.value]);
    assert id in w1.db.rows || Freeable(b, w1.stripe);
    NotReleased(w, ids, id);
  }

  /** Self-healing: a pending booking whose charge has succeeded, webhook or no webhook, is collected by the
      next listing that includes it, expired hold or not. */
  lemma ListHeals(w: World, spaceId: Id, scope: Option<Id>, id: Id)
    requires Inv(w) && ClearSkies(w) && id in ListedIds(w.db, spaceId, scope) && Reconcilable(w.db.rows[id])
    requires w.db.rows[id].intent.value in w.stripe.intents
    requires w.stripe.intents[w.db.rows[id].intent.value].status.Succeeded?
    ensures var v := FindAll(w, spaceId, scope).0; id in v.db.rows && Money(v.db.rows[id].status)
  {
    hide Inv, RowStep, TreeForward, RowsForward, StripeForward, ClearSkies, AllFresh, AttachForward, DatesForward;
    var ids := ListedIds(w.db, spaceId, scope);
    ExpireStaleKeeps(w, ids);
    ExpirySpares(w, ids, id);
    var (w1, released) := ExpireStale(w, ids);
    PendingFresh(w, w1, ids, released);
    var pending := ReconcilableAmong(w.db, ids, released);
    ReconcileKeeps(w1, w.db.rows, pending);
    if w1.db.rows[id].status.PAID? {
      PaidStays(w1, Reconcile(w1, w.db.rows, pending), id);
    } else {
      ReconcileHeals(w1, w.db.rows, pending, id);
    }
  }

  lemma PaidStays(x: World, y: World, id: Id)
    requires Evolves(x, y) && id in x.db.rows && Money(x.db.rows[id].status)
    ensures id in y.db.rows && Money(y.db.rows[id].status)
  {
  }

  lemma ExpireAnswers(w: World, ids: seq<Id>)
    requires Inv(w) && ClearSkies(w) && Ascending(ids)
    ensures ClearSkies(ExpireStale(w, ids).0)
  {
    var expired := ExpiredAmong(w.db, ids, w.env.now);
    if expired != [] {
      HoldRefsOk(w, expired);
      ReleaseAnswers(w, HoldRefs(w.db.rows, expired));
    }
  }

  lemma NotReleased(w: World, ids: seq<Id>, id: Id)
    requires Inv(w) && ClearSkies(w) && Ascending(ids) && id in w.db.rows
    requires id in ExpireStale(w, ids).0.db.rows
    ensures id !in ExpireStale(w, ids).1
  {
    var expired := ExpiredAmong(w.db, ids, w.env.now);
    if expired != [] {
      HoldRefsOk(w, expired);
      ReleaseSafe(w, HoldRefs(w.db.rows, expired));
      ReleaseAnswers(w, HoldRefs(w.db.rows, expired));
    }
  }

  /** One retry pays an owed refund, unless the answer kept under its key, or the one it gets now, is a refusal. */
  lemma RetryPays(w: World, id: Id, spaceId: Id)
    requires Inv(w) && ClearSkies(w) && AwaitsRefund(w.db, id, spaceId)
    ensures var status := if id in w.stripe.refunds then w.stripe.refunds[id].status else Turn(w).env.sky.refundStatus;
            var (v, a) := RetryRefund(w, id, spaceId);
            && a == Some(!status.RefundDeclined?)
            && v.db.rows[id].status == if status.RefundDeclined? then REFUND_FAILED else REFUNDED
  {
    hide LedgerOk, TreeOk, NoOverlap, RowsForward, TreeForward, AttachForward, DatesForward;
    RowOf(w, id);
    var p := w.db.rows[id].intent.value;
    TurnClear(w);
    assert IntentsGrow(w.stripe.intents, Turn(w).stripe.intents);
    assert IntentStep(w.stripe.intents[p], Turn(w).stripe.intents[p]);
    var (w1, answer) := RefundIntent(w, p, id);
    TurnClear(w1);
    DP.RefundOneFrame(w, id, p);
  }

  // ------------------------------------------------------ a settled delete

  /** How a cancelled booking ends: refunded, known to be owed, or impossible to charge through its intent. */
  ghost predicate Ended(b: Booking, s: Stripe) {
    && b.cancelledAt.Some?
    && (b.status.REFUNDED? || b.status.REFUND_FAILED?
        || (!Money(b.status) && (b.intent.Some? ==> b.intent.value in s.intents && s.intents[b.intent.value].status.Canceled?)))
  }

  lemma RefundStaysClear(w: World, id: Id, p: Id)
    requires ClearSkies(w)
    ensures ClearSkies(RefundOne(w, id, p).0)
  {
    TurnClear(w);
    TurnClear(RefundIntent(w, p, id).0);
  }

  lemma ReleaseStaysClear(w: World, id: Id, p: Id)
    requires ClearSkies(w) && p in w.stripe.intents
    ensures ClearSkies(ReleasePending(w, id, p))
  {
    hide CancelIntent, RefundOne, Turn, ClearSkies;
    CancelAnswers(w, p);
    var w1 := CancelIntent(w, p).0;
    MarksStayClear(w1, id);
    RefundStaysClear(MarkLatePaid(w1, id), id, p);
  }

  lemma MarksStayClear(w: World, id: Id)
    requires ClearSkies(w)
    ensures ClearSkies(MarkLatePaid(w, id)) && ClearSkies(MarkReleased(w, id))
  {
    TurnClear(w);
  }

  lemma SettleOneEnds(w: World, was: Booking, id: Id, acc: Refunds)
    requires Inv(w) && ClearSkies(w) && DP.ToSettle(w, was, id)
    ensures var v := SettleOne(w, was, id, acc).0;
            ClearSkies(v) && id in v.db.rows && Ended(v.db.rows[id], v.stripe)
  {
    hide RowsOk, LedgerOk, TreeOk, NoOverlap, TreeForward, RowsForward, StripeForward, RefundOne, ReleasePending,
      CancelIntent, AttachForward, DatesForward;
    RowOf(w, id);
    var v := SettleOne(w, was, id, acc).0;
    DP.SettleOneKeeps(w, was, id, acc);
    if was.status.PAID? && was.intent.Some? {
      DP.RefundOneFrame(w, id, was.intent.value);
      RefundStaysClear(w, id, was.intent.value);
    } else if Hold(was.status) && was.intent.Some? {
      DP.ReleasePendingKeeps(w, id, was.intent.value);
      CancelAnswers(w, was.intent.value);
      ReleaseStaysClear(w, id, was.intent.value);
    }
    CancelledStays(w, v, id);
  }

  lemma CancelledStays(x: World, y: World, id: Id)
    requires Evolves(x, y) && id in x.db.rows && id in y.db.rows && x.db.rows[id].cancelledAt.Some?
    ensures y.db.rows[id].cancelledAt.Some?
  {
  }

  lemma EndedStays(x: World, y: World, id: Id)
    requires StripeForward(x.stripe, y.stripe) && id in x.db.rows && Ended(x.db.rows[id], x.stripe)
    requires id in y.db.rows && y.db.rows[id] == x.db.rows[id]
    ensures Ended(y.db.rows[id], y.stripe)
  {
    var b := x.db.rows[id];
    if b.intent.Some? && b.intent.value in x.stripe.intents {
      assert IntentStep(x.stripe.intents[b.intent.value], y.stripe.intents[b.intent.value]);
    }
  }

  ghost predicate AllEnded(v: World, ids: seq<Id>) {
    forall i | 0 <= i < |ids| :: ids[i] in v.db.rows && Ended(v.db.rows[ids[i]], v.stripe)
  }

  lemma AllEndedCons(v: World, ids: seq<Id>)
    requires ids != [] && ids[0] in v.db.rows && Ended(v.db.rows[ids[0]], v.stripe) && AllEnded(v, ids[1..])
    ensures AllEnded(v, ids)
  {
    forall i | 0 <= i < |ids| ensures ids[i] in v.db.rows && Ended(v.db.rows[ids[i]], v.stripe) {
      if i > 0 { assert ids[1..][i - 1] == ids[i]; }
    }
  }

  lemma {:induction false} SettleEnds(w: World, was: map<Id, Booking>, ids: seq<Id>, acc: Refunds)
    requires Inv(w) && ClearSkies(w) && Ascending(ids) && DP.AllToSettle(w, was, ids)
    ensures var v := Settle(w, was, ids, acc).0; ClearSkies(v) && AllEnded(v, ids)
    decreases ids
  {
    hide RowsOk, LedgerOk, TreeOk, NoOverlap, TreeForward, RowsForward, ClearSkies, SettleOne, Ended, StripeForward,
      AttachForward, DatesForward;
    if ids != [] {
      var (w1, acc1) := SettleOne(w, was[ids[0]], ids[0], acc);
      SettleOneEnds(w, was[ids[0]], ids[0], acc);
      DP.SettleOneKeeps(w, was[ids[0]], ids[0], acc);
      DP.AllToSettleStays(w, w1, was, ids);
      SettleEnds(w1, was, ids[1..], acc1);
      DP.SettleKeeps(w1, was, ids[1..], acc1);
      var v := Settle(w1, was, ids[1..], acc1).0;
      assert ids[0] !in ids[1..];
      EndedStays(w1, v, ids[0]);
      AllEndedCons(v, ids);
    }
  }

  /** With Stripe reachable a confirmed delete finishes its money: every booking it cancelled ends refunded, with a
      refund on record as failed, or behind an intent that is cancelled for ever. */
  lemma RemoveSettles(w: World, target: Target, spaceId: Id)
    requires Inv(w) && ClearSkies(w) && TargetLive(w.db, target, spaceId)
    ensures var (v, out) := Remove(w, target, spaceId, true);
            && out.Deleted?
            && forall id | id in ActiveSet(w.db, spaceId, target, w.env.now) ::
                 id in v.db.rows && Ended(v.db.rows[id], v.stripe)
  {
    hide RowsOk, LedgerOk, NoOverlap, TreeForward, RowsForward, StripeForward, Ended, Settle, RemoveTx, TargetLive,
      Active, AttachForward, DatesForward;
    TurnKeeps(w);
    TurnClear(w);
    var now, t := w.env.now, Turn(w);
    var active := ActiveIds(t.db, spaceId, target, now);
    var u := t.(db := RemoveTx(t.db, target, spaceId, now));
    DP.RemoveTxKeeps(t, target, spaceId, now);
    RP.ReadyToSettle(t, target, spaceId, now);
    SettleEnds(u, t.db.rows, active, Refunds(0, 0, 0));
    forall id | id in ActiveSet(w.db, spaceId, target, now) ensures id in active { RowOf(w, id); }
  }
}
