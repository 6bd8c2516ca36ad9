/** What a list request does, in terms of the fields it reads and writes. */
module ListEffects {
  import opened Schema
  import opened StripeCalls
  import opened Bookings
  import opened Protocol
  import opened BookingProofs
  import opened ListAndRetryProofs
  import opened ReachableStripe
  import opened CreateEffects

  predicate Wanted(b: Booking, spaceId: Id, scope: Option<Id>) {
    b.spaceId == spaceId && (scope.Some? ==> b.userId == scope.value)
  }

  lemma WantedAreListed(w: World, spaceId: Id, scope: Option<Id>, id: Id)
    requires Inv(w)
    ensures id in ListedIds(w.db, spaceId, scope) <==> id in w.db.rows && Wanted(w.db.rows[id], spaceId, scope)
  {
    if id in w.db.rows { RowOf(w, id); }
  }

  // ------------------------------------------------------------- decisions

  /** What one look-up decides about a pending booking: a succeeded intent pays it, a cancelled one fails it, an open
      one fails it only with a declined attempt on record; an untried or processing intent, or no answer, leaves it. */
  lemma ResolveDecides(id: Id, i: Intent)
    ensures Resolve(id, Threw).None?
    ensures i.status.Succeeded? ==> Resolve(id, Returned(i)) == Some(Resolution(id, true))
    ensures i.status.Canceled? ==> Resolve(id, Returned(i)) == Some(Resolution(id, false))
    ensures i.status.Open? && i.failedAttempt ==> Resolve(id, Returned(i)) == Some(Resolution(id, false))
    ensures i.status.Open? && !i.failedAttempt ==> Resolve(id, Returned(i)).None?
    ensures i.status.Processing? ==> Resolve(id, Returned(i)).None?
  {
  }

  // --------------------------------------------------- what may have changed

  ghost predicate PaidAt(was: Booking, b: Booking, since: Time, now: Time) {
    && b.paidAt.Some? && since <= b.paidAt.value <= now
    && b == was.(status := PAID, holdExpiresAt := None, paidAt := b.paidAt)
  }

  ghost predicate FailedBehind(was: Booking, b: Booking, s: Stripe) {
    && was.intent.Some? && was.intent.value in s.intents
    && (s.intents[was.intent.value].status.Canceled? || s.intents[was.intent.value].failedAttempt)
    && b == was.(status := FAILED)
  }

  lemma ApplyOneEffect(w: World, r: Resolution, id: Id)
    requires id in w.db.rows
    ensures var v := ApplyResolution(w, r);
            && id in v.db.rows && w.env.now <= v.env.now
            && (v.db.rows[id] == w.db.rows[id]
                || (r.id == id && r.paid && PaidAt(w.db.rows[id], v.db.rows[id], w.env.now, v.env.now))
                || (r.id == id && !r.paid && v.db.rows[id] == w.db.rows[id].(status := FAILED)))
  {
  }

  lemma {:induction false} ApplyEffect(w: World, rs: seq<Resolution>, id: Id)
    requires Inv(w) && AllSound(w, rs) && InOrder(rs) && id in w.db.rows
    ensures var v := ApplyAll(w, rs);
            && id in v.db.rows
            && (v.db.rows[id] == w.db.rows[id]
                || (Resolution(id, true) in rs && PaidAt(w.db.rows[id], v.db.rows[id], w.env.now, v.env.now))
                || (Resolution(id, false) in rs && FailedBehind(w.db.rows[id], v.db.rows[id], v.stripe)))
    decreases rs
  {
    hide RowsOk, LedgerOk, TreeOk, NoOverlap, RowsForward, TreeForward, AttachForward, DatesForward, ApplyResolution;
    if rs != [] {
      var w1 := ApplyResolution(w, rs[0]);
      ApplyOneEffect(w, rs[0], id);
      ApplyOneKeeps(w, rs[0]);
      AllSoundStays(w, w1, rs);
      ApplyAllKeeps(w1, rs[1..]);
      ApplyEffect(w1, rs[1..], id);
      if rs[0].id == id {
        assert forall i | 0 <= i < |rs[1..]| :: rs[1..][i] == rs[i + 1] && rs[i + 1].id != id;
        assert Sound(w, rs[0]);
        var p := w.db.rows[id].intent.value;
        var v := ApplyAll(w1, rs[1..]);
        assert IntentStep(w.stripe.intents[p], w1.stripe.intents[p]) && IntentStep(w1.stripe.intents[p], v.stripe.intents[p]);
      }
    }
  }

  /** A list leaves bookings it does not list alone. A listed one is afterwards gone, and then it was a hold past its
      deadline; or as it was; or PAID, now, without a hold; or, if it was pending, FAILED behind an intent that is
      cancelled or has a declined attempt on record. */
  lemma ListEffect(w: World, spaceId: Id, scope: Option<Id>, id: Id)
    requires Inv(w) && id in w.db.rows
    ensures var v := FindAll(w, spaceId, scope).0;
            var b := w.db.rows[id];
            if id !in v.db.rows then Wanted(b, spaceId, scope) && PastDeadline(b, w.env.now)
            else v.db.rows[id] == b
                 || (Wanted(b, spaceId, scope) && b.status in {PENDING, FAILED} && b.cancelledAt.None?
                     && PaidAt(b, v.db.rows[id], w.env.now, v.env.now))
                 || (Wanted(b, spaceId, scope) && b.status.PENDING? && b.cancelledAt.None? && FailedBehind(b, v.db.rows[id], v.stripe))
  {
    hide RowsOk, LedgerOk, TreeOk, NoOverlap, RowsForward, TreeForward, StripeForward, AttachForward, AllFresh, ExpireStale, LookUpAll,
      ApplyAll, FailedBehind, OwnIntent, RefundRecorded, KeyMatches, Placed, FeeRecorded;
    var ids := ListedIds(w.db, spaceId, scope);
    WantedAreListed(w, spaceId, scope, id);
    var (w1, released) := ExpireStale(w, ids);
    ExpireStaleKeeps(w, ids);
    PendingFresh(w, w1, ids, released);
    var pending := ReconcilableAmong(w.db, ids, released);
    LookUpAllSound(w1, w.db.rows, pending);
    var (w2, rs) := LookUpAll(w1, w.db.rows, pending);
    ApplyAllKeeps(w2, rs);
    if id in w1.db.rows {
      RowOf(w, id);
      RowOf(w1, id);
      ApplyEffect(w2, rs, id);
      assert (Resolution(id, true) in rs || Resolution(id, false) in rs) ==> id in pending;
      var v := ApplyAll(w2, rs);
      RowOf(v, id);
      EvolvesTrans(w1, w2, v);
      PaidAgain(w, w1, v, id);
    }
  }

  /** A row that the release step made PAID may be written PAID once more, never FAILED. */
  lemma PaidAgain(w: World, w1: World, v: World, id: Id)
    requires Inv(w) && Inv(w1) && Inv(v) && Evolves(w, w1) && Evolves(w1, v) && id in w.db.rows && id in w1.db.rows && id in v.db.rows
    ensures PaidInTime(w.db.rows[id], w1.db.rows[id], w1.stripe) && !Money(w.db.rows[id].status) ==>
              PaidAt(w.db.rows[id], w1.db.rows[id], w.env.now, w1.env.now)
    ensures FailedBehind(w1.db.rows[id], v.db.rows[id], v.stripe) ==> !Money(w1.db.rows[id].status)
  {
    hide RowsOk, LedgerOk, TreeOk, NoOverlap, TreeForward, StripeForward, AttachForward;
    assert Dated(w.db.rows[id], w1.db.rows[id], w.env.now, w1.env.now);
    StepOf(w1, v, id);
  }

  /** The answer: exactly the wanted bookings that are still there, in order; of a member's list only the member's. */
  lemma ListAnswers(w: World, spaceId: Id, scope: Option<Id>)
    requires Inv(w) && !FindAll(w, spaceId, scope).0.env.halted
    ensures var (v, a) := FindAll(w, spaceId, scope);
            && a.Listed? && Ascending(a.ids)
            && forall id :: id in a.ids <==> id in w.db.rows && id in v.db.rows && Wanted(w.db.rows[id], spaceId, scope)
  {
    hide RowsOk, LedgerOk, TreeOk, NoOverlap, RowsForward, TreeForward, StripeForward, AttachForward, DatesForward, AllFresh, ExpireStale,
      Reconcile;
    var ids := ListedIds(w.db, spaceId, scope);
    var (w1, released) := ExpireStale(w, ids);
    ExpireStaleKeeps(w, ids);
    PendingFresh(w, w1, ids, released);
    var pending := ReconcilableAmong(w.db, ids, released);
    ReconcileKeeps(w1, w.db.rows, pending);
    if !w1.env.halted { ReleasedAreGone(w, ids); } else { ReconcileHalted(w1, w.db.rows, pending); }
    forall id ensures id in ids <==> id in w.db.rows && Wanted(w.db.rows[id], spaceId, scope) {
      WantedAreListed(w, spaceId, scope, id);
    }
  }

  lemma ReleasedAreGone(w: World, ids: seq<Id>)
    requires Inv(w) && Ascending(ids) && !ExpireStale(w, ids).0.env.halted
    ensures var (v, released) := ExpireStale(w, ids); v.db.rows.Keys == w.db.rows.Keys - released
  {
    hide RowsOk, LedgerOk, TreeOk, NoOverlap, RowsForward, TreeForward, StripeForward, AttachForward, DatesForward, Release;
    var expired := ExpiredAmong(w.db, ids, w.env.now);
    if expired != [] {
      HoldRefsOk(w, expired);
      ReleaseSafe(w, HoldRefs(w.db.rows, expired));
    }
  }

  lemma {:induction false} LookUpHalted(w: World, rows: map<Id, Booking>, ids: seq<Id>)
    requires w.env.halted && forall i | 0 <= i < |ids| :: ids[i] in rows && rows[ids[i]].intent.Some?
    ensures LookUpAll(w, rows, ids).0.env.halted
    decreases ids
  {
    if ids != [] { LookUpHalted(ApiRetrieve(w, rows[ids[0]].intent.value).0, rows, ids[1..]); }
  }

  lemma {:induction false} ApplyHalted(w: World, rs: seq<Resolution>)
    requires w.env.halted
    ensures ApplyAll(w, rs).env.halted
    decreases rs
  {
    if rs != [] { ApplyHalted(ApplyResolution(w, rs[0]), rs[1..]); }
  }

  lemma ReconcileHalted(w: World, rows: map<Id, Booking>, ids: seq<Id>)
    requires w.env.halted && forall i | 0 <= i < |ids| :: ids[i] in rows && rows[ids[i]].intent.Some?
    ensures Reconcile(w, rows, ids).env.halted
  {
    LookUpHalted(w, rows, ids);
    var (w1, rs) := LookUpAll(w, rows, ids);
    ApplyHalted(w1, rs);
  }

  /** With Stripe reachable, every listed hold past its deadline is gone or PAID. */
  lemma ListClearsTheWay(w: World, spaceId: Id, scope: Option<Id>, id: Id)
    requires Inv(w) && ClearSkies(w) && id in w.db.rows
    requires Wanted(w.db.rows[id], spaceId, scope) && PastDeadline(w.db.rows[id], w.env.now)
    ensures var v := FindAll(w, spaceId, scope).0; id !in v.db.rows || Money(v.db.rows[id].status)
  {
    hide RowsOk, LedgerOk, TreeOk, NoOverlap, TreeForward, StripeForward, AttachForward, DatesForward, AllFresh, Release, Reconcile;
    var ids := ListedIds(w.db, spaceId, scope);
    WantedAreListed(w, spaceId, scope, id);
    var (w1, released) := ExpireStale(w, ids);
    ExpireStaleKeeps(w, ids);
    PendingFresh(w, w1, ids, released);
    var pending := ReconcilableAmong(w.db, ids, released);
    ReconcileKeeps(w1, w.db.rows, pending);
    var expired := ExpiredAmong(w.db, ids, w.env.now);
    assert id in expired;
    HoldRefsOk(w, expired);
    HoldRefsIds(w.db.rows, expired);
    var refs := HoldRefs(w.db.rows, expired);
    ReleaseAnswers(w, refs);
    assert id in Ids(refs);
    if id in w1.db.rows { PaidStays(w1, Reconcile(w1, w.db.rows, pending), id); }
  }

  // ------------------------------------------------------- a quiet outside

  /** Nothing happens outside and every call goes through. */
  ghost predicate Calm(w: World) { !w.env.halted && w.env.future == [] }

  lemma CalmTurn(w: World)
    requires Calm(w)
    ensures var t := Turn(w); Calm(t) && t.db == w.db && t.stripe == w.stripe && t.env.now == w.env.now && t.env.sky == CALM
  {
  }

  /** Releasing other holds moves neither this row nor its intent. */
  lemma {:induction false} LoopSpares(w: World, todo: seq<HoldRef>, released: set<Id>, id: Id, p: Id)
    requires Calm(w) && id in w.db.rows && p in w.stripe.intents
    requires forall i | 0 <= i < |todo| :: todo[i].id != id && todo[i].intent != Some(p)
    ensures var v := ReleaseLoop(w, todo, released).0;
            && Calm(v) && v.env.now == w.env.now && id in v.db.rows && v.db.rows[id] == w.db.rows[id]
            && p in v.stripe.intents && v.stripe.intents[p] == w.stripe.intents[p]
    decreases todo
  {
    hide ReleaseLoop, Gives, Round;
    if todo == [] {
      LoopIsDone(w, released);
    } else {
      LoopSplit(w, todo, released);
      RoundSpares(w, todo[0], id, p);
      LoopSpares(Round(w, todo[0]), todo[1..], if Gives(w, todo[0]) then released + {todo[0].id} else released, id, p);
    }
  }

  lemma LoopIsDone(w: World, released: set<Id>)
    ensures ReleaseLoop(w, [], released) == (w, released)
  {
  }

  lemma RoundSpares(w: World, h: HoldRef, id: Id, p: Id)
    requires Calm(w) && id in w.db.rows && p in w.stripe.intents && h.id != id && h.intent != Some(p)
    ensures var v := Round(w, h);
            && Calm(v) && v.env.now == w.env.now && id in v.db.rows && v.db.rows[id] == w.db.rows[id]
            && p in v.stripe.intents && v.stripe.intents[p] == w.stripe.intents[p]
  {
    hide Turn;
    CalmTurn(w);
    if h.intent.Some? {
      var w1 := ApiCancel(w, h.intent.value).0;
      assert Calm(w1);
      CalmTurn(w1);
      CalmTurn(CancelIntent(w, h.intent.value).0);
    }
  }

  lemma ExpirySpares(w: World, ids: seq<Id>, id: Id, p: Id)
    requires Inv(w) && Calm(w) && Ascending(ids) && id in w.db.rows && w.db.rows[id].intent == Some(p)
    requires !PastDeadline(w.db.rows[id], w.env.now)
    ensures var (v, released) := ExpireStale(w, ids);
            && Calm(v) && v.env.now == w.env.now && id in v.db.rows && v.db.rows[id] == w.db.rows[id] && id !in released
            && p in w.stripe.intents && p in v.stripe.intents && v.stripe.intents[p] == w.stripe.intents[p]
  {
    hide RowsOk, LedgerOk, TreeOk, NoOverlap, RowsForward, TreeForward, StripeForward, AttachForward, DatesForward, ReleaseLoop;
    RowOf(w, id);
    var expired := ExpiredAmong(w.db, ids, w.env.now);
    if expired != [] {
      var refs := HoldRefs(w.db.rows, expired);
      HoldRefsOk(w, expired);
      HoldRefsIds(w.db.rows, expired);
      forall i | 0 <= i < |refs| ensures refs[i].id != id && refs[i].intent != Some(p) { RowOf(w, expired[i]); }
      assert id !in Ids(refs);
      LoopBounds(w, refs, {});
      LoopSpares(w, refs, {}, id, p);
      CalmTurn(ReleaseLoop(w, refs, {}).0);
    }
  }

  /** The look-ups move nothing, and decide each booking by its intent as it stands. */
  lemma {:induction false} CalmLookUps(w: World, rows: map<Id, Booking>, ids: seq<Id>, id: Id)
    requires Calm(w) && forall i | 0 <= i < |ids| :: ids[i] in rows && rows[ids[i]].intent.Some? && rows[ids[i]].intent.value in w.stripe.intents
    ensures var (v, rs) := LookUpAll(w, rows, ids);
            && Calm(v) && v.db == w.db && v.stripe == w.stripe && v.env.now == w.env.now
            && (forall paid :: Resolution(id, paid) in rs <==>
                  id in ids && Resolve(id, Returned(w.stripe.intents[rows[id].intent.value])) == Some(Resolution(id, paid)))
    decreases ids
  {
    hide Turn;
    if ids != [] {
      CalmTurn(w);
      var (w1, look) := ApiRetrieve(w, rows[ids[0]].intent.value);
      assert look == Returned(w.stripe.intents[rows[ids[0]].intent.value]);
      CalmLookUps(w1, rows, ids[1..], id);
    }
  }

  lemma {:induction false} CalmApply(w: World, rs: seq<Resolution>, id: Id)
    requires Calm(w) && InOrder(rs) && id in w.db.rows && forall i | 0 <= i < |rs| :: rs[i].id in w.db.rows
    ensures var v := ApplyAll(w, rs);
            && id in v.db.rows
            && v.db.rows[id] == if Resolution(id, true) in rs then
                                  w.db.rows[id].(status := PAID, holdExpiresAt := None, paidAt := Some(w.env.now))
                                else if Resolution(id, false) in rs then w.db.rows[id].(status := FAILED)
                                else w.db.rows[id]
    decreases rs
  {
    hide Turn;
    if rs != [] {
      CalmTurn(w);
      var w1 := ApplyResolution(w, rs[0]);
      assert forall i | 0 <= i < |rs[1..]| :: rs[1..][i] == rs[i + 1] && rs[0].id < rs[i + 1].id;
      CalmApply(w1, rs[1..], id);
    }
  }

  /** With a quiet outside a list decides every live pending booking it lists by its intent: succeeded makes it PAID
      now, cancelled or open with a declined attempt makes it FAILED, untried or processing leaves it as it is. */
  lemma ListDecides(w: World, spaceId: Id, scope: Option<Id>, id: Id)
    requires Inv(w) && Calm(w) && id in w.db.rows && Wanted(w.db.rows[id], spaceId, scope)
    requires w.db.rows[id].status.PENDING? && w.db.rows[id].cancelledAt.None? && w.db.rows[id].intent.Some?
    requires !PastDeadline(w.db.rows[id], w.env.now)
    ensures var v, b := FindAll(w, spaceId, scope).0, w.db.rows[id];
            b.intent.value in w.stripe.intents && id in v.db.rows
            && var i := w.stripe.intents[b.intent.value];
               v.db.rows[id] ==
                 if i.status.Succeeded? then b.(status := PAID, holdExpiresAt := None, paidAt := Some(w.env.now))
                 else if i.status.Canceled? || (i.status.Open? && i.failedAttempt) then b.(status := FAILED)
                 else b
  {
    hide RowsOk, LedgerOk, TreeOk, NoOverlap, RowsForward, TreeForward, StripeForward, AttachForward, DatesForward, ExpireStale, LookUpAll,
      ApplyAll;
    var p := w.db.rows[id].intent.value;
    var ids := ListedIds(w.db, spaceId, scope);
    WantedAreListed(w, spaceId, scope, id);
    ExpirySpares(w, ids, id, p);
    var (w1, released) := ExpireStale(w, ids);
    ExpireStaleKeeps(w, ids);
    PendingFresh(w, w1, ids, released);
    var pending := ReconcilableAmong(w.db, ids, released);
    forall i | 0 <= i < |pending| ensures w.db.rows[pending[i]].intent.value in w1.stripe.intents {
      RowOf(w, pending[i]);
      IntentStays(w, w1, w.db.rows[pending[i]].intent.value);
    }
    CalmLookUps(w1, w.db.rows, pending, id);
    LookUpAllSound(w1, w.db.rows, pending);
    var (w2, rs) := LookUpAll(w1, w.db.rows, pending);
    CalmApply(w2, rs, id);
    ResolveDecides(id, w.stripe.intents[p]);
  }

  lemma IntentStays(x: World, y: World, p: Id)
    requires Evolves(x, y) && p in x.stripe.intents
    ensures p in y.stripe.intents
  {
  }
}
