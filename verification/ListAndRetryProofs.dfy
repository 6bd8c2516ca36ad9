/** Listing with reconciliation, payment retry, and what happens when Stripe can be reached. */
module ListAndRetryProofs {
  import opened Schema
  import opened StripeCalls
  import opened Bookings
  import opened Protocol
  import opened BookingProofs

  // ------------------------------------------------------------------ list

  /** The row behind an in-memory copy: as it was read, or paid by the release step since. */
  ghost predicate Fresh(was: Booking, w: World, id: Id) {
    && Reconcilable(was) && id in w.db.rows
    && (w.db.rows[id] == was || PaidInTime(was, w.db.rows[id], w.stripe))
  }

  /** A resolution may be written without a guard: PAID only over a succeeded intent, FAILED only over a hold whose
      intent is cancelled or has a declined attempt on record. */
  ghost predicate Sound(w: World, r: Resolution) {
    && r.id in w.db.rows && w.db.rows[r.id].cancelledAt.None?
    && w.db.rows[r.id].intent.Some? && w.db.rows[r.id].intent.value in w.stripe.intents
    && (r.paid ==> w.stripe.intents[w.db.rows[r.id].intent.value].status.Succeeded?
                   && (Hold(w.db.rows[r.id].status) || w.db.rows[r.id].status.PAID?))
    && (!r.paid ==>
          && Hold(w.db.rows[r.id].status)
          && (w.stripe.intents[w.db.rows[r.id].intent.value].status.Canceled?
              || w.stripe.intents[w.db.rows[r.id].intent.value].failedAttempt))
  }

  ghost predicate AllSound(w: World, rs: seq<Resolution>) { forall i | 0 <= i < |rs| :: Sound(w, rs[i]) }

  ghost predicate InOrder(rs: seq<Resolution>) { forall i, j | 0 <= i < j < |rs| :: rs[i].id < rs[j].id }

  lemma SoundStays(w: World, v: World, r: Resolution)
    requires Sound(w, r) && r.id in v.db.rows && v.db.rows[r.id] == w.db.rows[r.id] && StripeForward(w.stripe, v.stripe)
    ensures Sound(v, r)
  {
    var p := w.db.rows[r.id].intent.value;
    assert IntentStep(w.stripe.intents[p], v.stripe.intents[p]);
  }

  lemma FreshStays(was: Booking, w: World, v: World, id: Id)
    requires Fresh(was, w, id) && v.db == w.db && StripeForward(w.stripe, v.stripe)
    ensures Fresh(was, v, id)
  {
    if w.db.rows[id] != was {
      var p := w.db.rows[id].intent.value;
      assert IntentStep(w.stripe.intents[p], v.stripe.intents[p]);
    }
  }

  lemma LookUpSound(w: World, was: Booking, id: Id)
    requires Inv(w) && Fresh(was, w, id)
    ensures var (v, look) := ApiRetrieve(w, was.intent.value);
            && Inv(v) && Evolves(w, v) && v.db == w.db
            && (Resolve(id, look).Some? ==> Sound(v, Resolve(id, look).value))
  {
    TurnKeeps(w);
    var t := Turn(w);
    FreshStays(was, w, t, id);
    RowOf(t, id);
  }

  ghost predicate AllFresh(w: World, rows: map<Id, Booking>, ids: seq<Id>) {
    forall i | 0 <= i < |ids| :: ids[i] in rows && rows[ids[i]].intent.Some? && Fresh(rows[ids[i]], w, ids[i])
  }

  lemma AllFreshStays(w: World, v: World, rows: map<Id, Booking>, ids: seq<Id>)
    requires AllFresh(w, rows, ids) && ids != [] && v.db == w.db && StripeForward(w.stripe, v.stripe)
    ensures AllFresh(v, rows, ids[1..])
  {
    forall i | 0 <= i < |ids[1..]| ensures Fresh(rows[ids[1..][i]], v, ids[1..][i]) {
      assert ids[1..][i] == ids[i + 1];
      FreshStays(rows[ids[i + 1]], w, v, ids[i + 1]);
    }
  }

  ghost predicate Resolved(v: World, rs: seq<Resolution>, ids: seq<Id>) {
    AllSound(v, rs) && InOrder(rs) && forall i | 0 <= i < |rs| :: rs[i].id in ids
  }

  lemma ResolvedCons(w: World, v: World, r: Resolution, rest: seq<Resolution>, ids: seq<Id>)
    requires ids != [] && Ascending(ids) && r.id == ids[0] && Sound(w, r) && v.db == w.db && StripeForward(w.stripe, v.stripe)
    requires Resolved(v, rest, ids[1..])
    ensures Resolved(v, [r] + rest, ids)
  {
    SoundStays(w, v, r);
  }

  lemma {:induction false} LookUpAllSound(w: World, rows: map<Id, Booking>, ids: seq<Id>)
    requires Inv(w) && Ascending(ids) && AllFresh(w, rows, ids)
    ensures var (v, rs) := LookUpAll(w, rows, ids);
            Inv(v) && Evolves(w, v) && v.db == w.db && Resolved(v, rs, ids)
    decreases ids
  {
    hide RowsOk, LedgerOk, TreeOk, NoOverlap, RowsForward, TreeForward, AttachForward, DatesForward;
    if ids == [] {
      EvolvesRefl(w);
    } else {
      var (w1, look) := ApiRetrieve(w, rows[ids[0]].intent.value);
      LookUpSound(w, rows[ids[0]], ids[0]);
      AllFreshStays(w, w1, rows, ids);
      LookUpAllSound(w1, rows, ids[1..]);
      var (v, rest) := LookUpAll(w1, rows, ids[1..]);
      EvolvesTrans(w, w1, v);
      if Resolve(ids[0], look).Some? {
        ResolvedCons(w1, v, Resolve(ids[0], look).value, rest, ids);
      }
    }
  }

  /** One unguarded write, given that what it writes is still sound. */
  lemma ApplyOneKeeps(w: World, r: Resolution)
    requires Inv(w) && Sound(w, r)
    ensures var v := ApplyResolution(w, r);
            && Inv(v) && Evolves(w, v) && v.db == w.db.(rows := v.db.rows) && v.db.rows.Keys == w.db.rows.Keys
            && (forall id | id in w.db.rows && id != r.id :: v.db.rows[id] == w.db.rows[id])
  {
    hide RowsOk, LedgerOk, TreeOk, NoOverlap, RowsForward, TreeForward, AttachForward, DatesForward;
    TurnKeeps(w);
    var t := Turn(w);
    SoundStays(w, t, r);
    RowOf(t, r.id);
    if !t.env.halted {
      PutKeeps(t, r.id, if r.paid then Paid(t.db.rows[r.id], t.env.now) else t.db.rows[r.id].(status := FAILED));
      EvolvesTrans(w, t, ApplyResolution(w, r));
    }
  }

  lemma AllSoundStays(w: World, v: World, rs: seq<Resolution>)
    requires rs != [] && AllSound(w, rs) && InOrder(rs) && StripeForward(w.stripe, v.stripe)
    requires v.db.rows.Keys == w.db.rows.Keys
    requires forall id | id in w.db.rows && id != rs[0].id :: v.db.rows[id] == w.db.rows[id]
    ensures AllSound(v, rs[1..]) && InOrder(rs[1..])
  {
    forall i | 0 <= i < |rs[1..]| ensures Sound(v, rs[1..][i]) {
      assert rs[1..][i] == rs[i + 1] && rs[0].id < rs[i + 1].id;
      SoundStays(w, v, rs[i + 1]);
    }
  }

  lemma {:induction false} ApplyAllKeeps(w: World, rs: seq<Resolution>)
    requires Inv(w) && AllSound(w, rs) && InOrder(rs)
    ensures var v := ApplyAll(w, rs); Inv(v) && Evolves(w, v) && v.db.rows.Keys == w.db.rows.Keys
    decreases rs
  {
    hide RowsOk, LedgerOk, TreeOk, NoOverlap, RowsForward, TreeForward, AttachForward, DatesForward;
    if rs == [] {
      EvolvesRefl(w);
    } else {
      var w1 := ApplyResolution(w, rs[0]);
      ApplyOneKeeps(w, rs[0]);
      AllSoundStays(w, w1, rs);
      ApplyAllKeeps(w1, rs[1..]);
      EvolvesTrans(w, w1, ApplyAll(w1, rs[1..]));
    }
  }

  lemma ExpireStaleKeeps(w: World, ids: seq<Id>)
    requires Inv(w) && Ascending(ids)
    ensures var (v, rel) := ExpireStale(w, ids);
            && Inv(v) && Evolves(w, v) && v.db == w.db.(rows := v.db.rows) && v.db.rows.Keys <= w.db.rows.Keys
            && (forall id | id in w.db.rows && id !in v.db.rows ::
                  id in rel && id in ids && Expired(w.db.rows[id], w.env.now) && Freeable(w.db.rows[id], v.stripe))
            && (forall id | id in v.db.rows :: v.db.rows[id] == w.db.rows[id]
                  || (id in ids && Expired(w.db.rows[id], w.env.now) && PaidInTime(w.db.rows[id], v.db.rows[id], v.stripe)))
  {
    hide RowsOk, LedgerOk, TreeOk, NoOverlap, RowsForward, TreeForward, AttachForward, DatesForward;
    var expired := ExpiredAmong(w.db, ids, w.env.now);
    if expired == [] {
      EvolvesRefl(w);
    } else {
      HoldRefsOk(w, expired);
      HoldRefsIds(w.db.rows, expired);
      ReleaseSafe(w, HoldRefs(w.db.rows, expired));
    }
  }

  /** The reconcile step, on copies that are at most one release behind. */
  lemma ReconcileKeeps(w: World, rows: map<Id, Booking>, pending: seq<Id>)
    requires Inv(w) && Ascending(pending) && AllFresh(w, rows, pending)
    ensures var v := Reconcile(w, rows, pending); Inv(v) && Evolves(w, v) && v.db.rows.Keys == w.db.rows.Keys
  {
    hide RowsOk, LedgerOk, TreeOk, NoOverlap, RowsForward, TreeForward, AttachForward, DatesForward;
    var (w1, rs) := LookUpAll(w, rows, pending);
    LookUpAllSound(w, rows, pending);
    ApplyAllKeeps(w1, rs);
    EvolvesTrans(w, w1, ApplyAll(w1, rs));
  }

  /** `findAllForSpace` reconciles on copies that the release step may have made stale; because a succeeded
      intent stays succeeded, its unguarded write never takes a paid booking back. It removes nothing but
      expired holds whose attached intent is absent or cancelled for ever. */
  lemma FindAllSafe(w: World, spaceId: Id, scope: Option<Id>)
    requires Inv(w)
    ensures var v := FindAll(w, spaceId, scope).0;
            && Inv(v) && Evolves(w, v) && v.db.rows.Keys <= w.db.rows.Keys
            && (forall id | id in w.db.rows && id !in v.db.rows ::
                  w.db.rows[id].spaceId == spaceId && Expired(w.db.rows[id], w.env.now) && Freeable(w.db.rows[id], v.stripe))
  {
    hide RowsOk, LedgerOk, TreeOk, NoOverlap, RowsForward, TreeForward, AttachForward, DatesForward;
    var ids := ListedIds(w.db, spaceId, scope);
    var (w1, released) := ExpireStale(w, ids);
    ExpireStaleKeeps(w, ids);
    PendingFresh(w, w1, ids, released);
    var pending := ReconcilableAmong(w.db, ids, released);
    var v := Reconcile(w1, w.db.rows, pending);
    ReconcileKeeps(w1, w.db.rows, pending);
    EvolvesTrans(w, w1, v);
    RemovedFreeable(w, w1, v);
  }

  lemma PendingFresh(w: World, w1: World, ids: seq<Id>, released: set<Id>)
    requires Ascending(ids)
    requires forall id | id in w.db.rows && id !in w1.db.rows :: id in released
    requires forall id | id in w1.db.rows :: id in w.db.rows && (w1.db.rows[id] == w.db.rows[id]
               || PaidInTime(w.db.rows[id], w1.db.rows[id], w1.stripe))
    ensures var pending := ReconcilableAmong(w.db, ids, released);
            Ascending(pending) && AllFresh(w1, w.db.rows, pending)
  {
  }

  lemma RemovedFreeable(w: World, w1: World, v: World)
    requires StripeForward(w1.stripe, v.stripe)
    requires forall id | id in w.db.rows && id !in w1.db.rows :: Freeable(w.db.rows[id], w1.stripe)
    ensures forall id | id in w.db.rows && id !in w1.db.rows :: Freeable(w.db.rows[id], v.stripe)
  {
    forall id | id in w.db.rows && id !in w1.db.rows ensures Freeable(w.db.rows[id], v.stripe) {
      var b := w.db.rows[id];
      assert Freeable(b, w1.stripe);
      if b.intent.Some? { assert IntentStep(w1.stripe.intents[b.intent.value], v.stripe.intents[b.intent.value]); }
    }
  }

  // ----------------------------------------------------------------- retry

  lemma ClaimKeeps(w: World, id: Id, userId: Id, was: Status)
    requires Inv(w) && (was.UNPAID? || was.FAILED?)
    requires id in w.db.rows && !DeletedItem(w.db, w.db.rows[id].resource)
    ensures var (v, won) := Claim(w, id, userId, was); Inv(v) && Evolves(w, v)
  {
    hide RowsOk, LedgerOk, TreeOk, NoOverlap, RowsForward, TreeForward, AttachForward, DatesForward;
    TurnKeeps(w);
    var t := Turn(w);
    var (v, won) := Claim(w, id, userId, was);
    if won {
      RowOf(t, id);
      PutKeeps(t, id, Claimed(t.db.rows[id], t.env.now));
      EvolvesTrans(w, t, v);
    }
  }

  lemma ClaimFrame(w: World, id: Id, userId: Id, was: Status)
    ensures var (v, won) := Claim(w, id, userId, was);
            && (!won ==> v.db == w.db)
            && (won ==> !v.env.halted && id in w.db.rows && w.db.rows[id].status == was
                        && v.db == PutRow(w.db, id, Claimed(w.db.rows[id], v.env.now)))
  {
  }

  lemma RevertKeeps(w: World, id: Id, before: Booking)
    requires Inv(w) && id in w.db.rows && !DeletedItem(w.db, before.resource)
    requires w.db.rows[id] == before.(status := PENDING, holdExpiresAt := w.db.rows[id].holdExpiresAt)
    requires before.cancelledAt.None? && StatusOk(before, w.env.now) && (before.status.UNPAID? || before.status.FAILED?)
    ensures var v := Revert(w, id, before); Inv(v) && Evolves(w, v)
  {
    hide RowsOk, LedgerOk, TreeOk, NoOverlap, RowsForward, TreeForward, AttachForward, DatesForward;
    TurnKeeps(w);
    var t := Turn(w);
    if !t.env.halted {
      RowOf(t, id);
      PutKeeps(t, id, t.db.rows[id].(status := before.status, holdExpiresAt := before.holdExpiresAt));
      EvolvesTrans(w, t, Revert(w, id, before));
    }
  }

  lemma RetryKeeps(w: World, id: Id, spaceId: Id, userId: Id)
    requires Inv(w)
    ensures var v := Retry(w, id, spaceId, userId).0; Inv(v) && Evolves(w, v)
  {
    hide RowsOk, LedgerOk, TreeOk, NoOverlap, RowsForward, TreeForward, AttachForward, DatesForward;
    var (v, a) := Retry(w, id, spaceId, userId);
    if v == w {
      EvolvesRefl(w);
    } else {
      var b := w.db.rows[id];
      RowOf(w, id);
      if b.status.FAILED? && b.holdExpiresAt.Some? && b.holdExpiresAt.value < w.env.now {
        ReleaseSafe(w, [HoldRef(id, b.intent)]);
      } else {
        RetryPaymentKeeps(w, id, userId);
      }
    }
  }

  /** Claim, pay, and hand back on failure. */
  lemma RetryPaymentKeeps(w: World, id: Id, userId: Id)
    requires Inv(w) && id in w.db.rows && !DeletedItem(w.db, w.db.rows[id].resource)
    requires w.db.rows[id].cancelledAt.None? && w.db.rows[id].amountCents.Some?
    requires w.db.rows[id].status.UNPAID? || w.db.rows[id].status.FAILED?
    ensures var b := w.db.rows[id];
            var (w1, won) := Claim(w, id, userId, b.status);
            && Inv(w1) && Evolves(w, w1)
            && (won ==>
                  var (w2, made) := CreateAndAttach(w1, id, b.amountCents.value);
                  && Inv(w2) && Evolves(w, w2)
                  && (made.Threw? ==> Inv(Revert(w2, id, b)) && Evolves(w, Revert(w2, id, b))))
  {
    hide RowsOk, LedgerOk, TreeOk, NoOverlap, RowsForward, TreeForward, AttachForward, DatesForward;
    var b := w.db.rows[id];
    RowOf(w, id);
    ClaimKeeps(w, id, userId, b.status);
    ClaimFrame(w, id, userId, b.status);
    var (w1, won) := Claim(w, id, userId, b.status);
    if won {
      CreateAndAttachKeeps(w1, id, b.amountCents.value);
      var (w2, made) := CreateAndAttach(w1, id, b.amountCents.value);
      EvolvesTrans(w, w1, w2);
      if made.Threw? {
        RevertKeeps(w2, id, b);
        EvolvesTrans(w, w2, Revert(w2, id, b));
      }
    }
  }

  /** A retry only starts for the booking's owner, on a live resource, while the booking is neither cancelled,
      paid, pending nor lapsed, and the space can take payments. */
  ghost predicate MayRetry(w: World, id: Id, spaceId: Id, userId: Id) {
    && id in w.db.rows
    && w.db.rows[id].userId == userId && w.db.rows[id].cancelledAt.None?
    && (w.db.rows[id].status.UNPAID? || w.db.rows[id].status.FAILED?)
    && !Expired(w.db.rows[id], w.env.now)
    && Bookable(w.db, w.db.rows[id].resource, spaceId)
    && ManagerOf(w.db, spaceId).Some? && PaymentsEnabled(ManagerOf(w.db, spaceId).value)
  }

  /** A retry on a paid, pending or foreign booking changes nothing at all. */
  lemma RetryRefuses(w: World, id: Id, spaceId: Id, userId: Id)
    ensures var (v, a) := Retry(w, id, spaceId, userId);
            && (a.NotFound? ==> v == w)
            && (id in w.db.rows && (w.db.rows[id].status in {PAID, PENDING} || w.db.rows[id].userId != userId) ==> v == w)
  {
    hide Release, Claim, CreateAndAttach, Revert, Bookable;
  }

  /** A retry that fails at Stripe hands the booking back exactly as it stood; one that succeeds leaves it
      PENDING behind an intent for its price and touches no other row. */
  lemma RetryFrame(w: World, id: Id, spaceId: Id, userId: Id)
    requires Inv(w)
    ensures var (v, a) := Retry(w, id, spaceId, userId);
            && (a.Failed? && !v.env.halted ==> v.db == w.db)
            && (a.PaymentStarted? ==>
                  && MayRetry(w, id, spaceId, userId) && id in v.db.rows
                  && v.db == PutRow(w.db, id, v.db.rows[id])
                  && v.db.rows[id].status.PENDING? && v.db.rows[id].intent.Some?
                  && v.db.rows[id].amountCents == w.db.rows[id].amountCents)
  {
    hide RowsOk, LedgerOk, TreeOk, NoOverlap, Release;
    var (v, a) := Retry(w, id, spaceId, userId);
    if a.Failed? || a.PaymentStarted? {
      RowOf(w, id);
      var b := w.db.rows[id];
      ClaimFrame(w, id, userId, b.status);
      var (w1, _) := Claim(w, id, userId, b.status);
      PayFrame(w1, id, b.amountCents.value);
      if a.Failed? && !v.env.halted {
        assert v.db.rows[id] == b;
        assert v.db.rows == w.db.rows;
      }
    }
  }

  /** A retry of a lapsed hold starts no payment and gives no new deadline: told to book again, the hold is gone
      and its attached intent is absent or cancelled for ever; told to wait, it still stands, as it was or paid. */
  lemma RetryLapsed(w: World, id: Id, spaceId: Id, userId: Id)
    requires Inv(w) && id in w.db.rows && Expired(w.db.rows[id], w.env.now)
    requires RetryChecks(w.db, id, spaceId, userId).PaymentStarted?
    ensures var (v, a) := Retry(w, id, spaceId, userId);
            && (a.BadRequest? || a.Conflict?)
            && (a.BadRequest? && !v.env.halted ==> id !in v.db.rows && Freeable(w.db.rows[id], v.stripe))
            && (a.Conflict? && !v.env.halted ==>
                  id in v.db.rows
                  && (v.db.rows[id] == w.db.rows[id] || PaidInTime(w.db.rows[id], v.db.rows[id], v.stripe)))
  {
    hide LedgerOk, TreeOk, NoOverlap, RowsForward, TreeForward, StripeForward, Freeable, PaidInTime, AttachForward,
      DatesForward;
    RowOf(w, id);
    var todo := [HoldRef(id, w.db.rows[id].intent)];
    ReleaseSafe(w, todo);
    assert Ids(todo) == {id};
  }
}
