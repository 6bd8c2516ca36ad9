/** What a delete can leave for good: a cancelled hold whose intent was not cancelled, because the process stopped or
    the cancel threw. If the member pays it later, no handler ever picks that money up. */
module Stranded {
  import opened Schema
  import opened StripeCalls
  import opened Bookings
  import opened Webhook
  import opened Deletion
  import opened Protocol
  import opened BookingProofs
  import opened ListAndRetryProofs
  import DP = DeletionProofs
  import RP = RemoveProofs
  import opened Runs

  /** A cancelled booking under which no money was recorded. */
  ghost predicate CancelledUnpaid(db: Database, id: Id) {
    id in db.rows && db.rows[id].cancelledAt.Some? && !Money(db.rows[id].status)
  }

  ghost predicate SameRow(x: Database, y: Database, id: Id) { id in x.rows && id in y.rows && y.rows[id] == x.rows[id] }

  lemma CreateLeaves(w: World, resource: Resource, start: Time, end: Time, spaceId: Id, userId: Id, id: Id)
    requires Inv(w) && CancelledUnpaid(w.db, id)
    ensures SameRow(w.db, Create(w, resource, start, end, spaceId, userId).0.db, id)
  {
    hide RowsOk, LedgerOk, TreeOk, NoOverlap, RowsForward, TreeForward, StripeForward, Book, ClearStale,
      AttachForward, DatesForward;
    var (verdict, amount, paid) := CreateChecks(w.db, resource, start, end, spaceId);
    if verdict.PaymentStarted? {
      var w1 := ClearStale(w, resource);
      ClearStaleKeeps(w, resource);
      RowOf(w, id);
      if id in w1.db.rows { RowOf(w1, id); }
      NextIsNew(w1);
      BookFrame(w1, resource, start, end, spaceId, userId, amount, paid);
    }
  }

  lemma {:induction false} ApplyLeaves(w: World, rs: seq<Resolution>, id: Id)
    requires id in w.db.rows && forall i | 0 <= i < |rs| :: rs[i].id != id
    ensures SameRow(w.db, ApplyAll(w, rs).db, id)
    decreases rs
  {
    if rs != [] { ApplyLeaves(ApplyResolution(w, rs[0]), rs[1..], id); }
  }

  lemma ListLeaves(w: World, spaceId: Id, scope: Option<Id>, id: Id)
    requires Inv(w) && CancelledUnpaid(w.db, id)
    ensures SameRow(w.db, FindAll(w, spaceId, scope).0.db, id)
  {
    hide RowsOk, LedgerOk, TreeOk, NoOverlap, RowsForward, TreeForward, StripeForward, ExpireStale, LookUpAll,
      ApplyAll, AllFresh, AttachForward, DatesForward;
    var ids := ListedIds(w.db, spaceId, scope);
    var (w1, released) := ExpireStale(w, ids);
    ExpireStaleKeeps(w, ids);
    PendingFresh(w, w1, ids, released);
    RowOf(w, id);
    if id in w1.db.rows { RowOf(w1, id); }
    var pending := ReconcilableAmong(w.db, ids, released);
    LookUpAllSound(w1, w.db.rows, pending);
    var (w2, rs) := LookUpAll(w1, w.db.rows, pending);
    ApplyLeaves(w2, rs, id);
  }

  /** A retry touches the row it is about and no other. */
  lemma RetryTouchesOne(w: World, id: Id, spaceId: Id, userId: Id, k: Id)
    requires Inv(w) && k in w.db.rows && k != id
    ensures SameRow(w.db, Retry(w, id, spaceId, userId).0.db, k)
  {
    hide RowsOk, LedgerOk, TreeOk, NoOverlap, RowsForward, TreeForward, StripeForward, Release, AttachForward,
      DatesForward;
    var v := Retry(w, id, spaceId, userId).0;
    if v != w {
      RowOf(w, id);
      var b := w.db.rows[id];
      if Expired(b, w.env.now) {
        var todo := [HoldRef(id, b.intent)];
        ReleaseSafe(w, todo);
        assert Ids(todo) == {todo[0].id};
      } else {
        ClaimFrame(w, id, userId, b.status);
        var (w1, won) := Claim(w, id, userId, b.status);
        if won {
          PayFrame(w1, id, b.amountCents.value);
          RevertFrame(CreateAndAttach(w1, id, b.amountCents.value).0, id, b);
        }
      }
    }
  }

  lemma RevertFrame(w: World, id: Id, before: Booking)
    ensures var v := Revert(w, id, before);
            v.db.rows.Keys == w.db.rows.Keys && forall k | k in w.db.rows && k != id :: v.db.rows[k] == w.db.rows[k]
  {
  }

  lemma RemoveLeaves(w: World, target: Target, spaceId: Id, confirm: bool, id: Id)
    requires Inv(w) && CancelledUnpaid(w.db, id)
    ensures SameRow(w.db, Remove(w, target, spaceId, confirm).0.db, id)
  {
    hide RowsOk, LedgerOk, TreeOk, NoOverlap, RowsForward, TreeForward, StripeForward, Settle, Within, TargetLive,
      AttachForward, DatesForward;
    TurnKeeps(w);
    var t, v := Turn(w), Remove(w, target, spaceId, confirm).0;
    if v != t {
      RP.SettleTx(t, target, spaceId, w.env.now);
      assert id !in ActiveSet(t.db, spaceId, target, w.env.now);
    }
  }

  lemma RefundLeaves(w: World, k: Id, spaceId: Id, id: Id)
    requires Inv(w) && CancelledUnpaid(w.db, id)
    ensures SameRow(w.db, RetryRefund(w, k, spaceId).0.db, id)
  {
    hide RowsOk, LedgerOk, TreeOk, NoOverlap, RowsForward, TreeForward, StripeForward, RefundOne, AttachForward,
      DatesForward;
    RP.RetryRefundKeeps(w, k, spaceId);
  }

  /** No handler writes, or removes, a cancelled booking under which no money was recorded. */
  lemma NoHandlerTouchesIt(w: World, s: Step, id: Id)
    requires Inv(w) && CancelledUnpaid(w.db, id)
    ensures SameRow(w.db, Exec(w, s).db, id)
  {
    hide RowsOk, LedgerOk, TreeOk, NoOverlap, RowsForward, TreeForward, StripeForward, Create, FindAll, Retry,
      Remove, RetryRefund, AttachForward, DatesForward;
    BeginKeeps(w, s.future);
    var b := Begin(w, s.future);
    match s.call
    case DoCreate(r, start, end, space, user) => CreateLeaves(b, r, start, end, space, user, id);
    case DoList(space, scope) => ListLeaves(b, space, scope, id);
    case DoRetry(k, space, user) =>
      if k != id { RetryTouchesOne(b, k, space, user, id); } else { RetryOfCancelled(b, id, space, user); }
    case DoWebhook(e) =>
    case DoRemove(target, space, confirm) => RemoveLeaves(b, target, space, confirm, id);
    case DoRetryRefund(k, space) => RefundLeaves(b, k, space, id);
    case DoChange(c) =>
    case DoNothing =>
  }

  lemma RetryOfCancelled(w: World, id: Id, spaceId: Id, userId: Id)
    requires CancelledUnpaid(w.db, id)
    ensures Retry(w, id, spaceId, userId).0 == w
  {
    hide Release, Claim, CreateAndAttach, Revert, Bookable;
  }

  /** Along every run it stays exactly as it was: if its intent succeeds, that money is neither collected nor
      refunded by the system. */
  lemma {:induction false} StaysStranded(w: World, steps: seq<Step>, id: Id)
    requires Inv(w) && LegalRun(w, steps) && CancelledUnpaid(w.db, id)
    ensures SameRow(w.db, Run(w, steps).db, id)
    decreases steps
  {
    hide Exec, Inv, Evolves;
    if steps != [] {
      ExecKeeps(w, steps[0]);
      NoHandlerTouchesIt(w, steps[0], id);
      StaysStranded(Exec(w, steps[0]), steps[1..], id);
    }
  }

  // ------------------------------------------------- how it comes about

  const STOP: Weather := CALM.(fault := Stop)

  /** The process is down, or goes down at the next statement. */
  ghost predicate Stops(w: World) { w.env.halted || (w.env.future != [] && w.env.future[0].fault.Stop?) }

  lemma SettleOneStops(w: World, was: Booking, id: Id, acc: Refunds)
    requires Stops(w)
    ensures SettleOne(w, was, id, acc).0 in {w, Turn(w)}
  {
    hide Drift;
    assert Turn(w).env.halted && Turn(w).db == w.db && Turn(Turn(w)) == Turn(w);
  }

  lemma {:induction false} SettleStops(w: World, was: map<Id, Booking>, ids: seq<Id>, acc: Refunds)
    requires Stops(w) && forall i | 0 <= i < |ids| :: ids[i] in was
    ensures Settle(w, was, ids, acc).0 in {w, Turn(w)}
    decreases ids
  {
    hide SettleOne, Drift;
    if ids != [] {
      var (w1, acc1) := SettleOne(w, was[ids[0]], ids[0], acc);
      SettleOneStops(w, was[ids[0]], ids[0], acc);
      assert Stops(Turn(w)) && Turn(Turn(w)) == Turn(w);
      SettleStops(w1, was, ids[1..], acc1);
    }
  }

  /** The stop comes with the first statement after the transaction. */
  lemma StoppedDelete(w: World, target: Target, spaceId: Id)
    requires Inv(w) && TargetLive(w.db, target, spaceId) && w.env.future == [CALM, STOP] && !w.env.halted
    ensures var v := Remove(w, target, spaceId, true).0;
            v.db == RemoveTx(w.db, target, spaceId, w.env.now) && v.stripe == w.stripe
  {
    hide Settle, RemoveTx, TargetLive;
    var t := Turn(w);
    assert Drift(w.stripe.intents, map[]) == w.stripe.intents;
    assert t.env.future == [STOP];
    var u := t.(db := RemoveTx(t.db, target, spaceId, w.env.now));
    SettleStops(u, t.db.rows, ActiveIds(t.db, spaceId, target, w.env.now), Refunds(0, 0, 0));
    assert Turn(u).stripe == u.stripe && Turn(u).db == u.db;
  }

  /** Time passes, and nothing else happens outside but that one intent succeeds. */
  function Paying(intents: map<Id, Intent>, p: Id, ms: nat): Weather {
    CALM.(tick := ms, drift := if p in intents then intents[p := intents[p].(status := Succeeded)] else intents)
  }

  lemma MemberPays(w: World, p: Id, ms: nat)
    requires p in w.stripe.intents && w.stripe.intents[p].attached && !w.stripe.intents[p].status.Canceled?
    ensures var v := Exec(w, Step(DoNothing, [Paying(w.stripe.intents, p, ms)]));
            && v.db == w.db && v.env.now == w.env.now + ms
            && v.stripe.intents == w.stripe.intents[p := w.stripe.intents[p].(status := Succeeded)]
  {
  }

  // ---------------------------------------------------- exactly when it can

  /** Stripe has the money, the booking is cancelled, and it is neither refunded nor waiting for a refund. */
  ghost predicate Lost(w: World, id: Id, p: Id) {
    && id in w.db.rows && w.db.rows[id].cancelledAt.Some? && w.db.rows[id].intent == Some(p)
    && p in w.stripe.intents && w.stripe.intents[p].status.Succeeded?
    && !w.db.rows[id].status.REFUNDED? && !AwaitsRefund(w.db, id, w.db.rows[id].spaceId)
  }

  ghost predicate LostOnSomeRun(w: World, id: Id, p: Id) {
    exists later: seq<Step> :: LegalRun(w, later) && Lost(Run(w, later), id, p)
  }

  /** A cancelled booking can come to this exactly while no money is recorded on it and its intent is not cancelled;
      and once it has, it stays so. Both can be read off the row and the intent. */
  lemma StrandedIff(w: World, id: Id, p: Id)
    requires Inv(w) && id in w.db.rows && w.db.rows[id].cancelledAt.Some? && w.db.rows[id].intent == Some(p)
    ensures LostOnSomeRun(w, id, p) <==> !Money(w.db.rows[id].status) && !w.stripe.intents[p].status.Canceled?
  {
    hide Inv, Evolves, Lost, Exec;
    OnTheRow(w, id, p);
    if LostOnSomeRun(w, id, p) {
      var later: seq<Step> :| LegalRun(w, later) && Lost(Run(w, later), id, p);
      RunSafe(w, later);
      LostMeans(w, Run(w, later), id, p);
    }
    if !Money(w.db.rows[id].status) && !w.stripe.intents[p].status.Canceled? {
      var pay := Step(DoNothing, [Paying(w.stripe.intents, p, 0)]);
      MemberPays(w, p, 0);
      var u := Exec(w, pay);
      assert LegalRun(w, [pay]) && Run(w, [pay]) == u by { OneStep(w, pay); }
      assert Lost(u, id, p) by { PaidIsLost(w, u, id, p); }
    }
  }

  lemma OneStep(w: World, s: Step)
    requires Legal(w, s)
    ensures LegalRun(w, [s]) && Run(w, [s]) == Exec(w, s)
  {
    hide Exec;
    var u := Exec(w, s);
    assert LegalRun(u, []) && Run(u, []) == u;
  }

  lemma OnTheRow(w: World, id: Id, p: Id)
    requires Inv(w) && id in w.db.rows && w.db.rows[id].intent == Some(p)
    ensures p in w.stripe.intents && w.stripe.intents[p].attached
  {
    RowOf(w, id);
  }

  lemma PaidIsLost(w: World, u: World, id: Id, p: Id)
    requires CancelledUnpaid(w.db, id) && w.db.rows[id].intent == Some(p) && u.db == w.db
    requires p in u.stripe.intents && u.stripe.intents[p].status.Succeeded?
    ensures Lost(u, id, p)
  {
  }

  lemma LostMeans(w: World, z: World, id: Id, p: Id)
    requires Inv(w) && Inv(z) && Evolves(w, z) && Lost(z, id, p)
    requires id in w.db.rows && w.db.rows[id].cancelledAt.Some? && w.db.rows[id].intent == Some(p)
    ensures !Money(w.db.rows[id].status) && p in w.stripe.intents && !w.stripe.intents[p].status.Canceled?
  {
    RowOf(w, id);
    RowOf(z, id);
    StepOf(w, z, id);
    assert IntentStep(w.stripe.intents[p], z.stripe.intents[p]);
  }

  /** Once lost, lost for ever: refund retry, webhook and reconciliation all pass it by. */
  lemma LostStaysLost(w: World, later: seq<Step>, id: Id, p: Id)
    requires Inv(w) && LegalRun(w, later) && Lost(w, id, p)
    ensures var z := Run(w, later);
            && Lost(z, id, p) && SameRow(w.db, z.db, id)
            && !SucceedGuard(z.db.rows[id]) && !Reconcilable(z.db.rows[id])
  {
    hide Exec, Run, LegalRun, Evolves, RowsOk, LedgerOk, TreeOk, NoOverlap;
    RowOf(w, id);
    StaysStranded(w, later, id);
    RunSafe(w, later);
    SucceededStays(w, Run(w, later), p);
  }

  // ----------------------------------------- what a delete leaves in that state

  /** A hold the delete has cancelled is left open to this exactly when the cancel of its intent threw while the
      intent is not cancelled, or found it succeeded and the process stopped before that was written down. */
  lemma ReleaseLeavesOpenIff(w: World, id: Id, p: Id)
    requires Inv(w) && CancelledUnpaid(w.db, id) && w.db.rows[id].intent == Some(p) && Hold(w.db.rows[id].status)
    ensures var (w1, out) := CancelIntent(w, p);
            var v := ReleasePending(w, id, p);
            && id in v.db.rows && p in v.stripe.intents
            && (!Money(v.db.rows[id].status) && !v.stripe.intents[p].status.Canceled?
                <==> (out.Threw? && !w1.stripe.intents[p].status.Canceled?)
                     || (out.Returned? && out.value.WasSucceeded? && MarkLatePaid(w1, id).env.halted))
  {
    hide RowsOk, LedgerOk, TreeOk, NoOverlap, RowsForward, TreeForward, RefundOne, CancelIntent, AttachForward,
      DatesForward;
    RowOf(w, id);
    CancelKeeps(w, p);
    var (w1, out) := CancelIntent(w, p);
    var v := ReleasePending(w, id, p);
    DP.ReleasePendingKeeps(w, id, p);
    assert IntentStep(w.stripe.intents[p], v.stripe.intents[p]);
    if out.Returned? && out.value.WasSucceeded? {
      LateLeavesOpenIff(w1, id, p);
    } else if out.Returned? {
      assert IntentStep(w1.stripe.intents[p], v.stripe.intents[p]) by { ReleaseMoves(w, id, p); }
    }
  }

  lemma ReleaseMoves(w: World, id: Id, p: Id)
    requires Inv(w) && CancelledUnpaid(w.db, id) && Hold(w.db.rows[id].status)
    requires var out := CancelIntent(w, p).1; out.Returned? && !out.value.WasSucceeded?
    ensures StripeForward(CancelIntent(w, p).0.stripe, ReleasePending(w, id, p).stripe)
  {
    hide RowsOk, LedgerOk, TreeOk, NoOverlap, RowsForward, TreeForward, CancelIntent, AttachForward, DatesForward;
    CancelKeeps(w, p);
    DP.MarkReleasedKeeps(CancelIntent(w, p).0, id);
  }

  lemma LateLeavesOpenIff(w: World, id: Id, p: Id)
    requires Inv(w) && CancelledUnpaid(w.db, id) && Hold(w.db.rows[id].status) && w.db.rows[id].intent == Some(p)
    requires p in w.stripe.intents && w.stripe.intents[p].status.Succeeded?
    ensures var v := RefundOne(MarkLatePaid(w, id), id, p).0;
            && id in v.db.rows && p in v.stripe.intents && v.stripe.intents[p].status.Succeeded?
            && (!Money(v.db.rows[id].status) <==> MarkLatePaid(w, id).env.halted)
  {
    hide RowsOk, LedgerOk, TreeOk, NoOverlap, RowsForward, TreeForward, AttachForward, DatesForward;
    DP.MarkLateKeeps(w, id, p);
    DP.LateRefundKeeps(w, id, p);
    var u := MarkLatePaid(w, id);
    var v := RefundOne(u, id, p).0;
    assert IntentStep(w.stripe.intents[p], v.stripe.intents[p]);
    if u.env.halted {
      DP.RefundHalted(u, id, p);
    } else {
      DP.RefundOneKeeps(u, id, p);
      StepOf(u, v, id);
    }
  }

  // ------------------------------------------------------------ runs that do

  /** The process stops right behind the transaction of a confirmed delete: every hold it cancelled is left open. */
  lemma StopLeavesHoldsOpen(w: World, target: Target, spaceId: Id, id: Id, p: Id)
    requires Inv(w) && TargetLive(w.db, target, spaceId) && id in ActiveSet(w.db, spaceId, target, w.env.now)
    requires Hold(w.db.rows[id].status) && w.db.rows[id].intent == Some(p)
    requires p in w.stripe.intents && !w.stripe.intents[p].status.Canceled?
    ensures var v := Exec(w, Step(DoRemove(target, spaceId, true), [CALM, STOP]));
            CancelledUnpaid(v.db, id) && v.db.rows[id].intent == Some(p) && LostOnSomeRun(v, id, p)
  {
    hide Inv, Evolves, Active, TargetLive, LostOnSomeRun;
    var s := Step(DoRemove(target, spaceId, true), [CALM, STOP]);
    var v := Exec(w, s);
    ExecKeeps(w, s);
    BeginKeeps(w, s.future);
    StoppedDelete(Begin(w, s.future), target, spaceId);
    assert v.db.rows[id] == Cancelled(w.db.rows[id], w.env.now);
    StrandedIff(v, id, p);
  }

  /** And then the member pays: along every later run the booking stays cancelled and unpaid while Stripe keeps its
      charge. */
  lemma StopStrandsAPayment(w: World, target: Target, spaceId: Id, id: Id, p: Id, later: seq<Step>)
    requires Inv(w) && TargetLive(w.db, target, spaceId) && id in ActiveSet(w.db, spaceId, target, w.env.now)
    requires Hold(w.db.rows[id].status) && w.db.rows[id].intent == Some(p)
    requires p in w.stripe.intents && !w.stripe.intents[p].status.Canceled?
    requires var v := Exec(w, Step(DoRemove(target, spaceId, true), [CALM, STOP]));
             LegalRun(Exec(v, Step(DoNothing, [Paying(v.stripe.intents, p, 0)])), later)
    ensures var v := Exec(w, Step(DoRemove(target, spaceId, true), [CALM, STOP]));
            var u := Exec(v, Step(DoNothing, [Paying(v.stripe.intents, p, 0)]));
            Lost(Run(u, later), id, p) && SameRow(v.db, Run(u, later).db, id)
  {
    hide Inv, Evolves, Run, LegalRun, Active, TargetLive, Lost, LostOnSomeRun;
    var s1 := Step(DoRemove(target, spaceId, true), [CALM, STOP]);
    var v := Exec(w, s1);
    ExecKeeps(w, s1);
    BeginKeeps(w, s1.future);
    StoppedDelete(Begin(w, s1.future), target, spaceId);
    assert v.db.rows[id] == Cancelled(w.db.rows[id], w.env.now);
    OnTheRow(v, id, p);
    MemberPays(v, p, 0);
    var s2 := Step(DoNothing, [Paying(v.stripe.intents, p, 0)]);
    var u := Exec(v, s2);
    ExecKeeps(v, s2);
    PaidIsLost(v, u, id, p);
    LostStaysLost(u, later, id, p);
  }

  const MUTE: Weather := CALM.(fault := NoReply)

  /** The next `n` calls get no reply, and nothing else happens. */
  ghost predicate Mute(w: World, n: nat) {
    !w.env.halted && n <= |w.env.future| && forall i | 0 <= i < n :: w.env.future[i] == MUTE
  }

  lemma MuteTurn(w: World, n: nat)
    requires Mute(w, n) && n > 0
    ensures var t := Turn(w); Mute(t, n - 1) && t.stripe == w.stripe && t.db == w.db && t.env.sky == MUTE
  {
    assert Drift(w.stripe.intents, map[]) == w.stripe.intents;
  }

  /** Without replies a hold stays as it is, and no intent moves. */
  lemma MuteSettleOne(w: World, was: Booking, id: Id, acc: Refunds, n: nat)
    requires Mute(w, n + 2)
    ensures var v := SettleOne(w, was, id, acc).0;
            && Mute(v, n) && v.stripe.intents == w.stripe.intents && v.db == w.db.(rows := v.db.rows)
            && v.db.rows.Keys == w.db.rows.Keys
            && (forall k | k in w.db.rows && (k != id || Hold(was.status)) :: v.db.rows[k] == w.db.rows[k])
  {
    hide Turn, Drift;
    MuteTurn(w, n + 2);
    MuteTurn(Turn(w), n + 1);
  }

  lemma {:induction false} MuteSettle(w: World, was: map<Id, Booking>, ids: seq<Id>, acc: Refunds)
    requires Mute(w, 2 * |ids|) && forall i | 0 <= i < |ids| :: ids[i] in was
    ensures var v := Settle(w, was, ids, acc).0;
            && !v.env.halted && v.stripe.intents == w.stripe.intents && v.db.rows.Keys == w.db.rows.Keys
            && (forall k | k in w.db.rows && k in was && Hold(was[k].status) :: v.db.rows[k] == w.db.rows[k])
    decreases ids
  {
    hide SettleOne, Turn;
    if ids != [] {
      var (w1, acc1) := SettleOne(w, was[ids[0]], ids[0], acc);
      MuteSettleOne(w, was[ids[0]], ids[0], acc, 2 * |ids| - 2);
      MuteSettle(w1, was, ids[1..], acc1);
    }
  }

  function Silence(n: nat): seq<Weather> { seq(n, i => MUTE) }

  /** No process stops, but no call of the settlement gets a reply: the delete answers as usual, and every hold it
      cancelled is left open. */
  lemma SilenceLeavesHoldsOpen(w: World, target: Target, spaceId: Id, id: Id, p: Id)
    requires Inv(w) && TargetLive(w.db, target, spaceId) && id in ActiveSet(w.db, spaceId, target, w.env.now)
    requires Hold(w.db.rows[id].status) && w.db.rows[id].intent == Some(p)
    requires p in w.stripe.intents && !w.stripe.intents[p].status.Canceled?
    ensures var future := [CALM] + Silence(2 * |ActiveIds(w.db, spaceId, target, w.env.now)|);
            var (v, out) := Remove(Begin(w, future), target, spaceId, true);
            && out.Deleted? && !v.env.halted
            && v == Exec(w, Step(DoRemove(target, spaceId, true), future))
            && CancelledUnpaid(v.db, id) && v.db.rows[id].intent == Some(p) && LostOnSomeRun(v, id, p)
  {
    hide Inv, Evolves, Active, TargetLive, Settle, LostOnSomeRun;
    var n := 2 * |ActiveIds(w.db, spaceId, target, w.env.now)|;
    var s := Step(DoRemove(target, spaceId, true), [CALM] + Silence(n));
    var b := Begin(w, s.future);
    var t := Turn(b);
    assert Drift(b.stripe.intents, map[]) == b.stripe.intents;
    assert b.env.future[1..] == Silence(n);
    var u := t.(db := RemoveTx(t.db, target, spaceId, w.env.now));
    assert Mute(u, n);
    MuteSettle(u, t.db.rows, ActiveIds(t.db, spaceId, target, w.env.now), Refunds(0, 0, 0));
    var v := Exec(w, s);
    ExecKeeps(w, s);
    assert v.db.rows[id] == Cancelled(w.db.rows[id], w.env.now);
    StrandedIff(v, id, p);
  }

  lemma SucceededStays(x: World, y: World, p: Id)
    requires Evolves(x, y) && p in x.stripe.intents && x.stripe.intents[p].status.Succeeded?
    ensures p in y.stripe.intents && y.stripe.intents[p].status.Succeeded?
  {
    assert IntentStep(x.stripe.intents[p], y.stripe.intents[p]);
  }
}
