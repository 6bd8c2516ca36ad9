/** The release of a lapsed hold against everything else that runs. The delete names the id of the row and nothing
    else; here is exactly when that deletes money, and which guard would have noticed. */
module ReleaseRace {
  import opened Schema
  import opened BookingRace

  predicate MoneyNow(s: Shared) { s.row.Some? && Money(s.row.value.status) }

  // -------------------------------------------------- when is money deleted?

  /** The statements that write down a payment or a refund. */
  predicate Records(s: Shared, pc: Pc) {
    s.row.Some? &&
    match pc
    case MustMark(_) => Hold(s.row.value.status)
    case MustWrite(_, paid) => paid
    case MustCommit(what, saw) => TargetLive(s, what) && saw.Some? && saw.value.status.PAID?
    case MustMarkLate(_) => true
    case MustRecord(_) => true
    case _ => false
  }

  predicate RecordsAt(s: Race, a: Action) {
    || (a.Next? && a.r in s.pcs && Records(s.at, s.pcs[a.r]))
    || (a.SucceededEvent? && s.at.row.Some? && !s.at.row.value.cancelled && StatusOf(s.at, a.p).Succeeded?
        && (s.at.row.value.status.UNPAID? || Hold(s.at.row.value.status)))
  }

  /** The statements that put something else in its place: the attach write, a reconcile write of a failure, the mark
      of a released hold, and the deletes. */
  predicate Undoes(s: Shared, pc: Pc) {
    match pc
    case MustAttach(_, p) => p in s.intents
    case MustWrite(_, paid) => !paid
    case MustMarkReleased => true
    case MustDelete(_) => true
    case MustHandBack(payer) => payer.ByCreate?
    case _ => false
  }

  predicate UndoesAt(s: Race, a: Action) { a.Next? && a.r in s.pcs && Undoes(s.at, s.pcs[a.r]) }

  lemma StepMoney(s: Shared, pc: Pc, luck: Luck)
    requires SharedInv(s) && PcOk(s, pc)
    ensures MoneyNow(Step(s, pc, luck).at) <==> Records(s, pc) || (MoneyNow(s) && !Undoes(s, pc))
  {
    hide Forward, BooksInv, DoRead, DoCancel, DoCreate, DoLookUp, DoRelease, DoRefund;
    if LeavesTheRow(pc) { CallsLeaveTheRow(s, pc, luck); }
  }

  lemma MoneyStep(s: Race, a: Action)
    requires RaceInv(s)
    ensures MoneyNow(Act(s, a).at) <==> RecordsAt(s, a) || (MoneyNow(s.at) && !UndoesAt(s, a))
  {
    hide Step, Records, Undoes, SharedInv, PcOk;
    if a.Next? && a.r in s.pcs { StepMoney(s.at, s.pcs[a.r], a.luck); }
  }

  /** The `i`-th action records money that is still there at the end. */
  ghost predicate Lasting(s: Race, actions: seq<Action>, i: nat)
    requires i < |actions|
  {
    && RecordsAt(RunRace(s, actions[..i]), actions[i])
    && forall j | i < j < |actions| :: !UndoesAt(RunRace(s, actions[..j]), actions[j])
  }

  /** A run from a row without money ends with money exactly when it recorded some that nothing afterwards undid. */
  lemma {:induction false} MoneyIff(s: Race, actions: seq<Action>)
    requires RaceInv(s) && !MoneyNow(s.at)
    ensures MoneyNow(RunRace(s, actions).at) <==> exists i | 0 <= i < |actions| :: Lasting(s, actions, i)
    decreases |actions|
  {
    hide Act, MoneyNow, RecordsAt, UndoesAt, RaceInv, Forward;
    if actions != [] {
      var n := |actions| - 1;
      var init, a := actions[..n], actions[n];
      var u := RunRace(s, init);
      assert actions == init + [a];
      RunSnoc(s, init, a);
      RaceKeeps(s, init);
      MoneyIff(s, init);
      MoneyStep(u, a);
      forall i | 0 <= i < n ensures Lasting(s, actions, i) <==> Lasting(s, init, i) && !UndoesAt(u, a) {
        LastingSnoc(s, init, a, i);
      }
      assert Lasting(s, actions, n) <==> RecordsAt(u, a);
    }
  }

  lemma LastingSnoc(s: Race, init: seq<Action>, a: Action, i: nat)
    requires i < |init|
    ensures Lasting(s, init + [a], i) <==> Lasting(s, init, i) && !UndoesAt(RunRace(s, init), a)
  {
    hide RunRace, RecordsAt, UndoesAt;
    var all := init + [a];
    assert forall j | 0 <= j <= |init| :: all[..j] == init[..j];
    assert all[..|init|] == init && all[|init|] == a;
    if Lasting(s, all, i) {
      assert !UndoesAt(RunRace(s, all[..|init|]), all[|init|]);
      assert forall j | i < j < |init| :: !UndoesAt(RunRace(s, all[..j]), all[j]);
    }
  }

  /** What a request read stays with it until it is done. */
  ghost predicate StillWith(s: Race, r: Id, read: Row) {
    r in s.pcs && s.pcs[r] in {MustCancel(read), MustMark(read), MustDelete(read), Done}
  }

  lemma ReadStays(s: Race, a: Action, r: Id, read: Row)
    requires StillWith(s, r, read)
    ensures StillWith(Act(s, a), r, read)
  {
    hide Step, Outside, CancelCall;
    if a.Next? && a.r == r { StepIs(s.at, s.pcs[r], a.luck); }
  }

  lemma {:induction false} ReadKept(s: Race, actions: seq<Action>, r: Id, read: Row)
    requires StillWith(s, r, read)
    ensures StillWith(RunRace(s, actions), r, read)
    decreases actions
  {
    hide Act, StillWith;
    if actions != [] {
      ReadStays(s, actions[0], r, read);
      ReadKept(Act(s, actions[0]), actions[1..], r, read);
    }
  }

  /** The request `r`, of a create, a list or a retry, reads the lapsed hold after `before`, and is about to delete it
      after `during`. */
  ghost predicate AboutToDelete(s: Race, before: seq<Action>, r: Id, luck: Luck, during: seq<Action>) {
    var at := RunRace(s, before);
    && at.at.row.Some? && ReadLapsed(at.at, at.at.row.value)
    && r in at.pcs && at.pcs[r].MustRead?
    && (at.pcs[r].what.Releases?
        || (at.pcs[r].what.Retries? && at.at.deskLive && !at.at.row.value.cancelled && at.at.row.value.status.FAILED?))
    && var end := RunRace(Act(at, Next(r, luck)), during);
       r in end.pcs && end.pcs[r].MustDelete?
  }

  /** Exactly when a release deletes money. In every run of everything the system does, the delete takes a row that
      carries money away if and only if, between the read and the delete, some statement recorded money that none
      afterwards undid; and that money came in through an intent other than the one the request had read, which is
      cancelled or absent. */
  lemma MoneyIsDeletedIff(s: Race, before: seq<Action>, r: Id, luck: Luck, during: seq<Action>)
    requires Start(s) && AboutToDelete(s, before, r, luck, during)
    ensures var read := RunRace(s, before).at.row.value;
            var start := Act(RunRace(s, before), Next(r, luck));
            var end := RunRace(start, during);
            && Act(end, Next(r, luck)).at.row.None?
            && (MoneyNow(end.at) <==> exists i | 0 <= i < |during| :: Lasting(start, during, i))
            && (forall i | 0 <= i < |during| && Lasting(start, during, i) ::
                  var paid := RunRace(start, during[..i + 1]).at.paid; paid.Some? && paid != read.intent)
            && (MoneyNow(end.at) ==> end.at.paid.Some? && end.at.paid != read.intent && StatusOf(end.at, end.at.paid.value).Succeeded?)
            && (read.intent.Some? ==> StatusOf(end.at, read.intent.value).Canceled?)
  {
    hide Act, PcOk, Lasting, SharedInv, Forward, StillWith, MoneyNow;
    var at := RunRace(s, before);
    var start := Act(at, Next(r, luck));
    var end := RunRace(start, during);
    var read := at.at.row.value;
    StartOk(s);
    RaceKeeps(s, before);
    ActKeeps(at, Next(r, luck));
    ReadIsLapsed(at, r, luck);
    RaceKeeps(start, during);
    ReadKept(start, during, r, read);
    MoneyIff(start, during);
    AtTheDelete(end, r, read, luck);
    forall i | 0 <= i < |during| && Lasting(start, during, i)
      ensures var paid := RunRace(start, during[..i + 1]).at.paid; paid.Some? && paid != read.intent
    {
      PaymentLasts(start, during, i);
    }
  }

  lemma ReadIsLapsed(at: Race, r: Id, luck: Luck)
    requires at.at.row.Some? && ReadLapsed(at.at, at.at.row.value) && r in at.pcs && at.pcs[r].MustRead?
    requires at.pcs[r].what.Releases?
             || (at.pcs[r].what.Retries? && at.at.deskLive && !at.at.row.value.cancelled && at.at.row.value.status.FAILED?)
    ensures var t := Act(at, Next(r, luck));
            StillWith(t, r, at.at.row.value) && t.at.row == at.at.row && !MoneyNow(t.at)
  {
    hide Step;
    NextIs(at, r, luck);
    StepIs(at.at, at.pcs[r], luck);
  }

  lemma AtTheDelete(s: Race, r: Id, read: Row, luck: Luck)
    requires RaceInv(s) && StillWith(s, r, read) && s.pcs[r].MustDelete?
    ensures s.pcs[r] == MustDelete(read) && Hold(read.status)
    ensures Act(s, Next(r, luck)).at.row.None?
    ensures read.intent.Some? ==> StatusOf(s.at, read.intent.value).Canceled?
    ensures MoneyNow(s.at) ==> s.at.paid.Some? && s.at.paid != read.intent && StatusOf(s.at, s.at.paid.value).Succeeded?
  {
    hide Step;
    assert PcOk(s.at, s.pcs[r]);
    NextIs(s, r, luck);
    StepIs(s.at, s.pcs[r], luck);
  }

  /** Money that is recorded and lasts names, from then on, an intent that has succeeded for good. */
  lemma PaymentLasts(s: Race, actions: seq<Action>, i: nat)
    requires RaceInv(s) && i < |actions| && Lasting(s, actions, i)
    ensures var paid := RunRace(s, actions[..i + 1]).at.paid;
            paid.Some? && StatusOf(RunRace(s, actions).at, paid.value).Succeeded?
  {
    hide Act, RecordsAt, UndoesAt, RaceInv, Forward;
    var u := RunRace(s, actions[..i]);
    RaceKeeps(s, actions[..i]);
    assert actions[..i + 1] == actions[..i] + [actions[i]];
    RunSnoc(s, actions[..i], actions[i]);
    var t := RunRace(s, actions[..i + 1]);
    RaceKeeps(s, actions[..i + 1]);
    MoneyStep(u, actions[i]);
    RunConcat(s, actions[..i + 1], actions[i + 1..]);
    assert actions[..i + 1] + actions[i + 1..] == actions;
    RaceKeeps(t, actions[i + 1..]);
    SecuredStays(t, RunRace(s, actions));
  }

  lemma SecuredStays(t: Race, u: Race)
    requires RaceInv(t) && Forward(t.at, u.at) && MoneyNow(t.at)
    ensures t.at.paid.Some? && StatusOf(u.at, t.at.paid.value).Succeeded?
  {
  }

  // ------------------------------------------------------- what a guard sees

  /** A PAID row that names another intent than the one it was paid through. */
  predicate Mismatch(s: Shared) { s.row.Some? && s.row.value.status.PAID? && s.row.value.intent != s.paid }

  lemma StepMismatch(s: Shared, pc: Pc, luck: Luck)
    requires SharedInv(s) && PcOk(s, pc) && !Mismatch(s)
    ensures Mismatch(Step(s, pc, luck).at)
      <==> s.row.Some?
           && ((pc.MustMark? && Hold(s.row.value.status) && pc.read.intent != s.row.value.intent)
               || (pc.MustWrite? && pc.paid && s.row.value.intent != Some(pc.q)))
  {
    hide Forward, BooksInv, DoCancel, DoCreate, DoLookUp, DoRelease, DoRefund, AfterRead;
    if LeavesTheRow(pc) {
      CallsLeaveTheRow(s, pc, luck);
      CallsLeavePaid(s, pc, luck);
    }
  }

  lemma CallsLeavePaid(s: Shared, pc: Pc, luck: Luck)
    requires LeavesTheRow(pc)
    ensures Step(s, pc, luck).at.paid == s.paid
  {
    hide AfterRead, CancelCall;
  }

  /** Exactly the last-second mark and the reconcile write of a payment leave such a row, when the row has come to
      name another intent since they read it; the webhook never does. */
  lemma WhoLeavesAMismatch(s: Race, a: Action)
    requires RaceInv(s) && !Mismatch(s.at)
    ensures Mismatch(Act(s, a).at)
      <==> && s.at.row.Some? && a.Next? && a.r in s.pcs
           && var b, pc := s.at.row.value, s.pcs[a.r];
              || (pc.MustMark? && Hold(b.status) && pc.read.intent != b.intent)
              || (pc.MustWrite? && pc.paid && b.intent != Some(pc.q))
  {
    hide Step, SharedInv, PcOk;
    if a.Next? && a.r in s.pcs { StepMismatch(s.at, s.pcs[a.r], a.luck); }
  }

  /** In every run, a delete that also tested the status it had read would take no money away; one that tested the
      intent would take a PAID row away only if that row named another intent than the one it was paid through. */
  lemma WhatGuardsSee(s: Race, before: seq<Action>, r: Id, luck: Luck, during: seq<Action>)
    requires Start(s) && AboutToDelete(s, before, r, luck, during)
    requires RunRace(Act(RunRace(s, before), Next(r, luck)), during).at.row.Some?
    ensures var read := RunRace(s, before).at.row.value;
            var end := RunRace(Act(RunRace(s, before), Next(r, luck)), during).at;
            && (end.row.value.status == read.status ==> !MoneyNow(end))
            && (end.row.value.intent == read.intent && end.row.value.status.PAID? ==> Mismatch(end))
  {
    hide Act, Lasting;
    MoneyIsDeletedIff(s, before, r, luck, during);
  }

  // ---------------------------------------------------------- a run that does

  /** A payment was declined, so the booking is FAILED behind an intent that the member can still pay. */
  ghost predicate Declined(s: Race, p: Id) {
    && Start(s) && s.pcs == map[] && s.at.row.value.status.FAILED? && s.at.row.value.intent == Some(p)
    && !Lapsed(s.at.row.value, s.at.now) && s.at.intents[p] == Charge(Open, true)
  }

  const Retry: seq<Action> := [Begin(0, Retries), Next(0, FINE), Next(0, FINE), Next(0, FINE)]
  const Lapse: seq<Action> := [Next(0, FINE), Tick(16 * 60 * 1000), Begin(1, Releases), Next(1, FINE)]

  function PaidMeanwhile(p: Id): seq<Action> { [Move(p, Succeeded), Next(1, FINE), SucceededEvent(p), Crash(0)] }

  /** The retry claims the booking and has a second intent made. */
  lemma AfterRetry(s: Race, p: Id)
    requires Declined(s, p)
    ensures var row := s.at.row.value;
            RunRace(s, Retry)
            == Race(s.at.(row := Some(row.(status := PENDING, holdExpiresAt := Some(s.at.now + HOLD_MS))),
                          intents := s.at.intents[s.at.nextIntent := Charge(Open, false)], nextIntent := s.at.nextIntent + 1),
                    map[0 := MustAttach(ByRetry(row), s.at.nextIntent)])
  {
    hide RunRace, Act, Step;
    var row := s.at.row.value;
    FourSteps(s, Begin(0, Retries), Next(0, FINE), Next(0, FINE), Next(0, FINE));
    ReadNow(s, 0, Retries, FINE);
    var s2 := Race(s.at, map[0 := MustClaim(row)]);
    NextIs(s2, 0, FINE);
    StepIs(s2.at, MustClaim(row), FINE);
    var s3 := Race(s.at.(row := Some(row.(status := PENDING, holdExpiresAt := Some(s.at.now + HOLD_MS)))),
                   map[0 := MustCreate(ByRetry(row))]);
    assert Act(s2, Next(0, FINE)) == s3;
    NextIs(s3, 0, FINE);
    StepIs(s3.at, MustCreate(ByRetry(row)), FINE);
  }

  /** It attaches it and leaves the first one open; sixteen minutes later a create reads the hold as lapsed. */
  lemma AfterLapse(s: Race, payer: Payer, q: Id, row: Row)
    requires s.pcs == map[0 := MustAttach(payer, q)] && s.at.row == Some(row) && q in s.at.intents && s.at.intents[q] == Charge(Open, false)
    ensures var held := row.(status := PENDING, holdExpiresAt := Some(s.at.now + HOLD_MS), intent := Some(q));
            RunRace(s, Lapse)
            == Race(s.at.(row := Some(held), intents := s.at.intents[q := Charge(Open, true)], now := s.at.now + 16 * 60 * 1000),
                    map[0 := Done, 1 := MustCancel(held)])
  {
    hide RunRace, Act, Step;
    FourSteps(s, Next(0, FINE), Tick(16 * 60 * 1000), Begin(1, Releases), Next(1, FINE));
    NextIs(s, 0, FINE);
    StepIs(s.at, s.pcs[0], FINE);
    var s1 := Act(s, Next(0, FINE));
    assert s1.pcs == map[0 := Done];
    TickIs(s1, 16 * 60 * 1000);
    ReadNow(Act(s1, Tick(16 * 60 * 1000)), 1, Releases, FINE);
  }

  /** The member pays the first intent; the release cancels the second; the event of the first comes in. */
  lemma AfterPaid(s: Race, p: Id, q: Id, held: Row)
    requires s.pcs == map[0 := Done, 1 := MustCancel(held)] && s.at.row == Some(held) && !held.cancelled && held.status.PENDING?
    requires p != q && held.intent == Some(q) && p in s.at.intents && q in s.at.intents
    requires s.at.intents[p] == Charge(Open, true) && s.at.intents[q] == Charge(Open, true)
    ensures var t := RunRace(s, PaidMeanwhile(p));
            && t.at.row == Some(held.(status := PAID, holdExpiresAt := None, intent := Some(p)))
            && t.pcs == map[0 := Done, 1 := MustDelete(held)] && StatusOf(t.at, p).Succeeded?
  {
    hide RunRace, Act, Step;
    FourSteps(s, Move(p, Succeeded), Next(1, FINE), SucceededEvent(p), Crash(0));
    MoveIs(s, p, Succeeded);
    var s1 := Act(s, Move(p, Succeeded));
    assert s1 == s.(at := s.at.(intents := s.at.intents[p := Charge(Succeeded, true)]));
    NextIs(s1, 1, FINE);
    StepIs(s1.at, MustCancel(held), FINE);
    var s2 := Act(s1, Next(1, FINE));
    assert s2.pcs == map[0 := Done, 1 := MustDelete(held)] && s2.at.row == s.at.row && StatusOf(s2.at, p).Succeeded?;
    EventIs(s2, p);
    CrashIs(Act(s2, SucceededEvent(p)), 0);
  }

  /** From every declined booking: the first intent is paid after the retry, its event arrives while the release is
      cancelling the second, the row is PAID, and the delete takes it away, charge and all. */
  lemma PaymentCanBeDeleted(s: Race, p: Id)
    requires Declined(s, p)
    ensures var t := RunRace(RunRace(RunRace(s, Retry), Lapse), PaidMeanwhile(p));
            && t.at.row.Some? && t.at.row.value.status.PAID? && t.at.row.value.intent == Some(p)
            && StatusOf(t.at, p).Succeeded? && Act(t, Next(1, FINE)).at.row.None?
  {
    hide RunRace, Act, Step, Retry, Lapse, PaidMeanwhile;
    AfterRetry(s, p);
    var s1 := RunRace(s, Retry);
    AfterLapse(s1, ByRetry(s.at.row.value), s.at.nextIntent, s1.at.row.value);
    var s2 := RunRace(s1, Lapse);
    AfterPaid(s2, p, s.at.nextIntent, s2.at.row.value);
    var t := RunRace(s2, PaidMeanwhile(p));
    NextIs(t, 1, FINE);
    StepIs(t.at, t.pcs[1], FINE);
  }
}
