/** Refunds under every interleaving: no booking is refunded twice, exactly which statements take its status back,
    and exactly which make an owed refund unretryable. */
module RefundRace {
  import opened Schema
  import opened StripeCalls
  import opened BookingRace

  // ---------------------------------------------------------------- money

  function Total(log: seq<int>): int { if log == [] then 0 else log[0] + Total(log[1..]) }

  /** What Stripe took for the booking, through whatever intents. */
  function Charged(s: Shared): int {
    s.price * |set p | p in s.intents && s.intents[p].status.Succeeded?|
  }

  lemma OneChargeAtLeast(s: Shared, p: Id)
    requires s.price > 0 && StatusOf(s, p).Succeeded?
    ensures Charged(s) >= s.price
  {
    var paid := set q | q in s.intents && s.intents[q].status.Succeeded?;
    assert p in paid;
    assert |paid| >= 1;
    assert s.price * |paid| >= s.price * 1;
  }

  /** In every interleaving of everything the system does, the refunds carried out for a booking are at most one, of
      a charge that succeeded, and add up to no more than Stripe took; REFUNDED is only written over a refund that
      was issued, in full; and a row that says a refund is owed is one that a refund retry accepts. */
  lemma RefundedAtMostOnce(s: Race, actions: seq<Action>)
    requires Start(s)
    ensures var t := RunRace(s, actions).at;
            && |t.log| <= 1 && Total(t.log) <= Charged(t)
            && (t.kept.Some? ==> StatusOf(t, t.kept.value.intent).Succeeded?)
            && (t.row.Some? && t.row.value.status.REFUNDED? ==>
                  t.row.value.refundedCents == Some(s.at.price) && Total(t.log) == s.at.price
                  && t.kept.Some? && !t.kept.value.status.RefundDeclined?)
            && (t.row.Some? && (t.row.value.status.REFUND_PENDING? || t.row.value.status.REFUND_FAILED?) ==> Owed(t.row.value))
  {
    hide Act, RunRace, Charged;
    StartOk(s);
    RaceKeeps(s, actions);
    var t := RunRace(s, actions).at;
    assert Total([t.price]) == t.price + Total([]);
    if t.kept.Some? { OneChargeAtLeast(t, t.kept.value.intent); } else { assert Charged(t) >= 0 by { ChargedNotNegative(t); } }
  }

  lemma ChargedNotNegative(s: Shared)
    requires s.price > 0
    ensures Charged(s) >= 0
  {
  }

  // ---------------------------------------------------------- refund retry

  function OneRetry(r: Id, luck: Luck): seq<Action> {
    [Begin(r, RetryTheRefund), Next(r, luck), Next(r, luck), Next(r, luck)]
  }

  /** Whether a refund of intent `p` goes through: the answer under the key decides, or, if the key is still unused,
      whether the intent was charged and how the new refund starts out. */
  predicate Refundable(s: Shared, p: Id, luck: Luck) {
    if s.kept.Some? then s.kept.value.intent == p && !s.kept.value.status.RefundDeclined?
    else StatusOf(s, p).Succeeded? && !luck.refundStatus.RefundDeclined?
  }

  lemma OneRetryEffect(t: Race, r: Id, luck: Luck)
    requires r !in t.pcs && luck.fault.Fine? && t.at.row.Some? && Owed(t.at.row.value)
    ensures var v := RunRace(t, OneRetry(r, luck)).at;
            var p := t.at.row.value.intent.value;
            && v.log == (if t.at.kept.None? && StatusOf(t.at, p).Succeeded? then t.at.log + [t.at.price] else t.at.log)
            && v.row.Some?
            && v.row.value.status == if Refundable(t.at, p, luck) then REFUNDED else REFUND_FAILED
  {
    hide RunRace;
    FourSteps(t, Begin(r, RetryTheRefund), Next(r, luck), Next(r, luck), Next(r, luck));
    ReadNow(t, r, RetryTheRefund, luck);
    var p := t.at.row.value.intent.value;
    var t2 := Race(t.at, t.pcs[r := MustRefund(p)]);
    var t3 := Act(t2, Next(r, luck));
    assert t3.at.row == t.at.row && t3.pcs[r].MustRecord?;
  }

  /** Wherever a run was left, one refund retry that gets through settles an owed refund exactly when the answer
      under the booking's key is an issued refund of the intent on the row, or the key is unused and that intent was
      charged; and over the whole run the money goes back once at most. */
  lemma RetrySettles(s: Race, actions: seq<Action>, r: Id, luck: Luck)
    requires Start(s) && luck.fault.Fine?
    requires var t := RunRace(s, actions); r !in t.pcs && t.at.row.Some? && Owed(t.at.row.value)
    ensures var t := RunRace(s, actions);
            var v := RunRace(t, OneRetry(r, luck)).at;
            && v.row.Some? && |v.log| <= 1
            && v.row.value.status == (if Refundable(t.at, t.at.row.value.intent.value, luck) then REFUNDED else REFUND_FAILED)
            && (v.row.value.status.REFUNDED? ==> v.log == [s.at.price])
  {
    hide Act, RunRace;
    StartOk(s);
    RaceKeeps(s, actions);
    OneRetryEffect(RunRace(s, actions), r, luck);
  }

  // ------------------------------------------------ when the status goes back

  /** The next statement of a request that lowers the rank of the status. */
  predicate Lowers(s: Shared, pc: Pc) {
    s.row.Some? &&
    var status := s.row.value.status;
    match pc
    case MustCommit(what, saw) => status.REFUNDED? && TargetLive(s, what) && saw.Some? && saw.value.status.PAID?
    case MustMarkLate(_) => status.REFUNDED?
    case MustRecord(answer) => status.REFUNDED? && answer.Threw?
    case MustMarkReleased => Rank(status) >= 1
    case MustAttach(_, p) => Rank(status) >= 1 && p in s.intents
    case MustWrite(_, paid) => if paid then Rank(status) >= 2 else Rank(status) >= 1
    case _ => false
  }

  predicate Falls(s: Shared, t: Shared) {
    s.row.Some? && t.row.Some? && Rank(t.row.value.status) < Rank(s.row.value.status)
  }

  lemma StepLowers(s: Shared, pc: Pc, luck: Luck)
    requires SharedInv(s) && PcOk(s, pc)
    ensures Falls(s, Step(s, pc, luck).at) <==> Lowers(s, pc)
  {
    hide Forward, BooksInv, DoRead, DoCancel, DoCreate, DoLookUp, DoRelease, DoRefund;
    if LeavesTheRow(pc) { CallsLeaveTheRow(s, pc, luck); }
  }

  lemma OutsideRaises(s: Shared, a: Action)
    ensures !Falls(s, Outside(s, a))
  {
  }

  /** Over everything that runs, exactly six kinds of statement take a status back: the commit of a delete that had
      read the booking as PAID, the mark of a late payment, and the record of a refund that got no answer, each over
      REFUNDED; the mark of a released hold and the attach write, over any money; the reconcile write, of a failure
      over any money, of a payment over any refund status. */
  lemma WhenStatusGoesBack(s: Race, a: Action)
    requires RaceInv(s)
    ensures Falls(s.at, Act(s, a).at) <==> a.Next? && a.r in s.pcs && Lowers(s.at, s.pcs[a.r])
  {
    hide Step, Outside, Lowers, SharedInv, PcOk;
    if a.Next? && a.r in s.pcs { StepLowers(s.at, s.pcs[a.r], a.luck); }
    OutsideRaises(s.at, a);
  }

  predicate PaidYetCancelled(s: Shared) { s.row.Some? && s.row.value.status.PAID? && s.row.value.cancelled }

  /** A cancelled booking is PAID, which no handler ever refunds, exactly after the last-second mark or the reconcile
      write has hit a cancelled row, or a delete has cancelled a booking that was paid since it was read. */
  lemma PaidYetCancelledIff(s: Race, a: Action)
    requires RaceInv(s) && s.at.row.Some? && !PaidYetCancelled(s.at)
    ensures PaidYetCancelled(Act(s, a).at)
      <==> && a.Next? && a.r in s.pcs
           && var b, pc := s.at.row.value, s.pcs[a.r];
              || (pc.MustMark? && b.cancelled && Hold(b.status))
              || (pc.MustWrite? && pc.paid && b.cancelled)
              || (pc.MustCommit? && TargetLive(s.at, pc.what) && pc.saw.Some? && !pc.saw.value.status.PAID? && b.status.PAID?)
  {
    hide Forward, BooksInv, DoRead, DoCancel, DoCreate, DoLookUp, DoRelease, DoRefund;
    if a.Next? && a.r in s.pcs {
      var pc := s.pcs[a.r];
      assert PcOk(s.at, pc);
      if LeavesTheRow(pc) { CallsLeaveTheRow(s.at, pc, a.luck); }
    }
  }

  // -------------------------------------------- when an owed refund is lost

  /** Refunded, or waiting for a refund that can be retried. */
  predicate InHand(s: Shared) { s.row.Some? && (Owed(s.row.value) || s.row.value.status.REFUNDED?) }

  /** The statements that write over a refund, owed or made: the attach and reconcile writes, the mark of a released
      hold, and the deletes. */
  predicate Overwrites(s: Shared, pc: Pc) {
    match pc
    case MustAttach(_, p) => p in s.intents
    case MustWrite(_, _) => true
    case MustMarkReleased => true
    case MustDelete(_) => true
    case MustHandBack(payer) => payer.ByCreate?
    case _ => false
  }

  predicate OverwritesAt(s: Race, a: Action) { a.Next? && a.r in s.pcs && Overwrites(s.at, s.pcs[a.r]) }

  /** One statement makes an owed refund unretryable exactly when it is one of these, or it records the refund. */
  lemma OwedStopsIff(s: Race, a: Action)
    requires RaceInv(s) && s.at.row.Some? && Owed(s.at.row.value)
    ensures var t := Act(s, a).at;
            !(t.row.Some? && Owed(t.row.value))
            <==> OverwritesAt(s, a)
                 || (a.Next? && a.r in s.pcs && s.pcs[a.r].MustRecord?
                     && s.pcs[a.r].answer.Returned? && !s.pcs[a.r].answer.value.RefundDeclined?)
  {
    hide Forward, BooksInv, DoRead, DoCancel, DoCreate, DoLookUp, DoRelease, DoRefund;
    if a.Next? && a.r in s.pcs {
      var pc := s.pcs[a.r];
      assert PcOk(s.at, pc);
      if LeavesTheRow(pc) { CallsLeaveTheRow(s.at, pc, a.luck); }
    }
  }

  lemma InHandStep(s: Race, a: Action)
    requires RaceInv(s) && InHand(s.at)
    ensures InHand(Act(s, a).at) <==> !OverwritesAt(s, a)
  {
    hide Forward, BooksInv, DoRead, DoCancel, DoCreate, DoLookUp, DoRelease, DoRefund;
    if a.Next? && a.r in s.pcs {
      var pc := s.pcs[a.r];
      assert PcOk(s.at, pc);
      if LeavesTheRow(pc) { CallsLeaveTheRow(s.at, pc, a.luck); }
    }
  }

  ghost predicate AlwaysInHand(s: Race, actions: seq<Action>) {
    forall i | 0 <= i <= |actions| :: InHand(RunRace(s, actions[..i]).at)
  }

  ghost predicate NeverOverwritten(s: Race, actions: seq<Action>) {
    forall i | 0 <= i < |actions| :: !OverwritesAt(RunRace(s, actions[..i]), actions[i])
  }

  lemma AlwaysCons(s: Race, actions: seq<Action>)
    requires actions != []
    ensures AlwaysInHand(s, actions) <==> InHand(s.at) && AlwaysInHand(Act(s, actions[0]), actions[1..])
    ensures NeverOverwritten(s, actions)
      <==> !OverwritesAt(s, actions[0]) && NeverOverwritten(Act(s, actions[0]), actions[1..])
  {
    hide Act, InHand, OverwritesAt;
    var t, rest := Act(s, actions[0]), actions[1..];
    forall i | 0 <= i <= |rest| ensures RunRace(s, actions[..i + 1]) == RunRace(t, rest[..i]) {
      assert actions[..i + 1][1..] == rest[..i];
    }
    assert actions[..0] == [] && RunRace(s, []) == s;
    if AlwaysInHand(s, actions) {
      forall i | 0 <= i <= |rest| ensures InHand(RunRace(t, rest[..i]).at) { assert InHand(RunRace(s, actions[..i + 1]).at); }
      assert InHand(RunRace(s, actions[..0]).at);
    }
    if InHand(s.at) && AlwaysInHand(t, rest) {
      forall i | 0 <= i <= |actions| ensures InHand(RunRace(s, actions[..i]).at) {
        if i > 0 { assert InHand(RunRace(t, rest[..i - 1]).at) && actions[..(i - 1) + 1] == actions[..i]; }
      }
    }
    if NeverOverwritten(s, actions) {
      forall i | 0 <= i < |rest| ensures !OverwritesAt(RunRace(t, rest[..i]), rest[i]) {
        assert !OverwritesAt(RunRace(s, actions[..i + 1]), actions[i + 1]);
      }
      assert !OverwritesAt(RunRace(s, actions[..0]), actions[0]);
    }
    if !OverwritesAt(s, actions[0]) && NeverOverwritten(t, rest) {
      forall i | 0 <= i < |actions| ensures !OverwritesAt(RunRace(s, actions[..i]), actions[i]) {
        if i > 0 { assert !OverwritesAt(RunRace(t, rest[..i - 1]), rest[i - 1]) && actions[..(i - 1) + 1] == actions[..i]; }
      }
    }
  }

  /** Along any run a refund stays owed and retryable, or made, exactly as long as none of those statements lands. */
  lemma {:induction false} RefundStaysInHandIff(s: Race, actions: seq<Action>)
    requires RaceInv(s) && InHand(s.at)
    ensures AlwaysInHand(s, actions) <==> NeverOverwritten(s, actions)
    decreases actions
  {
    hide Act, InHand, OverwritesAt, AlwaysInHand, NeverOverwritten, RaceInv, Forward;
    if actions == [] {
      NothingRun(s);
    } else {
      var t := Act(s, actions[0]);
      AlwaysCons(s, actions);
      ActKeeps(s, actions[0]);
      InHandStep(s, actions[0]);
      if InHand(t.at) { RefundStaysInHandIff(t, actions[1..]); } else { NotInHand(t, actions[1..]); }
    }
  }

  lemma NothingRun(s: Race)
    requires InHand(s.at)
    ensures AlwaysInHand(s, []) && NeverOverwritten(s, [])
  {
  }

  lemma NotInHand(s: Race, actions: seq<Action>)
    requires !InHand(s.at)
    ensures !AlwaysInHand(s, actions)
  {
    hide InHand;
    assert actions[..0] == [] && RunRace(s, actions[..0]) == s;
  }

  // ---------------------------------------------------------- runs that do it

  /** A hold whose intent the member can still pay, on a booking that lies ahead. */
  ghost predicate OpenHold(s: Race, p: Id) {
    && Start(s) && s.pcs == map[] && s.at.end > s.at.now
    && s.at.row.value.status.PENDING? && s.at.row.value.intent == Some(p)
    && s.at.row.value.holdExpiresAt.Some? && s.at.row.value.holdExpiresAt.value > s.at.now
    && s.at.intents[p] == Charge(Open, true)
  }

  /** A list reads the booking and looks its payment up, just as it comes in. */
  function Looking(p: Id): seq<Action> { [Begin(0, Reconciles), Next(0, FINE), Move(p, Succeeded), Next(0, FINE)] }

  /** A delete of the desk commits and finds the late payment. */
  const Deleting: seq<Action> := [Begin(1, DeleteDesk), Next(1, FINE), Next(1, FINE), Next(1, FINE)]

  /** It marks the payment late and asks for its refund. */
  function Refunding(luck: Luck): seq<Action> { [Next(1, FINE), Next(1, luck), Next(1, luck), Crash(1)] }

  lemma AfterLooking(s: Race, p: Id)
    requires OpenHold(s, p)
    ensures RunRace(s, Looking(p))
            == Race(s.at.(intents := s.at.intents[p := Charge(Succeeded, true)]), map[0 := MustWrite(p, true)])
  {
    hide RunRace, Act, Step;
    FourSteps(s, Begin(0, Reconciles), Next(0, FINE), Move(p, Succeeded), Next(0, FINE));
    ReadNow(s, 0, Reconciles, FINE);
    var s2 := Race(s.at, map[0 := MustLookUp(p)]);
    MoveIs(s2, p, Succeeded);
    var s3 := Race(s.at.(intents := s.at.intents[p := Charge(Succeeded, true)]), s2.pcs);
    NextIs(s3, 0, FINE);
    StepIs(s3.at, MustLookUp(p), FINE);
  }

  lemma AfterDeleting(s: Race, p: Id, row: Row)
    requires s.pcs.Keys == {0} && s.at.row == Some(row) && s.at.deskLive && s.at.zoneLive && Active(s.at, row, s.at.now)
    requires row.status.PENDING? && row.intent == Some(p) && p in s.at.intents && s.at.intents[p] == Charge(Succeeded, true)
    ensures RunRace(s, Deleting)
            == Race(s.at.(row := Some(row.(cancelled := true, holdExpiresAt := None)), deskLive := false),
                    s.pcs[1 := MustMarkLate(p)])
  {
    hide RunRace, Act, Step, Active;
    FourSteps(s, Begin(1, DeleteDesk), Next(1, FINE), Next(1, FINE), Next(1, FINE));
    ReadNow(s, 1, DeleteDesk, FINE);
    var s2 := Race(s.at, s.pcs[1 := MustCommit(DeleteDesk, Some(row))]);
    NextIs(s2, 1, FINE);
    StepIs(s2.at, s2.pcs[1], FINE);
    var after := s.at.(row := Some(row.(cancelled := true, holdExpiresAt := None)), deskLive := false);
    var s3 := Race(after, s.pcs[1 := MustRelease(p)]);
    assert s2.pcs[1 := MustRelease(p)] == s3.pcs;
    NextIs(s3, 1, FINE);
    StepIs(after, MustRelease(p), FINE);
    assert after.intents[p := Charge(Succeeded, true)] == after.intents;
    assert s3.pcs[1 := MustMarkLate(p)] == s.pcs[1 := MustMarkLate(p)];
  }

  lemma LateMarked(s: Race, p: Id, row: Row)
    requires 1 in s.pcs && s.pcs[1] == MustMarkLate(p) && s.at.row == Some(row)
    ensures Act(s, Next(1, FINE)) == Race(Put(s.at, row.(status := REFUND_PENDING)).(paid := Some(p)), s.pcs[1 := MustRefund(p)])
  {
    hide Step;
    NextIs(s, 1, FINE);
    StepIs(s.at, s.pcs[1], FINE);
  }

  lemma RefundAsked(s: Race, p: Id, luck: Luck)
    requires 1 in s.pcs && s.pcs[1] == MustRefund(p) && s.at.kept.None? && StatusOf(s.at, p).Succeeded?
    ensures var t := Act(s, Next(1, luck));
            && t.pcs == s.pcs[1 := t.pcs[1]] && t.at.row == s.at.row && t.at.intents == s.at.intents
            && t.pcs[1].MustRecord?
            && (luck.fault.NoReply? ==> t.pcs[1].answer.Threw? && t.at.log == s.at.log)
            && (luck.fault.Fine? ==> t.pcs[1].answer == Returned(luck.refundStatus))
  {
    hide Step;
    NextIs(s, 1, luck);
    StepIs(s.at, s.pcs[1], luck);
  }

  lemma AfterRefunding(s: Race, p: Id, row: Row, luck: Luck)
    requires s.pcs.Keys == {0, 1} && s.pcs[1] == MustMarkLate(p) && s.at.row == Some(row) && row.cancelled && row.intent == Some(p)
    requires s.at.kept.None? && StatusOf(s.at, p).Succeeded?
    ensures var t := RunRace(s, Refunding(luck));
            && t.pcs.Keys == {0, 1} && t.pcs[0] == s.pcs[0] && t.at.row.Some? && InHand(t.at)
            && t.at.row.value.cancelled && t.at.row.value.intent == Some(p)
            && t.at.intents == s.at.intents
            && (luck.fault.NoReply? ==> Owed(t.at.row.value) && t.at.log == s.at.log)
            && (luck.fault.Fine? ==>
                  t.at.row.value.status == if luck.refundStatus.RefundDeclined? then REFUND_FAILED else REFUNDED)
  {
    hide RunRace, Act, Step, StatusOf, DoRead, DoCancel, DoMark, DoClaim, DoCreate, DoAttach, DoHandBack, DoLookUp, DoWrite,
      DoCommit, DoRelease, DoMarkReleased;
    FourSteps(s, Next(1, FINE), Next(1, luck), Next(1, luck), Crash(1));
    LateMarked(s, p, row);
    var s1 := Act(s, Next(1, FINE));
    SameStatus(s.at, s1.at, p);
    RefundAsked(s1, p, luck);
    var s2 := Act(s1, Next(1, luck));
    NextIs(s2, 1, luck);
    StepIs(s2.at, s2.pcs[1], luck);
    CrashIs(Act(s2, Next(1, luck)), 1);
  }

  /** From every open hold: a list looks the payment up as it comes in, a delete commits, finds it and refunds it,
      or tries to, and the list's write lands last. The row is PAID again, cancelled, and no refund retry accepts
      it: with the refund unanswered, money that was owed is owed no more. */
  lemma ReconcileLosesARefund(s: Race, p: Id, luck: Luck)
    requires OpenHold(s, p)
    ensures var before := RunRace(RunRace(RunRace(s, Looking(p)), Deleting), Refunding(luck));
            var after := Act(before, Next(0, FINE));
            && before.at.row.Some? && InHand(before.at) && (luck.fault.NoReply? ==> Owed(before.at.row.value))
            && after.at.row.Some? && after.at.row.value.status.PAID? && after.at.row.value.cancelled
            && !InHand(after.at) && StatusOf(after.at, p).Succeeded?
            && (luck.fault.NoReply? ==> after.at.log == [])
  {
    hide RunRace, Act, Step, Looking, Deleting, Refunding;
    AfterLooking(s, p);
    var s1 := RunRace(s, Looking(p));
    AfterDeleting(s1, p, s.at.row.value);
    var s2 := RunRace(s1, Deleting);
    AfterRefunding(s2, p, s2.at.row.value, luck);
    var before := RunRace(s2, Refunding(luck));
    NextIs(before, 0, FINE);
    StepIs(before.at, MustWrite(p, true), FINE);
  }

  /** A zone's delete that read the booking as paid, before its desk was deleted and the booking refunded. */
  const BothRead: seq<Action> := [Begin(0, DeleteZone), Next(0, FINE), Begin(1, DeleteDesk), Next(1, FINE)]
  const DeskRefunds: seq<Action> := [Next(1, FINE), Next(1, FINE), Next(1, FINE), Crash(1)]

  ghost predicate PaidAhead(s: Race, p: Id) {
    && Start(s) && s.pcs == map[] && s.at.end > s.at.now && s.at.row.value.status.PAID? && s.at.row.value.intent == Some(p)
  }

  lemma AfterBothRead(s: Race, p: Id)
    requires PaidAhead(s, p)
    ensures var row := s.at.row.value;
            RunRace(s, BothRead) == Race(s.at, map[0 := MustCommit(DeleteZone, Some(row)), 1 := MustCommit(DeleteDesk, Some(row))])
  {
    hide RunRace, Act, Step;
    FourSteps(s, Begin(0, DeleteZone), Next(0, FINE), Begin(1, DeleteDesk), Next(1, FINE));
    ReadNow(s, 0, DeleteZone, FINE);
    ReadNow(Race(s.at, map[0 := MustCommit(DeleteZone, s.at.row)]), 1, DeleteDesk, FINE);
  }

  /** The delete of the desk commits over a booking read as paid, and its refund goes through. */
  lemma AfterDeskRefunds(s: Race, p: Id, row: Row)
    requires 1 in s.pcs && s.pcs[1] == MustCommit(DeleteDesk, Some(row)) && s.at.row == Some(row) && s.at.deskLive
    requires row.status.PAID? && row.intent == Some(p) && s.at.kept.None? && StatusOf(s.at, p).Succeeded?
    ensures var t := RunRace(s, DeskRefunds);
            && t.pcs == s.pcs[1 := Done] && t.at.row.Some? && t.at.row.value.status.REFUNDED? && t.at.zoneLive == s.at.zoneLive
  {
    hide RunRace, Act, Step, StatusOf, DoRead, DoCancel, DoMark, DoClaim, DoCreate, DoAttach, DoHandBack, DoLookUp, DoWrite,
      DoRelease, DoMarkLate, DoMarkReleased;
    FourSteps(s, Next(1, FINE), Next(1, FINE), Next(1, FINE), Crash(1));
    NextIs(s, 1, FINE);
    StepIs(s.at, s.pcs[1], FINE);
    var s1 := Act(s, Next(1, FINE));
    assert s1.pcs == s.pcs[1 := MustRefund(p)] && s1.at.row.Some? && s1.at.intents == s.at.intents;
    SameStatus(s.at, s1.at, p);
    NextIs(s1, 1, FINE);
    StepIs(s1.at, MustRefund(p), FINE);
    var s2 := Act(s1, Next(1, FINE));
    assert s2.pcs == s.pcs[1 := MustRecord(Returned(RefundSucceeded))] && s2.at.row == s1.at.row;
    NextIs(s2, 1, FINE);
    StepIs(s2.at, s2.pcs[1], FINE);
    CrashIs(Act(s2, Next(1, FINE)), 1);
  }

  /** From every paid booking: the commit of the zone takes the REFUNDED row back to REFUND_PENDING. */
  lemma StatusCanGoBack(s: Race, p: Id)
    requires PaidAhead(s, p)
    ensures var t := RunRace(RunRace(s, BothRead), DeskRefunds);
            && t.at.row.Some? && t.at.row.value.status.REFUNDED?
            && var u := Act(t, Next(0, FINE)); u.at.row.Some? && u.at.row.value.status.REFUND_PENDING?
  {
    hide RunRace, Act, Step, BothRead, DeskRefunds;
    AfterBothRead(s, p);
    var m := RunRace(s, BothRead);
    AfterDeskRefunds(m, p, s.at.row.value);
    var t := RunRace(m, DeskRefunds);
    NextIs(t, 0, FINE);
    StepIs(t.at, t.pcs[0], FINE);
  }

  // ---------------------------------------------------- crossing retries

  const BothRetry: seq<Action> := [Begin(2, RetryTheRefund), Next(2, FINE), Begin(3, RetryTheRefund), Next(3, FINE)]
  const OneAnswers: seq<Action> := [Next(2, FINE), Next(3, MUTE), Next(2, FINE), Crash(2)]

  /** A booking that owes a refund through a charged intent, with nobody else at work. */
  ghost predicate OwedAlone(s: Race, p: Id) {
    && s.pcs == map[] && s.at.row.Some? && Owed(s.at.row.value) && s.at.row.value.intent == Some(p)
    && s.at.kept.None? && s.at.log == [] && StatusOf(s.at, p).Succeeded?
  }

  lemma AfterBothRetry(s: Race, p: Id)
    requires OwedAlone(s, p)
    ensures RunRace(s, BothRetry) == Race(s.at, map[2 := MustRefund(p), 3 := MustRefund(p)])
  {
    hide RunRace, Act, Step;
    FourSteps(s, Begin(2, RetryTheRefund), Next(2, FINE), Begin(3, RetryTheRefund), Next(3, FINE));
    ReadNow(s, 2, RetryTheRefund, FINE);
    ReadNow(Race(s.at, map[2 := MustRefund(p)]), 3, RetryTheRefund, FINE);
  }

  lemma AfterOneAnswers(s: Race, p: Id, row: Row)
    requires s.pcs == map[2 := MustRefund(p), 3 := MustRefund(p)] && s.at.row == Some(row)
    requires s.at.kept.None? && s.at.log == [] && StatusOf(s.at, p).Succeeded?
    ensures RunRace(s, OneAnswers)
            == Race(s.at.(row := Some(row.(status := REFUNDED, refundedCents := Some(s.at.price))),
                          log := [s.at.price], kept := Some(Kept(p, RefundSucceeded))),
                    map[2 := Done, 3 := MustRecord(Threw)])
  {
    hide RunRace, Act, Step, StatusOf, DoRead, DoCancel, DoMark, DoClaim, DoCreate, DoAttach, DoHandBack, DoLookUp, DoWrite,
      DoCommit, DoRelease, DoMarkLate, DoMarkReleased;
    FourSteps(s, Next(2, FINE), Next(3, MUTE), Next(2, FINE), Crash(2));
    NextIs(s, 2, FINE);
    StepIs(s.at, MustRefund(p), FINE);
    var s1 := Race(s.at.(log := [s.at.price], kept := Some(Kept(p, RefundSucceeded))),
                   map[2 := MustRecord(Returned(RefundSucceeded)), 3 := MustRefund(p)]);
    assert Act(s, Next(2, FINE)) == s1;
    NextIs(s1, 3, MUTE);
    StepIs(s1.at, MustRefund(p), MUTE);
    var s2 := Race(s1.at, map[2 := MustRecord(Returned(RefundSucceeded)), 3 := MustRecord(Threw)]);
    assert Act(s1, Next(3, MUTE)) == s2;
    NextIs(s2, 2, FINE);
    StepIs(s2.at, s2.pcs[2], FINE);
    CrashIs(Act(s2, Next(2, FINE)), 2);
  }

  /** It takes no delete: of two refund retries, the one whose call got no answer writes REFUND_FAILED over the
      REFUNDED of the other. A further retry, under the same key, gets that same refund back. */
  lemma RetriesCanCross(s: Race, p: Id, luck: Luck)
    requires OwedAlone(s, p) && luck.fault.Fine?
    ensures var t := RunRace(RunRace(s, BothRetry), OneAnswers);
            var u := Act(t, Next(3, FINE));
            var v := RunRace(u, OneRetry(4, luck)).at;
            && t.at.row.Some? && t.at.row.value.status.REFUNDED?
            && u.at.row.Some? && u.at.row.value.status.REFUND_FAILED?
            && v.row.Some? && v.row.value.status.REFUNDED? && v.log == [s.at.price]
  {
    hide RunRace, Act, Step, BothRetry, OneAnswers, OneRetry;
    AfterBothRetry(s, p);
    var m := RunRace(s, BothRetry);
    AfterOneAnswers(m, p, s.at.row.value);
    var t := RunRace(m, OneAnswers);
    NextIs(t, 3, FINE);
    StepIs(t.at, t.pcs[3], FINE);
    OneRetryEffect(Act(t, Next(3, FINE)), 4, luck);
  }
}
