/** Concurrent payment retries on one booking, interleaved statement by statement: any number of requests, in any
    order, each with Stripe accepting, refusing or never answering, and each process free to stop at any point.

    The row carries what the retry path reads and writes. Requests come from the booking's owner, the booking is
    not cancelled, its hold has not lapsed, and no other handler runs. */
module RetryRace {
  import opened Schema

  datatype Row = Row(status: Status, holdExpiresAt: Option<Time>, intent: Option<Id>)

  /** Where one request stands. `before` is the row as it was read. */
  datatype Pc =
    | Arrived
    | HasRead(before: Row)
    | Refused              // the row was PAID or PENDING when it was read
    | LostClaim
    | HasClaimed(before: Row)
    | HasIntent(before: Row, p: Id)
    | MustRevert(before: Row)
    | Won(p: Id)
    | HandedBack
    | Crashed

  /** `calls` counts the Stripe calls of each request, `attached` every intent ever attached. */
  datatype Race = Race(row: Row, pcs: map<Id, Pc>, nextIntent: Id, calls: map<Id, nat>, attached: seq<Id>, stopped: bool)

  datatype Action =
    | Arrive(r: Id)
    | Read(r: Id)
    | Claim(r: Id, now: Time)
    | CallStripe(r: Id, accepted: bool)
    | Attach(r: Id, now: Time)
    | Revert(r: Id)
    | Stop(r: Id)

  function Go(s: Race, r: Id, pc: Pc): Race { s.(pcs := s.pcs[r := pc]) }

  predicate Retryable(row: Row) { row.status.FAILED? || row.status.UNPAID? }

  /** One statement, or one Stripe call, of request `r`; an action that is not due changes nothing. */
  function Act(s: Race, a: Action): Race {
    if a.Arrive? then
      if a.r in s.pcs then s else Go(s, a.r, Arrived).(calls := s.calls[a.r := 0])
    else if a.r !in s.pcs then s
    else
      var pc := s.pcs[a.r];
      match a
      case Arrive(_) => s
      case Read(r) =>
        if !pc.Arrived? then s
        else if Retryable(s.row) then Go(s, r, HasRead(s.row)) else Go(s, r, Refused)
      case Claim(r, now) =>
        if !pc.HasRead? then s
        else if s.row.status != pc.before.status then Go(s, r, LostClaim)
        else Go(s, r, HasClaimed(pc.before)).(row := s.row.(status := PENDING, holdExpiresAt := Some(now + HOLD_MS)))
      case CallStripe(r, accepted) =>
        if !pc.HasClaimed? || r !in s.calls then s
        else
          var called := s.(calls := s.calls[r := s.calls[r] + 1]);
          if accepted then Go(called, r, HasIntent(pc.before, s.nextIntent)).(nextIntent := s.nextIntent + 1)
          else Go(called, r, MustRevert(pc.before))
      case Attach(r, now) =>
        if !pc.HasIntent? then s
        else Go(s, r, Won(pc.p)).(
               row := Row(PENDING, Some(now + HOLD_MS), Some(pc.p)), attached := s.attached + [pc.p])
      case Revert(r) =>
        if !pc.MustRevert? then s
        else if s.row.status.PENDING? && s.row.intent == pc.before.intent then
          Go(s, r, HandedBack).(row := s.row.(status := pc.before.status, holdExpiresAt := pc.before.holdExpiresAt))
        else Go(s, r, HandedBack)
      case Stop(r) =>
        if pc.Won? || pc.HandedBack? || pc.Refused? || pc.LostClaim? then s
        else Go(s, r, Crashed).(stopped := s.stopped || InFlight(pc))
  }

  function RunRace(s: Race, actions: seq<Action>): Race
    decreases actions
  {
    if actions == [] then s else RunRace(Act(s, actions[0]), actions[1..])
  }

  function Start(base: Row, nextIntent: Id): Race { Race(base, map[], nextIntent, map[], [], false) }

  /** Between winning the claim and attaching or handing back. */
  predicate InFlight(pc: Pc) { pc.HasClaimed? || pc.HasIntent? || pc.MustRevert? }

  ghost predicate Flying(s: Race, r: Id) { r in s.pcs && InFlight(s.pcs[r]) }

  ghost predicate HasWon(s: Race, r: Id) { r in s.pcs && s.pcs[r].Won? }

  // ------------------------------------------------------------ invariant

  /** What is true of one request, given the row the race began with. */
  ghost predicate PcOk(s: Race, base: Row, r: Id)
    requires r in s.pcs
  {
    && (s.pcs[r].HasRead? ==> s.pcs[r].before == base)
    && (InFlight(s.pcs[r]) ==> s.pcs[r].before == base && s.row.status.PENDING? && s.row.intent == base.intent
                               && s.attached == [] && !s.stopped)
    && (s.pcs[r].Won? ==> s.row.status.PENDING? && s.attached == [s.pcs[r].p] && s.row.intent == Some(s.pcs[r].p))
    && (r in s.calls && (s.pcs[r].Arrived? || s.pcs[r].HasRead? || s.pcs[r].Refused? || s.pcs[r].LostClaim? || s.pcs[r].HasClaimed?
                         ==> s.calls[r] == 0))
    && (r in s.calls && s.calls[r] <= 1)
    && (r in s.calls && (s.pcs[r].HasIntent? || s.pcs[r].MustRevert? || s.pcs[r].Won? || s.pcs[r].HandedBack?) ==> s.calls[r] == 1)
  }

  ghost predicate RaceInv(s: Race, base: Row) {
    && Retryable(base)
    && (forall r | r in s.pcs :: PcOk(s, base, r))
    && (forall q, r | Flying(s, q) && Flying(s, r) :: q == r)
    && (forall q, r | Flying(s, q) && HasWon(s, r) :: false)
    && (forall q, r | HasWon(s, q) && HasWon(s, r) :: q == r)
    && (Retryable(s.row) ==> s.row == base && s.attached == [] && forall r :: !Flying(s, r) && !HasWon(s, r))
    && (Retryable(s.row) || s.row.status.PENDING?)
    && (s.attached == [] ==> s.row.intent == base.intent)
    && |s.attached| <= 1
    && (s.stopped ==> s.row.status.PENDING?)
    // A row that is PENDING is PENDING for a reason.
    && (s.row.status.PENDING? ==> s.stopped || exists r :: Flying(s, r) || HasWon(s, r))
  }

  /** The other requests do not notice. */
  lemma OthersStay(s: Race, a: Action, base: Row, q: Id)
    requires RaceInv(s, base) && q in s.pcs && q != a.r
    ensures q in Act(s, a).pcs && PcOk(Act(s, a), base, q)
  {
    assert PcOk(s, base, q);
    if a.r in s.pcs {
      assert PcOk(s, base, a.r);
      if InFlight(s.pcs[q]) { assert Flying(s, q) && !Flying(s, a.r) && !HasWon(s, a.r); }
      if HasWon(s, q) { assert !Flying(s, a.r); }
    }
  }

  lemma OwnStep(s: Race, a: Action, base: Row)
    requires RaceInv(s, base)
    ensures a.r in Act(s, a).pcs ==> PcOk(Act(s, a), base, a.r)
  {
    if a.r in s.pcs { assert PcOk(s, base, a.r); }
  }

  /** A request is past the claim after an action only if it was before, or has just won it on a free row. */
  lemma WhoFlies(s: Race, a: Action, base: Row)
    requires RaceInv(s, base)
    ensures var t := Act(s, a);
            && (forall q | q != a.r :: Flying(t, q) == Flying(s, q) && HasWon(t, q) == HasWon(s, q))
            && (Flying(t, a.r) && !Flying(s, a.r) ==> Retryable(s.row))
            && (HasWon(t, a.r) && !HasWon(s, a.r) ==> Flying(s, a.r))
  {
    if a.r in s.pcs { assert PcOk(s, base, a.r); }
  }

  lemma RowStays(s: Race, a: Action, base: Row)
    requires RaceInv(s, base)
    ensures var t := Act(s, a);
            && (Retryable(t.row) ==> t.row == base && t.attached == [])
            && (Retryable(t.row) || t.row.status.PENDING?)
            && (t.attached == [] ==> t.row.intent == base.intent)
            && |t.attached| <= 1
            && (t.stopped ==> t.row.status.PENDING?)
            && (Retryable(t.row) ==> Retryable(s.row) || Flying(s, a.r))
            && (Retryable(t.row) ==> !Flying(t, a.r) && !HasWon(t, a.r))
  {
    if a.r in s.pcs { assert PcOk(s, base, a.r); }
  }

  lemma ActKeeps(s: Race, a: Action, base: Row)
    requires RaceInv(s, base)
    ensures RaceInv(Act(s, a), base)
  {
    var t := Act(s, a);
    forall q | q in t.pcs ensures PcOk(t, base, q) {
      if q != a.r { OthersStay(s, a, base, q); } else { OwnStep(s, a, base); }
    }
    WhoFlies(s, a, base);
    RowStays(s, a, base);
    if t.row.status.PENDING? && !t.stopped { StillAReason(s, a, base); }
    hide Act, PcOk;
  }

  lemma StillAReason(s: Race, a: Action, base: Row)
    requires RaceInv(s, base)
    requires Act(s, a).row.status.PENDING? && !Act(s, a).stopped
    ensures exists q :: Flying(Act(s, a), q) || HasWon(Act(s, a), q)
  {
    var t := Act(s, a);
    if s.row.status.PENDING? {
      var q :| Flying(s, q) || HasWon(s, q);
      if q == a.r && a.Revert? && s.pcs[q].MustRevert? {
        assert PcOk(s, base, q);
      }
      assert Flying(t, q) || HasWon(t, q);
    } else {
      assert Flying(t, a.r);
    }
  }

  lemma {:induction false} RaceKeeps(s: Race, actions: seq<Action>, base: Row)
    requires RaceInv(s, base)
    ensures RaceInv(RunRace(s, actions), base)
    decreases actions
  {
    if actions != [] {
      ActKeeps(s, actions[0], base);
      RaceKeeps(Act(s, actions[0]), actions[1..], base);
    }
  }

  /** In every interleaving at most one request is ever past the claim, and at most one intent is ever attached,
      namely that of the one winner. */
  lemma OneClaimAtATime(base: Row, nextIntent: Id, actions: seq<Action>, q: Id, r: Id)
    requires Retryable(base)
    ensures var s := RunRace(Start(base, nextIntent), actions);
            && (Flying(s, q) && Flying(s, r) ==> q == r)
            && (HasWon(s, q) && HasWon(s, r) ==> q == r)
            && !(Flying(s, q) && HasWon(s, r))
            && |s.attached| <= 1
            && (HasWon(s, q) ==> s.attached == [s.pcs[q].p] && s.row.status.PENDING? && s.row.intent == Some(s.pcs[q].p))
  {
    RaceKeeps(Start(base, nextIntent), actions, base);
    var s := RunRace(Start(base, nextIntent), actions);
    if HasWon(s, q) { assert PcOk(s, base, q); }
  }

  /** A request that loses never reaches Stripe, one that wins or hands the booking back reached it once, and none
      reaches it twice. */
  lemma LosersMakeNoCall(base: Row, nextIntent: Id, actions: seq<Action>, r: Id)
    requires Retryable(base)
    ensures var s := RunRace(Start(base, nextIntent), actions);
            r in s.pcs ==>
              && r in s.calls && s.calls[r] <= 1
              && (s.pcs[r].LostClaim? || s.pcs[r].Refused? ==> s.calls[r] == 0)
              && (s.pcs[r].Won? || s.pcs[r].HandedBack? ==> s.calls[r] == 1)
  {
    RaceKeeps(Start(base, nextIntent), actions, base);
    var s := RunRace(Start(base, nextIntent), actions);
    if r in s.pcs { assert PcOk(s, base, r); }
  }

  ghost predicate Quiet(s: Race) { !s.stopped && forall r :: !Flying(s, r) && !HasWon(s, r) }

  /** Whenever nobody is past the claim, nobody has won and nobody stopped half way, the row is exactly the row
      the race began with: every failure at Stripe has handed back status and hold. */
  lemma FailureRestores(base: Row, nextIntent: Id, actions: seq<Action>)
    requires Retryable(base)
    ensures var s := RunRace(Start(base, nextIntent), actions); Quiet(s) ==> s.row == base
  {
    RaceKeeps(Start(base, nextIntent), actions, base);
  }

  function OneRetry(r: Id, now: Time): seq<Action> {
    [Arrive(r), Read(r), Claim(r, now), CallStripe(r, true), Attach(r, now)]
  }

  /** And so another request can still win. */
  lemma AnotherCanWin(base: Row, nextIntent: Id, actions: seq<Action>, r: Id, now: Time)
    requires Retryable(base)
    requires var s := RunRace(Start(base, nextIntent), actions); Quiet(s) && r !in s.pcs
    ensures HasWon(RunRace(RunRace(Start(base, nextIntent), actions), OneRetry(r, now)), r)
  {
    FailureRestores(base, nextIntent, actions);
    var s0 := RunRace(Start(base, nextIntent), actions);
    var s1 := Act(s0, Arrive(r));
    var s2 := Act(s1, Read(r));
    var s3 := Act(s2, Claim(r, now));
    var s4 := Act(s3, CallStripe(r, true));
    var s5 := Act(s4, Attach(r, now));
    FiveSteps(s0, Arrive(r), Read(r), Claim(r, now), CallStripe(r, true), Attach(r, now));
  }

  lemma FiveSteps(s: Race, a: Action, b: Action, c: Action, d: Action, e: Action)
    ensures RunRace(s, [a, b, c, d, e]) == Act(Act(Act(Act(Act(s, a), b), c), d), e)
  {
    hide Act;
    var s1 := Act(s, a);
    var s2 := Act(s1, b);
    var s3 := Act(s2, c);
    var s4 := Act(s3, d);
    assert [a, b, c, d, e][1..] == [b, c, d, e];
    assert [b, c, d, e][1..] == [c, d, e];
    assert [c, d, e][1..] == [d, e];
    assert [d, e][1..] == [e];
    assert RunRace(s1, [b, c, d, e]) == RunRace(s2, [c, d, e]);
    assert RunRace(s3, [d, e]) == RunRace(s4, [e]);
  }
}
