/** Every statement the system runs against one booking, interleaved one by one: any number of requests that release
    it as a lapsed hold, retry its payment, reconcile it, delete its desk or the desk's zone, or retry its refund,
    the create that is still paying for it, webhook events, moves of Stripe's ledger, and the clock. Any call may
    fail or lose its answer, and any request may stop anywhere. */
module BookingRace {
  import opened Schema
  import opened StripeCalls

  datatype Row = Row(status: Status, holdExpiresAt: Option<Time>, intent: Option<Id>, cancelled: bool, refundedCents: Option<int>)

  /** An intent that names this booking; only an attached one can be paid. */
  datatype Charge = Charge(status: IntentStatus, attached: bool)

  /** The answer Stripe keeps under the booking's idempotency key. */
  datatype Kept = Kept(intent: Id, status: RefundStatus)

  /** What all requests see. `paid` records the last intent whose success a statement wrote down, `log` every refund
      Stripe carried out for the booking. */
  datatype Shared = Shared(
    price: int,
    end: Time,
    row: Option<Row>,
    deskLive: bool,
    zoneLive: bool,
    paid: Option<Id>,
    intents: map<Id, Charge>,
    nextIntent: Id,
    log: seq<int>,
    kept: Option<Kept>,
    now: Time)

  datatype What = Releases | Retries | Reconciles | DeleteDesk | DeleteZone | RetryTheRefund

  datatype Payer = ByCreate | ByRetry(before: Row)

  /** The statement or call a request makes next. `read` is the row as it was read. */
  datatype Pc =
    | MustRead(what: What, at: Time)
    | MustCancel(read: Row)
    | MustMark(read: Row)
    | MustDelete(read: Row)
    | MustClaim(before: Row)
    | MustCreate(payer: Payer)
    | MustAttach(payer: Payer, p: Id)
    | MustHandBack(payer: Payer)
    | MustLookUp(q: Id)
    | MustWrite(q: Id, paid: bool)
    | MustCommit(what: What, saw: Option<Row>)
    | MustRelease(p: Id)
    | MustMarkLate(p: Id)
    | MustMarkReleased
    | MustRefund(p: Id)
    | MustRecord(answer: Reply<RefundStatus>)
    | Done

  /** How the outside meets a call: whether it gets through, how a cancel is shown, whether the look-up behind a
      failed cancel or of a reconcile answers, whether a decline is on record, and how a new refund starts out. */
  datatype Luck = Luck(fault: Fault, shown: bool, looked: bool, declined: bool, refundStatus: RefundStatus)

  datatype Race = Race(at: Shared, pcs: map<Id, Pc>)

  datatype Action =
    | Begin(r: Id, what: What)
    | Next(r: Id, luck: Luck)
    | Crash(r: Id)
    | SucceededEvent(p: Id)
    | FailedEvent(p: Id)
    | Move(p: Id, to: IntentStatus)
    | Tick(ms: nat)

  datatype After = After(at: Shared, pc: Pc)

  // ----------------------------------------------------------- statements

  function StatusOf(s: Shared, p: Id): IntentStatus { if p in s.intents then s.intents[p].status else Open }

  function Put(s: Shared, row: Row): Shared { s.(row := Some(row)) }

  predicate Lapsed(row: Row, now: Time) {
    Hold(row.status) && row.holdExpiresAt.Some? && row.holdExpiresAt.value < now
  }

  predicate TargetLive(s: Shared, what: What) {
    (what.DeleteDesk? ==> s.deskLive) && (what.DeleteZone? ==> s.zoneLive)
  }

  /** `findActiveBookings` */
  predicate Active(s: Shared, row: Row, at: Time) {
    && s.deskLive && !row.cancelled && s.end > at
    && (row.status.PAID? || row.status.UNPAID?
        || (Hold(row.status) && row.holdExpiresAt.Some? && row.holdExpiresAt.value > at))
  }

  /** A refund that `retryRefund` accepts. */
  predicate Owed(row: Row) {
    row.cancelled && (row.status.REFUND_PENDING? || row.status.REFUND_FAILED?) && row.intent.Some?
  }

  function ReleaseOf(row: Row): Pc { if row.intent.None? then MustDelete(row) else MustCancel(row) }

  /** What a request goes on to do, having read `row`. */
  function AfterRead(s: Shared, row: Row, what: What, at: Time): Pc {
    match what
    case Releases => if Lapsed(row, s.now) then ReleaseOf(row) else Done
    case Retries =>
      if !s.deskLive || row.cancelled || row.status.PAID? || row.status.PENDING? then Done
      else if row.status.FAILED? && Lapsed(row, s.now) then ReleaseOf(row)
      else MustClaim(row)
    case Reconciles =>
      if row.status.PENDING? && row.intent.Some? && !row.cancelled then MustLookUp(row.intent.value) else Done
    case RetryTheRefund => if Owed(row) then MustRefund(row.intent.value) else Done
    case _ => if !TargetLive(s, what) then Done else MustCommit(what, if Active(s, row, at) then Some(row) else None)
  }

  function DoRead(s: Shared, what: What, at: Time): After {
    if s.row.Some? then After(s, AfterRead(s, s.row.value, what, at))
    else if (what.DeleteDesk? || what.DeleteZone?) && TargetLive(s, what) then After(s, MustCommit(what, None))
    else After(s, Done)
  }

  datatype Cancelling = Cancelling(intents: map<Id, Charge>, out: Reply<CancelOutcome>)

  /** `cancelPaymentIntent`: the cancel, and on an error the look at where the intent ended up. */
  function CancelCall(s: Shared, p: Id, luck: Luck): Cancelling {
    if p !in s.intents then Cancelling(s.intents, Threw)
    else
      var carried := !Terminal(s.intents[p].status) && (luck.fault.Fine? || luck.fault.LostReply?);
      var status := if carried then Canceled else s.intents[p].status;
      Cancelling(
        s.intents[p := s.intents[p].(status := status)],
        if carried && luck.fault.Fine? then Returned(if luck.shown then WasCanceled else Other)
        else if !luck.looked then Threw
        else if status.Succeeded? then Returned(WasSucceeded)
        else if status.Canceled? then Returned(WasCanceled)
        else Threw)
  }

  /** Any answer but `succeeded` releases the hold; an error leaves it. */
  function DoCancel(s: Shared, read: Row, luck: Luck): After {
    if read.intent.None? then After(s, Done)
    else
      var c := CancelCall(s, read.intent.value, luck);
      After(s.(intents := c.intents),
            if c.out.Threw? then Done else if c.out.value.WasSucceeded? then MustMark(read) else MustDelete(read))
  }

  /** Guarded by the status alone. */
  function DoMark(s: Shared, read: Row): After {
    if s.row.None? || !Hold(s.row.value.status) then After(s, Done)
    else After(Put(s, s.row.value.(status := PAID, holdExpiresAt := None)).(paid := read.intent), Done)
  }

  function DoClaim(s: Shared, before: Row): After {
    if s.row.None? || s.row.value.status != before.status || s.row.value.cancelled then After(s, Done)
    else
      After(Put(s, s.row.value.(status := PENDING, holdExpiresAt := Some(s.now + HOLD_MS))), MustCreate(ByRetry(before)))
  }

  function DoCreate(s: Shared, payer: Payer, luck: Luck): After {
    if luck.fault.NoReply? || luck.fault.Stop? then After(s, MustHandBack(payer))
    else
      After(s.(intents := s.intents[s.nextIntent := Charge(Open, false)], nextIntent := s.nextIntent + 1),
            if luck.fault.Fine? then MustAttach(payer, s.nextIntent) else MustHandBack(payer))
  }

  /** No guard at all. */
  function DoAttach(s: Shared, payer: Payer, p: Id): After {
    if s.row.None? || p !in s.intents then After(s, MustHandBack(payer))
    else
      After(
        Put(s, s.row.value.(status := PENDING, holdExpiresAt := Some(s.now + HOLD_MS), intent := Some(p))).(
          intents := s.intents[p := s.intents[p].(attached := true)]),
        Done)
  }

  /** A create takes its row away again, a retry hands it back as it was. */
  function DoHandBack(s: Shared, payer: Payer): After {
    if payer.ByCreate? then After(s.(row := None), Done)
    else if s.row.None? || !s.row.value.status.PENDING? || s.row.value.intent != payer.before.intent then After(s, Done)
    else
      After(Put(s, s.row.value.(status := payer.before.status, holdExpiresAt := payer.before.holdExpiresAt)), Done)
  }

  function DoLookUp(s: Shared, q: Id, luck: Luck): After {
    var status := StatusOf(s, q);
    After(s,
          if !luck.looked then Done
          else if status.Succeeded? then MustWrite(q, true)
          else if status.Canceled? || (status.Open? && luck.declined) then MustWrite(q, false)
          else Done)
  }

  /** No guard at all. */
  function DoWrite(s: Shared, q: Id, paid: bool): After {
    if s.row.None? then After(s, Done)
    else if paid then After(Put(s, s.row.value.(status := PAID, holdExpiresAt := None)).(paid := Some(q)), Done)
    else After(Put(s, s.row.value.(status := FAILED)), Done)
  }

  /** The soft delete must still find its live row; the booking write names the id alone. */
  function DoCommit(s: Shared, what: What, saw: Option<Row>): After {
    if !TargetLive(s, what) then After(s, Done)
    else
      var t := s.(deskLive := false, zoneLive := s.zoneLive && !what.DeleteZone?);
      if saw.None? then After(t, Done)
      else
        var u := if t.row.None? then t else Put(t, CancelledRow(t.row.value, saw.value));
        After(u,
              if saw.value.intent.None? then Done
              else if saw.value.status.PAID? then MustRefund(saw.value.intent.value)
              else if Hold(saw.value.status) then MustRelease(saw.value.intent.value)
              else Done)
  }

  function CancelledRow(row: Row, saw: Row): Row {
    row.(status := if saw.status.PAID? then REFUND_PENDING else row.status, cancelled := true, holdExpiresAt := None)
  }

  function DoRelease(s: Shared, p: Id, luck: Luck): After {
    var c := CancelCall(s, p, luck);
    After(s.(intents := c.intents),
          if c.out.Threw? then Done
          else match c.out.value case WasSucceeded => MustMarkLate(p) case WasCanceled => MustMarkReleased case Other => Done)
  }

  function DoMarkLate(s: Shared, p: Id): After {
    if s.row.None? then After(s, Done)
    else After(Put(s, s.row.value.(status := REFUND_PENDING)).(paid := Some(p)), MustRefund(p))
  }

  function DoMarkReleased(s: Shared): After {
    if s.row.None? then After(s, Done) else After(Put(s, s.row.value.(status := FAILED)), Done)
  }

  /** The refund call under the booking's key. */
  function DoRefund(s: Shared, p: Id, luck: Luck): After {
    if luck.fault.NoReply? || luck.fault.Stop? then After(s, MustRecord(Threw))
    else if s.kept.Some? then
      After(s, MustRecord(if luck.fault.LostReply? || s.kept.value.intent != p then Threw else Returned(s.kept.value.status)))
    else if !StatusOf(s, p).Succeeded? then After(s, MustRecord(Threw))
    else
      After(s.(log := s.log + [s.price], kept := Some(Kept(p, luck.refundStatus))),
            MustRecord(if luck.fault.LostReply? then Threw else Returned(luck.refundStatus)))
  }

  function DoRecord(s: Shared, answer: Reply<RefundStatus>): After {
    if s.row.None? then After(s, Done)
    else
      After(Put(s, if answer.Returned? && Issued(answer.value)
                   then s.row.value.(status := REFUNDED, refundedCents := Some(s.price))
                   else s.row.value.(status := REFUND_FAILED)), Done)
  }

  function OnSuccess(s: Shared, p: Id): Shared {
    if s.row.None? || !StatusOf(s, p).Succeeded? || s.row.value.cancelled
       || !(s.row.value.status.UNPAID? || Hold(s.row.value.status))
    then s
    else Put(s, s.row.value.(status := PAID, holdExpiresAt := None, intent := Some(p))).(paid := Some(p))
  }

  function OnFailure(s: Shared, p: Id): Shared {
    if s.row.None? || p !in s.intents || s.row.value.intent != Some(p) || s.row.value.cancelled
       || !(s.row.value.status.UNPAID? || s.row.value.status.PENDING?)
    then s
    else Put(s, s.row.value.(status := FAILED))
  }

  function DoMove(s: Shared, p: Id, to: IntentStatus): Shared {
    if p !in s.intents || Terminal(s.intents[p].status) || (to.Succeeded? && !s.intents[p].attached) then s
    else s.(intents := s.intents[p := s.intents[p].(status := to)])
  }

  /** The next statement or call of a request. */
  function Step(s: Shared, pc: Pc, luck: Luck): After {
    match pc
    case MustRead(what, at) => DoRead(s, what, at)
    case MustCancel(read) => DoCancel(s, read, luck)
    case MustMark(read) => DoMark(s, read)
    case MustDelete(_) => After(s.(row := None), Done)
    case MustClaim(before) => DoClaim(s, before)
    case MustCreate(payer) => DoCreate(s, payer, luck)
    case MustAttach(payer, p) => DoAttach(s, payer, p)
    case MustHandBack(payer) => DoHandBack(s, payer)
    case MustLookUp(q) => DoLookUp(s, q, luck)
    case MustWrite(q, paid) => DoWrite(s, q, paid)
    case MustCommit(what, saw) => DoCommit(s, what, saw)
    case MustRelease(p) => DoRelease(s, p, luck)
    case MustMarkLate(p) => DoMarkLate(s, p)
    case MustMarkReleased => DoMarkReleased(s)
    case MustRefund(p) => DoRefund(s, p, luck)
    case MustRecord(answer) => DoRecord(s, answer)
    case Done => After(s, Done)
  }

  /** What the outside does by itself. */
  function Outside(s: Shared, a: Action): Shared {
    match a
    case SucceededEvent(p) => OnSuccess(s, p)
    case FailedEvent(p) => OnFailure(s, p)
    case Move(p, to) => DoMove(s, p, to)
    case Tick(ms) => s.(now := s.now + ms)
    case _ => s
  }

  /** What is not due changes nothing. */
  function Act(s: Race, a: Action): Race {
    match a
    case Begin(r, what) => if r in s.pcs then s else s.(pcs := s.pcs[r := MustRead(what, s.at.now)])
    case Crash(r) => if r in s.pcs then s.(pcs := s.pcs[r := Done]) else s
    case Next(r, luck) =>
      if r !in s.pcs then s
      else
        var after := Step(s.at, s.pcs[r], luck);
        Race(after.at, s.pcs[r := after.pc])
    case _ => s.(at := Outside(s.at, a))
  }

  function RunRace(s: Race, actions: seq<Action>): Race
    decreases actions
  {
    if actions == [] then s else RunRace(Act(s, actions[0]), actions[1..])
  }

  /** The race begins with a booking that is not cancelled: unpaid, held, or paid through its intent; or with the
      row a create has just inserted and is about to pay for. */
  ghost predicate Start(s: Race) {
    && s.at.price > 0 && s.at.deskLive && s.at.zoneLive && s.at.log == [] && s.at.kept.None?
    && (forall p | p in s.at.intents :: p < s.at.nextIntent)
    && s.at.row.Some? && !s.at.row.value.cancelled && Rank(s.at.row.value.status) <= 1
    && (s.at.row.value.intent.Some? ==> s.at.row.value.intent.value in s.at.intents)
    && (s.at.row.value.status.PAID? ==> s.at.row.value.intent.Some?)
    && s.at.paid == (if s.at.row.value.status.PAID? then s.at.row.value.intent else None)
    && (s.at.paid.Some? ==> StatusOf(s.at, s.at.paid.value).Succeeded?)
    && (s.pcs == map[]
        || (exists c :: s.pcs == map[c := MustCreate(ByCreate)] && s.at.row.value.status.PENDING? && s.at.row.value.intent.None?))
  }

  // ------------------------------------------------------------ invariant

  /** A payment has been written down, and the row, if it is still there, names an intent. */
  ghost predicate Secured(s: Shared) {
    s.paid.Some? && StatusOf(s, s.paid.value).Succeeded? && Named(s)
  }

  ghost predicate Named(s: Shared) { s.row.Some? ==> s.row.value.intent.Some? }

  ghost predicate CancelledOrGone(s: Shared) { s.row.Some? ==> s.row.value.cancelled }

  ghost predicate PayerOk(payer: Payer) {
    payer.ByRetry? ==> payer.before.status.FAILED? || payer.before.status.UNPAID?
  }

  /** The row as it was read was an unpaid hold past its deadline. */
  ghost predicate ReadLapsed(s: Shared, read: Row) {
    (read.status.PENDING? || read.status.FAILED?) && read.holdExpiresAt.Some? && read.holdExpiresAt.value < s.now
  }

  /** What the next statement of a request may count on. */
  ghost predicate PcOk(s: Shared, pc: Pc) {
    match pc
    case MustCancel(read) => ReadLapsed(s, read) && Named(s)
    case MustMark(read) => ReadLapsed(s, read) && read.intent.Some? && StatusOf(s, read.intent.value).Succeeded? && Named(s)
    case MustDelete(read) => ReadLapsed(s, read) && (read.intent.Some? ==> StatusOf(s, read.intent.value).Canceled?)
    case MustClaim(before) => PayerOk(ByRetry(before))
    case MustCreate(payer) => PayerOk(payer)
    case MustAttach(payer, _) => PayerOk(payer)
    case MustHandBack(payer) => PayerOk(payer)
    case MustLookUp(_) => Named(s)
    case MustWrite(q, paid) => Named(s) && (paid ==> StatusOf(s, q).Succeeded?)
    case MustCommit(_, saw) => saw.Some? ==> Rank(saw.value.status) <= 1 && (saw.value.status.PAID? ==> Secured(s)) && (saw.value.intent.Some? ==> Named(s))
    case MustRelease(_) => CancelledOrGone(s) && Named(s)
    case MustMarkLate(p) => CancelledOrGone(s) && Named(s) && StatusOf(s, p).Succeeded?
    case MustMarkReleased => CancelledOrGone(s)
    case MustRefund(_) => CancelledOrGone(s) && Secured(s)
    case MustRecord(answer) =>
      && CancelledOrGone(s) && Secured(s)
      && (answer.Returned? ==> s.kept.Some? && s.kept.value.status == answer.value)
    case _ => true
  }

  ghost predicate RowInv(s: Shared) {
    s.row.Some? ==>
      var b := s.row.value;
      && (b.intent.Some? ==> b.intent.value in s.intents)
      && (Money(b.status) ==> Secured(s))
      && (Rank(b.status) >= 2 ==> b.cancelled)
      && (b.status.REFUNDED? ==> s.kept.Some? && !s.kept.value.status.RefundDeclined? && b.refundedCents == Some(s.price))
  }

  ghost predicate BooksInv(s: Shared) {
    && s.price > 0
    && (forall p | p in s.intents :: p < s.nextIntent)
    && (s.log == [] || s.log == [s.price])
    && (s.kept.Some? <==> s.log != [])
    && (s.kept.Some? ==> StatusOf(s, s.kept.value.intent).Succeeded?)
  }

  ghost predicate SharedInv(s: Shared) { RowInv(s) && BooksInv(s) }

  ghost predicate RaceInv(s: Race) { SharedInv(s.at) && forall r | r in s.pcs :: PcOk(s.at, s.pcs[r]) }

  /** What nobody takes back: terminal intents, a kept answer, a recorded payment, the name of an intent, the
      cancellation, and the absence of the row. */
  ghost predicate Forward(s: Shared, t: Shared) {
    && t.price == s.price && s.now <= t.now
    && (forall p | p in s.intents && Terminal(s.intents[p].status) :: p in t.intents && t.intents[p].status == s.intents[p].status)
    && (s.kept.Some? ==> t.kept == s.kept)
    && (Secured(s) ==> Secured(t))
    && (Named(s) ==> Named(t))
    && (CancelledOrGone(s) ==> CancelledOrGone(t))
  }

  lemma PcStays(s: Shared, t: Shared, pc: Pc)
    requires PcOk(s, pc) && Forward(s, t)
    ensures PcOk(t, pc)
  {
  }

  lemma ForwardTrans(s: Shared, t: Shared, u: Shared)
    requires Forward(s, t) && Forward(t, u)
    ensures Forward(s, u)
  {
  }

  ghost predicate Good(s: Shared, t: After) { SharedInv(t.at) && Forward(s, t.at) && PcOk(t.at, t.pc) }

  /** The books do not depend on the row. */
  lemma BooksKept(s: Shared, t: Shared)
    requires BooksInv(s)
    requires t.price == s.price && t.intents == s.intents && t.nextIntent == s.nextIntent && t.log == s.log && t.kept == s.kept
    ensures BooksInv(t)
  {
  }

  lemma ReadOk(s: Shared, what: What, at: Time)
    requires SharedInv(s)
    ensures Good(s, DoRead(s, what, at))
  {
    hide BooksInv, Forward, Active, Lapsed, TargetLive;
    Unmoved(s);
    if s.row.Some? {
      if Active(s, s.row.value, at) { ActiveRank(s, at); }
      if Lapsed(s.row.value, s.now) { LapsedIsHold(s); }
    }
  }

  lemma LapsedIsHold(s: Shared)
    requires s.row.Some? && Lapsed(s.row.value, s.now)
    ensures ReadLapsed(s, s.row.value)
  {
  }

  lemma ActiveRank(s: Shared, at: Time)
    requires s.row.Some? && Active(s, s.row.value, at)
    ensures Rank(s.row.value.status) <= 1
  {
  }

  /** A cancel or a look-up moves the ledger alone, and says the truth about the intent. */
  lemma CancelCallOk(s: Shared, p: Id, luck: Luck)
    requires SharedInv(s)
    ensures var c := CancelCall(s, p, luck);
            var t := s.(intents := c.intents);
            && SharedInv(t) && Forward(s, t)
            && (c.out.Returned? ==> StatusOf(t, p) == if c.out.value.WasSucceeded? then Succeeded else Canceled)
  {
  }

  lemma CancelOk(s: Shared, read: Row, luck: Luck)
    requires SharedInv(s) && PcOk(s, MustCancel(read))
    ensures Good(s, DoCancel(s, read, luck))
  {
    hide SharedInv, CancelCall;
    Unmoved(s);
    if read.intent.Some? { CancelCallOk(s, read.intent.value, luck); }
  }

  lemma ReleaseOk(s: Shared, p: Id, luck: Luck)
    requires SharedInv(s) && PcOk(s, MustRelease(p))
    ensures Good(s, DoRelease(s, p, luck))
  {
    hide SharedInv, CancelCall;
    CancelCallOk(s, p, luck);
  }

  lemma MarkOk(s: Shared, read: Row)
    requires SharedInv(s) && PcOk(s, MustMark(read))
    ensures Good(s, DoMark(s, read))
  {
    hide BooksInv;
    BooksKept(s, DoMark(s, read).at);
  }

  lemma ClaimOk(s: Shared, before: Row)
    requires SharedInv(s) && PcOk(s, MustClaim(before))
    ensures Good(s, DoClaim(s, before))
  {
    hide BooksInv;
    BooksKept(s, DoClaim(s, before).at);
  }

  lemma CreateOk(s: Shared, payer: Payer, luck: Luck)
    requires SharedInv(s) && PcOk(s, MustCreate(payer))
    ensures Good(s, DoCreate(s, payer, luck))
  {
  }

  lemma AttachOk(s: Shared, payer: Payer, p: Id)
    requires SharedInv(s) && PcOk(s, MustAttach(payer, p))
    ensures Good(s, DoAttach(s, payer, p))
  {
  }

  lemma HandBackOk(s: Shared, payer: Payer)
    requires SharedInv(s) && PcOk(s, MustHandBack(payer))
    ensures Good(s, DoHandBack(s, payer))
  {
    hide BooksInv;
    BooksKept(s, DoHandBack(s, payer).at);
  }

  lemma LookUpOk(s: Shared, q: Id, luck: Luck)
    requires SharedInv(s) && PcOk(s, MustLookUp(q))
    ensures Good(s, DoLookUp(s, q, luck))
  {
  }

  lemma WriteOk(s: Shared, q: Id, paid: bool)
    requires SharedInv(s) && PcOk(s, MustWrite(q, paid))
    ensures Good(s, DoWrite(s, q, paid))
  {
    hide BooksInv;
    BooksKept(s, DoWrite(s, q, paid).at);
  }

  lemma CommitOk(s: Shared, what: What, saw: Option<Row>)
    requires SharedInv(s) && PcOk(s, MustCommit(what, saw))
    ensures Good(s, DoCommit(s, what, saw))
  {
    hide BooksInv;
    BooksKept(s, DoCommit(s, what, saw).at);
  }

  lemma MarkLateOk(s: Shared, p: Id)
    requires SharedInv(s) && PcOk(s, MustMarkLate(p))
    ensures Good(s, DoMarkLate(s, p))
  {
    hide BooksInv;
    BooksKept(s, DoMarkLate(s, p).at);
  }

  lemma MarkReleasedOk(s: Shared)
    requires SharedInv(s) && PcOk(s, MustMarkReleased)
    ensures Good(s, DoMarkReleased(s))
  {
    hide BooksInv;
    BooksKept(s, DoMarkReleased(s).at);
  }

  lemma RefundOk(s: Shared, p: Id, luck: Luck)
    requires SharedInv(s) && PcOk(s, MustRefund(p))
    ensures Good(s, DoRefund(s, p, luck))
  {
  }

  lemma RecordOk(s: Shared, answer: Reply<RefundStatus>)
    requires SharedInv(s) && PcOk(s, MustRecord(answer))
    ensures Good(s, DoRecord(s, answer))
  {
    hide BooksInv;
    BooksKept(s, DoRecord(s, answer).at);
  }

  lemma DeleteOk(s: Shared)
    requires SharedInv(s)
    ensures Good(s, After(s.(row := None), Done)) && Good(s, After(s, Done))
  {
  }

  lemma StepOk(s: Shared, pc: Pc, luck: Luck)
    requires SharedInv(s) && PcOk(s, pc)
    ensures Good(s, Step(s, pc, luck))
  {
    hide SharedInv, PcOk, Forward, Good, DoRead, DoCancel, DoMark, DoClaim, DoCreate, DoAttach, DoHandBack, DoLookUp, DoWrite,
      DoCommit, DoRelease, DoMarkLate, DoMarkReleased, DoRefund, DoRecord;
    DeleteOk(s);
    match pc
    case MustRead(what, at) => ReadOk(s, what, at);
    case MustCancel(read) => CancelOk(s, read, luck);
    case MustMark(read) => MarkOk(s, read);
    case MustDelete(_) =>
    case MustClaim(before) => ClaimOk(s, before);
    case MustCreate(payer) => CreateOk(s, payer, luck);
    case MustAttach(payer, p) => AttachOk(s, payer, p);
    case MustHandBack(payer) => HandBackOk(s, payer);
    case MustLookUp(q) => LookUpOk(s, q, luck);
    case MustWrite(q, paid) => WriteOk(s, q, paid);
    case MustCommit(what, saw) => CommitOk(s, what, saw);
    case MustRelease(p) => ReleaseOk(s, p, luck);
    case MustMarkLate(p) => MarkLateOk(s, p);
    case MustMarkReleased => MarkReleasedOk(s);
    case MustRefund(p) => RefundOk(s, p, luck);
    case MustRecord(answer) => RecordOk(s, answer);
    case Done =>
  }

  lemma SuccessOk(s: Shared, p: Id)
    requires SharedInv(s)
    ensures SharedInv(OnSuccess(s, p)) && Forward(s, OnSuccess(s, p))
  {
  }

  lemma FailureOk(s: Shared, p: Id)
    requires SharedInv(s)
    ensures SharedInv(OnFailure(s, p)) && Forward(s, OnFailure(s, p))
  {
  }

  lemma MoveOk(s: Shared, p: Id, to: IntentStatus)
    requires SharedInv(s)
    ensures SharedInv(DoMove(s, p, to)) && Forward(s, DoMove(s, p, to))
  {
  }

  lemma OutsideOk(s: Shared, a: Action)
    requires SharedInv(s)
    ensures SharedInv(Outside(s, a)) && Forward(s, Outside(s, a))
  {
    hide OnSuccess, OnFailure, DoMove;
    match a
    case SucceededEvent(p) => SuccessOk(s, p);
    case FailedEvent(p) => FailureOk(s, p);
    case Move(p, to) => MoveOk(s, p, to);
    case _ =>
  }

  lemma ActKeeps(s: Race, a: Action)
    requires RaceInv(s)
    ensures RaceInv(Act(s, a)) && Forward(s.at, Act(s, a).at)
  {
    hide Step, Outside, SharedInv, Forward, PcOk;
    var t := Act(s, a);
    Unmoved(s.at);
    if a.Next? && a.r in s.pcs { StepOk(s.at, s.pcs[a.r], a.luck); }
    OutsideOk(s.at, a);
    forall q | q in t.pcs ensures PcOk(t.at, t.pcs[q]) {
      if q in s.pcs { PcStays(s.at, t.at, s.pcs[q]); }
      Idle(t.at, s.at.now);
    }
  }

  lemma Unmoved(s: Shared)
    ensures Forward(s, s)
  {
  }

  lemma Idle(s: Shared, at: Time)
    ensures PcOk(s, Done) && forall what :: PcOk(s, MustRead(what, at))
  {
  }

  lemma {:induction false} RaceKeeps(s: Race, actions: seq<Action>)
    requires RaceInv(s)
    ensures RaceInv(RunRace(s, actions)) && Forward(s.at, RunRace(s, actions).at)
    decreases actions
  {
    hide Act, RaceInv, Forward;
    Unmoved(s.at);
    if actions != [] {
      ActKeeps(s, actions[0]);
      RaceKeeps(Act(s, actions[0]), actions[1..]);
      ForwardTrans(s.at, Act(s, actions[0]).at, RunRace(s, actions).at);
    }
  }

  lemma StartOk(s: Race)
    requires Start(s)
    ensures RaceInv(s)
  {
  }

  predicate LeavesTheRow(pc: Pc) {
    pc.MustRead? || pc.MustCancel? || pc.MustCreate? || pc.MustLookUp? || pc.MustRelease? || pc.MustRefund? || pc.Done?
  }

  lemma CallsLeaveTheRow(s: Shared, pc: Pc, luck: Luck)
    requires LeavesTheRow(pc)
    ensures Step(s, pc, luck).at.row == s.row
  {
    hide AfterRead, CancelCall;
  }

  // ----------------------------------------------------------------- runs

  lemma {:induction false} RunConcat(s: Race, xs: seq<Action>, ys: seq<Action>)
    ensures RunRace(s, xs + ys) == RunRace(RunRace(s, xs), ys)
    decreases xs
  {
    hide Act;
    if xs == [] {
      assert xs + ys == ys;
    } else {
      assert (xs + ys)[1..] == xs[1..] + ys;
      RunConcat(Act(s, xs[0]), xs[1..], ys);
    }
  }

  lemma RunSnoc(s: Race, xs: seq<Action>, a: Action)
    ensures RunRace(s, xs + [a]) == Act(RunRace(s, xs), a)
  {
    hide Act;
    RunConcat(s, xs, [a]);
    var t := RunRace(s, xs);
    assert RunRace(t, [a]) == RunRace(Act(t, a), []);
  }

  lemma FourSteps(s: Race, a: Action, b: Action, c: Action, d: Action)
    ensures RunRace(s, [a, b, c, d]) == Act(Act(Act(Act(s, a), b), c), d)
  {
    hide Act;
    RunSnoc(s, [], a);
    RunSnoc(s, [a], b);
    RunSnoc(s, [a, b], c);
    RunSnoc(s, [a, b, c], d);
    assert [] + [a] == [a] && [a] + [b] == [a, b] && [a, b] + [c] == [a, b, c] && [a, b, c] + [d] == [a, b, c, d];
  }

  /** A request that starts now and reads. */
  lemma ReadNow(s: Race, r: Id, what: What, luck: Luck)
    requires r !in s.pcs
    ensures var t := DoRead(s.at, what, s.at.now);
            Act(Act(s, Begin(r, what)), Next(r, luck)) == Race(t.at, s.pcs[r := t.pc])
  {
    hide DoRead;
    var t := DoRead(s.at, what, s.at.now);
    assert s.pcs[r := MustRead(what, s.at.now)][r := t.pc] == s.pcs[r := t.pc];
  }

  const FINE: Luck := Luck(Fine, true, true, false, RefundSucceeded)
  const MUTE: Luck := FINE.(fault := NoReply)

  lemma NextIs(s: Race, r: Id, luck: Luck)
    requires r in s.pcs
    ensures Act(s, Next(r, luck)) == Race(Step(s.at, s.pcs[r], luck).at, s.pcs[r := Step(s.at, s.pcs[r], luck).pc])
  {
    hide Step;
  }

  /** What `Step` does for each statement, taken alone. */
  lemma StepIs(s: Shared, pc: Pc, luck: Luck)
    ensures match pc
            case MustRead(what, at) => Step(s, pc, luck) == DoRead(s, what, at)
            case MustCancel(read) => Step(s, pc, luck) == DoCancel(s, read, luck)
            case MustMark(read) => Step(s, pc, luck) == DoMark(s, read)
            case MustDelete(_) => Step(s, pc, luck) == After(s.(row := None), Done)
            case MustClaim(before) => Step(s, pc, luck) == DoClaim(s, before)
            case MustCreate(payer) => Step(s, pc, luck) == DoCreate(s, payer, luck)
            case MustAttach(payer, p) => Step(s, pc, luck) == DoAttach(s, payer, p)
            case MustHandBack(payer) => Step(s, pc, luck) == DoHandBack(s, payer)
            case MustLookUp(q) => Step(s, pc, luck) == DoLookUp(s, q, luck)
            case MustWrite(q, paid) => Step(s, pc, luck) == DoWrite(s, q, paid)
            case MustCommit(what, saw) => Step(s, pc, luck) == DoCommit(s, what, saw)
            case MustRelease(p) => Step(s, pc, luck) == DoRelease(s, p, luck)
            case MustMarkLate(p) => Step(s, pc, luck) == DoMarkLate(s, p)
            case MustMarkReleased => Step(s, pc, luck) == DoMarkReleased(s)
            case MustRefund(p) => Step(s, pc, luck) == DoRefund(s, p, luck)
            case MustRecord(answer) => Step(s, pc, luck) == DoRecord(s, answer)
            case Done => Step(s, pc, luck) == After(s, Done)
  {
    hide DoRead, DoCancel, DoMark, DoClaim, DoCreate, DoAttach, DoHandBack, DoLookUp, DoWrite, DoCommit, DoRelease, DoMarkLate,
      DoMarkReleased, DoRefund, DoRecord;
  }

  lemma MoveIs(s: Race, p: Id, to: IntentStatus)
    ensures Act(s, Move(p, to)) == s.(at := DoMove(s.at, p, to))
  {
    hide DoMove;
  }

  lemma SameStatus(s: Shared, t: Shared, p: Id)
    requires s.intents == t.intents
    ensures StatusOf(s, p) == StatusOf(t, p)
  {
  }

  lemma CrashIs(s: Race, r: Id)
    requires r in s.pcs
    ensures Act(s, Crash(r)) == s.(pcs := s.pcs[r := Done])
  {
  }

  lemma EventIs(s: Race, p: Id)
    ensures Act(s, SucceededEvent(p)) == s.(at := OnSuccess(s.at, p))
  {
    hide OnSuccess;
  }

  lemma TickIs(s: Race, ms: nat)
    ensures Act(s, Tick(ms)) == s.(at := s.at.(now := s.at.now + ms))
  {
  }
}
