/** The money totals of the administrator's overview, over the rows of the booking table. */
module Totals {
  import opened Schema
  import opened PricingProofs
  import opened StripeCalls
  import opened Bookings
  import opened Deletion
  import opened Protocol
  import opened RemoveProofs

  /** What a grouped sum adds up for one row. `Bearing` is the reference: the price of every booking whose
      money the platform has collected, whatever became of it. */
  datatype Column = Net | FeeNet | Refunded | RefundOwed | Bearing

  function Value(c: Column, b: Booking): int {
    match c
    case Net => if b.status.PAID? then AmountOr0(b) else 0
    case FeeNet => if b.status.PAID? && b.platformFeeCents.Some? then b.platformFeeCents.value else 0
    case Refunded => if b.status.REFUNDED? && b.refundedCents.Some? then b.refundedCents.value else 0
    case RefundOwed => if b.status.REFUND_PENDING? || b.status.REFUND_FAILED? then AmountOr0(b) else 0
    case Bearing => if Money(b.status) then AmountOr0(b) else 0
  }

  /** Sum of one column over the rows with an id below `n`. */
  function Sum(c: Column, rows: map<Id, Booking>, n: nat): int {
    if n == 0 then 0 else Sum(c, rows, n - 1) + if n - 1 in rows then Value(c, rows[n - 1]) else 0
  }

  datatype Revenue = Revenue(
    collectedCents: int, refundedCents: int, pendingRefundCents: int, netCents: int, platformFeeNetCents: int)

  /** `overview`: collected is net + refunded + pending refund. */
  function Overview(db: Database): Revenue {
    var net := Sum(Net, db.rows, db.nextRow);
    var refunded := Sum(Refunded, db.rows, db.nextRow);
    var pending := Sum(RefundOwed, db.rows, db.nextRow);
    Revenue(net + refunded + pending, refunded, pending, net, Sum(FeeNet, db.rows, db.nextRow))
  }

  /** In every state the protocol can reach, collected money is exactly the price of every booking it was
      collected for: refunds move it between the buckets and lose none of it. */
  lemma {:induction false} SumsPartition(w: World, n: nat)
    requires Inv(w)
    ensures Sum(Net, w.db.rows, n) + Sum(Refunded, w.db.rows, n) + Sum(RefundOwed, w.db.rows, n)
            == Sum(Bearing, w.db.rows, n)
  {
    if n > 0 {
      SumsPartition(w, n - 1);
      if n - 1 in w.db.rows { RowOf(w, n - 1); }
    }
  }

  /** The price of all bookings of one status. */
  function PriceOf(s: Status, rows: map<Id, Booking>, n: nat): int {
    if n == 0 then 0
    else PriceOf(s, rows, n - 1) + if n - 1 in rows && rows[n - 1].status == s then AmountOr0(rows[n - 1]) else 0
  }

  lemma {:induction false} ColumnsByStatus(w: World, n: nat)
    requires Inv(w)
    ensures Sum(Net, w.db.rows, n) == PriceOf(PAID, w.db.rows, n)
    ensures Sum(Refunded, w.db.rows, n) == PriceOf(REFUNDED, w.db.rows, n)
    ensures Sum(RefundOwed, w.db.rows, n) == PriceOf(REFUND_PENDING, w.db.rows, n) + PriceOf(REFUND_FAILED, w.db.rows, n)
  {
    if n > 0 {
      ColumnsByStatus(w, n - 1);
      if n - 1 in w.db.rows { RowOf(w, n - 1); }
    }
  }

  /** Each figure of the overview is the price of the bookings of its statuses: net of the paid, refunded of the
      refunded, pending of those whose refund is pending or failed, collected of all four. */
  lemma OverviewByStatus(w: World)
    requires Inv(w)
    ensures var o, n := Overview(w.db), w.db.nextRow;
            && o.netCents == PriceOf(PAID, w.db.rows, n)
            && o.refundedCents == PriceOf(REFUNDED, w.db.rows, n)
            && o.pendingRefundCents == PriceOf(REFUND_PENDING, w.db.rows, n) + PriceOf(REFUND_FAILED, w.db.rows, n)
            && o.collectedCents == o.netCents + o.refundedCents + o.pendingRefundCents
  {
    ColumnsByStatus(w, w.db.nextRow);
  }

  lemma CollectedIsTheLedger(w: World)
    requires Inv(w)
    ensures Overview(w.db).collectedCents == Sum(Bearing, w.db.rows, w.db.nextRow)
  {
    SumsPartition(w, w.db.nextRow);
  }

  /** Every booking that ever carried money has its fee on record, and it is the fee of its price: the charge it
      was paid through had been attached, and the attach write records the fee. */
  lemma EveryPaymentHasItsFee(w: World, id: Id)
    requires Inv(w) && id in w.db.rows && Money(w.db.rows[id].status)
    ensures w.db.rows[id].amountCents.Some? && w.db.rows[id].platformFeeCents.Some?
    ensures w.db.rows[id].platformFeeCents == FeeOf(w.db.rows[id].amountCents.value)
  {
    RowOf(w, id);
    assert IntentOk(w.stripe.intents[w.db.rows[id].intent.value], w.db);
  }

  function PaidCount(rows: map<Id, Booking>, n: nat): nat {
    if n == 0 then 0 else PaidCount(rows, n - 1) + if n - 1 in rows && rows[n - 1].status.PAID? then 1 else 0
  }

  /** The overview's net platform fee is five per cent of its net revenue, to half a cent a paid booking. */
  lemma {:induction false} NetFeeIsFivePercent(w: World, n: nat)
    requires Inv(w)
    ensures var c := PaidCount(w.db.rows, n);
            -50 * c <= 100 * Sum(FeeNet, w.db.rows, n) - 5 * Sum(Net, w.db.rows, n) <= 50 * c
  {
    if n > 0 {
      NetFeeIsFivePercent(w, n - 1);
      if n - 1 in w.db.rows && w.db.rows[n - 1].status.PAID? {
        EveryPaymentHasItsFee(w, n - 1);
        FeeIsASplit(AmountOr0(w.db.rows[n - 1]));
      }
    }
  }

  /** The price of the bookings that began to carry money on the way from `x` to `y`. */
  function NewMoney(x: map<Id, Booking>, y: map<Id, Booking>, n: nat): int {
    if n == 0 then 0
    else
      var isNew := n - 1 in y && Money(y[n - 1].status) && !(n - 1 in x && Money(x[n - 1].status));
      NewMoney(x, y, n - 1) + (if isNew then AmountOr0(y[n - 1]) else 0)
  }

  lemma {:induction false} BearingGrows(x: World, y: World, n: nat)
    requires Inv(x) && Inv(y) && Evolves(x, y)
    ensures Sum(Bearing, y.db.rows, n) == Sum(Bearing, x.db.rows, n) + NewMoney(x.db.rows, y.db.rows, n)
    ensures NewMoney(x.db.rows, y.db.rows, n) >= 0
  {
    hide Inv, Evolves;
    if n > 0 {
      BearingGrows(x, y, n - 1);
      var id := n - 1;
      if id in y.db.rows && Money(y.db.rows[id].status) { PricePositive(y, id); }
      if id in x.db.rows { StepOf(x, y, id); }
    }
  }

  lemma PricePositive(w: World, id: Id)
    requires Inv(w) && id in w.db.rows && Money(w.db.rows[id].status)
    ensures AmountOr0(w.db.rows[id]) > 0
  {
    RowOf(w, id);
    assert IntentOk(w.stripe.intents[w.db.rows[id].intent.value], w.db);
  }

  lemma {:induction false} NothingBeyond(c: Column, w: World, n: nat)
    requires Inv(w) && w.db.nextRow <= n
    ensures Sum(c, w.db.rows, n) == Sum(c, w.db.rows, w.db.nextRow)
    decreases n
  {
    if n > w.db.nextRow {
      NothingBeyond(c, w, n - 1);
      RowsBelow(w);
    }
  }

  lemma RowsBelow(w: World)
    requires Inv(w)
    ensures forall id | id in w.db.rows :: id < w.db.nextRow
  {
  }

  /** Conservation along any stretch of any run: collected money never shrinks, and grows by exactly the price
      of the bookings that began to carry money. */
  lemma CollectedOnlyGrows(x: World, y: World)
    requires Inv(x) && Inv(y) && Evolves(x, y)
    ensures Overview(y.db).collectedCents
            == Overview(x.db).collectedCents + NewMoney(x.db.rows, y.db.rows, y.db.nextRow)
    ensures Overview(y.db).collectedCents >= Overview(x.db).collectedCents
  {
    CollectedIsTheLedger(x);
    CollectedIsTheLedger(y);
    BearingGrows(x, y, y.db.nextRow);
    NothingBeyond(Bearing, x, y.db.nextRow);
  }

  lemma {:induction false} NoNewMoney(x: map<Id, Booking>, y: map<Id, Booking>, n: nat)
    requires forall id | id in y && Money(y[id].status) :: id in x && Money(x[id].status)
    ensures NewMoney(x, y, n) == 0
  {
    if n > 0 { NoNewMoney(x, y, n - 1); }
  }

  /** Retrying a refund moves money between the buckets and adds none. */
  lemma RetryRefundConserves(w: World, id: Id, spaceId: Id)
    requires Inv(w)
    ensures Overview(RetryRefund(w, id, spaceId).0.db).collectedCents == Overview(w.db).collectedCents
  {
    var v := RetryRefund(w, id, spaceId).0;
    RetryRefundKeeps(w, id, spaceId);
    CollectedOnlyGrows(w, v);
    NoNewMoney(w.db.rows, v.db.rows, v.db.nextRow);
  }

  /** The price of the cancelled holds that were paid before their cancellation reached Stripe. */
  function LateCents(was: map<Id, Booking>, rows: map<Id, Booking>, ids: set<Id>, n: nat): int {
    if n == 0 then 0
    else
      var late := n - 1 in ids && n - 1 in was && n - 1 in rows && Hold(was[n - 1].status) && Money(rows[n - 1].status);
      LateCents(was, rows, ids, n - 1) + (if late then AmountOr0(was[n - 1]) else 0)
  }

  /** A delete moves money out of the net bucket and adds nothing but the holds that were paid late. */
  lemma RemoveConserves(w: World, target: Target, spaceId: Id, confirm: bool)
    requires Inv(w)
    ensures var v := Remove(w, target, spaceId, confirm).0;
            Overview(v.db).collectedCents
            == Overview(w.db).collectedCents
               + LateCents(w.db.rows, v.db.rows, ActiveSet(w.db, spaceId, target, w.env.now), v.db.nextRow)
  {
    var v := Remove(w, target, spaceId, confirm).0;
    RemoveKeeps(w, target, spaceId, confirm);
    CollectedOnlyGrows(w, v);
    var ids := ActiveSet(w.db, spaceId, target, w.env.now);
    OnlyActiveGain(w, target, spaceId, confirm);
    NewIsLate(w, v, ids, v.db.nextRow);
  }

  ghost predicate GainsOnlyLate(w: World, v: World, ids: set<Id>) {
    && v.db.rows.Keys == w.db.rows.Keys
    && forall id | id in w.db.rows && Money(v.db.rows[id].status) && !Money(w.db.rows[id].status) ::
         id in ids && Hold(w.db.rows[id].status)
  }

  lemma {:induction false} NewIsLate(w: World, v: World, ids: set<Id>, n: nat)
    requires Evolves(w, v) && GainsOnlyLate(w, v, ids)
    ensures NewMoney(w.db.rows, v.db.rows, n) == LateCents(w.db.rows, v.db.rows, ids, n)
  {
    if n > 0 {
      NewIsLate(w, v, ids, n - 1);
      if n - 1 in w.db.rows { StepOf(w, v, n - 1); }
    }
  }

  lemma OnlyActiveGain(w: World, target: Target, spaceId: Id, confirm: bool)
    requires Inv(w)
    ensures GainsOnlyLate(w, Remove(w, target, spaceId, confirm).0, ActiveSet(w.db, spaceId, target, w.env.now))
  {
    hide RowsOk, LedgerOk, TreeOk, NoOverlap, StripeForward, TreeForward, RowsForward, AttachForward, DatesForward;
    TurnKeeps(w);
    var t := Turn(w);
    var v := Remove(w, target, spaceId, confirm).0;
    if v != t {
      SettleTx(t, target, spaceId, w.env.now);
      var u := t.(db := RemoveTx(t.db, target, spaceId, w.env.now));
      forall id | id in w.db.rows && Money(v.db.rows[id].status) && !Money(w.db.rows[id].status)
        ensures id in ActiveSet(w.db, spaceId, target, w.env.now) && Hold(w.db.rows[id].status)
      {
        assert id in u.db.rows && v.db.rows[id].intent == w.db.rows[id].intent;
        RowOf(v, id);
        RowOf(w, id);
      }
    }
  }
}

/** The totals along whole runs. */
module RunTotals {
  import opened Schema
  import opened Bookings
  import opened Runs
  import opened Totals

  /** In every reachable state the overview's collected total is the price of exactly the bookings that carry
      money, and along every run it only grows, by the price of the bookings that begin to. */
  lemma CollectedOverRuns(w: World, steps: seq<Step>)
    requires Reachable(w) && LegalRun(w, steps)
    ensures var v := Run(w, steps);
            && Overview(w.db).collectedCents == Sum(Bearing, w.db.rows, w.db.nextRow)
            && Overview(v.db).collectedCents
               == Overview(w.db).collectedCents + NewMoney(w.db.rows, v.db.rows, v.db.nextRow)
            && Overview(v.db).collectedCents >= Overview(w.db).collectedCents
  {
    ReachableInv(w);
    RunSafe(w, steps);
    CollectedIsTheLedger(w);
    CollectedOnlyGrows(w, Run(w, steps));
  }

  /** In every reachable state each booking that carries money records the fee of its price, and the net fee the
      overview reports is five per cent of the net revenue, to half a cent a paid booking. */
  lemma FeesOverRuns(w: World)
    requires Reachable(w)
    ensures forall id | id in w.db.rows && Money(w.db.rows[id].status) ::
              var b := w.db.rows[id];
              b.amountCents.Some? && b.platformFeeCents.Some? && b.platformFeeCents == FeeOf(b.amountCents.value)
    ensures var o := Overview(w.db);
            var c := PaidCount(w.db.rows, w.db.nextRow);
            -50 * c <= 100 * o.platformFeeNetCents - 5 * o.netCents <= 50 * c
  {
    ReachableInv(w);
    NetFeeIsFivePercent(w, w.db.nextRow);
    forall id | id in w.db.rows && Money(w.db.rows[id].status)
      ensures var b := w.db.rows[id];
              b.amountCents.Some? && b.platformFeeCents.Some? && b.platformFeeCents == FeeOf(b.amountCents.value)
    {
      EveryPaymentHasItsFee(w, id);
    }
  }
}
