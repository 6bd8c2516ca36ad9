/** The tables the booking, payment and deletion services share, the payment ledger that Stripe keeps,
    and the world both live in.

    Identifiers are serial numbers: the `cuid` defaults of the schema are never reused, and a counter that
    only moves forward says the same thing. Times are integer milliseconds. */
module Schema {
  datatype Option<+T> = None | Some(value: T)

  type Id = nat
  type Time = int

  const HOLD_MS: Time := 15 * 60 * 1000

  datatype Kind = DESK | ROOM
  datatype Resource = Resource(kind: Kind, id: Id)

  datatype Status = UNPAID | PENDING | FAILED | PAID | REFUND_PENDING | REFUND_FAILED | REFUNDED

  datatype Booking = Booking(
    resource: Resource,
    userId: Id,
    spaceId: Id,
    start: Time,
    end: Time,
    createdAt: Time,
    amountCents: Option<int>,
    platformFeeCents: Option<int>,
    status: Status,
    intent: Option<Id>,
    holdExpiresAt: Option<Time>,
    paidAt: Option<Time>,
    cancelledAt: Option<Time>,
    refundId: Option<Id>,
    refundedCents: Option<int>)

  datatype Zone = Zone(spaceId: Id, isActive: bool, deletedAt: Option<Time>)

  /** A desk or a room; the `Resource` key says which. */
  datatype Item = Item(zoneId: Id, hourlyRateCents: Option<int>, dailyRateCents: Option<int>, deletedAt: Option<Time>)

  datatype Manager = Manager(hasAccount: bool, onboarded: bool)
  datatype Space = Space(priceCents: Option<int>, manager: Option<Manager>)

  datatype Database = Database(
    rows: map<Id, Booking>,
    nextRow: nat,
    zones: map<Id, Zone>,
    items: map<Resource, Item>,
    spaces: map<Id, Space>)

  /** A PaymentIntent. `Open` is a fresh or declined intent, `Processing` every other state still in progress. */
  datatype IntentStatus = Open | Processing | Succeeded | Canceled

  /** `attached`: the booking row has named this intent, so its client secret may be in the member's hands. */
  datatype Intent = Intent(
    bookingId: Id, amountCents: int, status: IntentStatus, failedAttempt: bool, attached: bool)

  datatype RefundStatus = RefundSucceeded | RefundUnderWay | RefundNeedsAction | RefundDeclined
  datatype Refund = Refund(id: Id, intent: Id, amountCents: int, status: RefundStatus)

  /** `refunds` is keyed by booking, because the idempotency key is `refund-<bookingId>`. */
  datatype Stripe = Stripe(intents: map<Id, Intent>, nextIntent: nat, refunds: map<Id, Refund>, nextRefund: nat)

  /** What can happen to one call: it goes through, it never arrives, it is carried out but the answer is
      lost, or the process stops before it. */
  datatype Fault = Fine | NoReply | LostReply | Stop

  /** What the outside does just before one statement or one Stripe call: the ledger moves to `drift`, the
      clock moves by `tick`, and the call meets `fault`. */
  datatype Weather = Weather(
    drift: map<Id, Intent>, tick: nat, fault: Fault, shownCanceled: bool, refundStatus: RefundStatus)

  /** `future` holds everything the outside is going to do, one entry per statement; quantifying over it
      quantifies over every behaviour of Stripe, of the clock and of crashes. */
  datatype Env = Env(now: Time, sky: Weather, future: seq<Weather>, halted: bool)

  datatype World = World(db: Database, stripe: Stripe, env: Env)

  const CALM: Weather := Weather(map[], 0, Fine, true, RefundSucceeded)

  predicate Hold(s: Status) { s.PENDING? || s.FAILED? }

  /** Statuses under which the platform has collected the money of the booking. */
  predicate Money(s: Status) { s.PAID? || s.REFUND_PENDING? || s.REFUND_FAILED? || s.REFUNDED? }

  function Rank(s: Status): nat {
    match s
    case UNPAID => 0 case PENDING => 0 case FAILED => 0
    case PAID => 1
    case REFUND_PENDING => 2 case REFUND_FAILED => 2
    case REFUNDED => 3
  }

  predicate Terminal(s: IntentStatus) { s.Succeeded? || s.Canceled? }

  predicate Issued(s: RefundStatus) { s.RefundSucceeded? || s.RefundUnderWay? || s.RefundNeedsAction? }

  ghost predicate Ascending(ids: seq<Id>) { forall i, j | 0 <= i < j < |ids| :: ids[i] < ids[j] }

  /** The members of `s` below `n`, in ascending order: the order in which a query returns its rows. */
  function Listing(n: nat, s: set<Id>): (r: seq<Id>)
    ensures forall i | 0 <= i < |r| :: r[i] in s && r[i] < n
    ensures Ascending(r)
    ensures forall id | id in s && id < n :: id in r
  {
    if n == 0 then [] else Listing(n - 1, s) + if n - 1 in s then [n - 1] else []
  }
}
