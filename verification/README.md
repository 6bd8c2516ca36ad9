# Booking, payment and refund protocol: a Dafny model and its proofs

The backend keeps one table of bookings for the desks and rooms of many coworking spaces. Six handlers write it:
create, list (which expires holds and reconciles payments), retry payment, the Stripe webhook, delete-and-refund,
and refund retry. Beside the table stands a payment ledger at Stripe that moves on its own: members pay, webhooks
come late, twice and out of order, calls fail, answers get lost, processes stop half way. What the system promises
is no property of any one handler; it is an invariant of all of them together. This project states that invariant,
proves that every handler keeps it whatever Stripe, the clock and crashes do, and derives from it what a member, a
space manager and an administrator may rely on. The interval, price and aggregate code around it is proved against
pointwise or direct-sum meanings.

## How the world is modelled

* **State.** `Schema.World` holds the tables (bookings, zones, desks and rooms, spaces), Stripe's ledger (payment
  intents, refunds by idempotency key) and the outside. Times are integer milliseconds, amounts integer cents.
  Identifiers are serial numbers that stand for `cuid`s, which are never reused.
* **The outside.** `Env.future` lists everything the outside is going to do, one `Weather` for each write and each
  Stripe call: how the ledger drifts, how far the clock moves, whether the call goes through, never arrives, loses
  its answer, or the process stops before it. Quantifying over a world quantifies over all of that. Once the process
  has stopped, its later statements do nothing; the next request starts afresh.
* **Assumptions about Stripe**, all in `StripeCalls`: succeeded and cancelled intents stay so; an intent keeps its
  booking and amount; a cancel that returns normally has cancelled the intent (the code treats the answer `other` as
  released, apps/backend/src/bookings/bookings.service.ts:256, so it needs this); a terminal intent cannot be
  cancelled; a refund without an amount is full and needs a succeeded intent; one idempotency key gives one refund
  whose first answer is replayed; an intent can succeed only after it was attached, because the member gets its client
  secret only then (apps/backend/src/bookings/bookings.service.ts:761-775). Webhook events are genuine
  (`WebhookProofs.Genuine`).
* **Two grains.** At the *handler* grain (`Bookings`, `Deletion`, `Webhook`, `Runs`) requests follow one another,
  but Stripe and the clock move between any two statements and the process may stop at any of them. At the
  *statement* grain any number of requests interleave statement by statement: all of them around one booking in
  `BookingRace` (with `RefundRace` and `ReleaseRace` about it), retries alone in `RetryRace`, creates around a whole
  table in `CreateRace`. `Grains` proves that both grains speak of the same statements. The status properties are claimed at the handler grain only; at the statement grain the unguarded
  writes break them; "What does not hold" below says how and exactly when.
* **Form.** Each handler is a function on the world, about which the properties are proved, and a method of a class
  with mutable tables (`Store`, `BookingsServices`, `DeletionServices`, `Servers`) that is proved to compute exactly
  that function, loops included. `Servers.Server.ServeAll` runs any sequence of requests on those classes.

## Files

| file | content |
|---|---|
| Schema, StripeCalls, Bookings, Deletion, Webhook, Pricing | data model and handlers |
| Protocol | the invariant `Inv`, the progress relation `Evolves`, and how single statements keep both |
| BookingProofs, ListAndRetryProofs, DeletionProofs, RemoveProofs, WebhookProofs | one handler each |
| CreateEffects, ListEffects, RetryEffects, DeletionEffects, WebhookEffects | what each handler answers and writes, in plain fields |
| Runs, ReachableStripe, Totals | whole runs, what calls that get through achieve, conservation of money |
| Charges, Stranded | charges the system loses sight of: replaced intents, and a stop inside a delete |
| BookingRace, RefundRace, ReleaseRace | everything that runs on one booking, interleaved: its invariant, refunds, deletes of money |
| Grains | the statements of the races are those of the handlers |
| RetryRace, CreateRace | concurrent retries of one payment, concurrent creates on one table |
| Store, BookingsService, DeletionService | the services as classes |
| Availability, Calendar, PricingProofs, Aggregates | intervals, calendar, prices and fees, totals |

## Where the code and its comments disagree

* apps/frontend/lib/availability.ts:6-11 says that the booking page can never show a slot as free that the backend
  then rejects. A member is only listed the member's own bookings (apps/backend/src/bookings/bookings.controller.ts:26-35),
  and the page builds its calendar from that list, so every booking of somebody else is shown as free and refused.
  `Calendar.MemberCalendarAgreesIff` gives the exact condition; `Calendar.FullCalendarAgrees` proves the comment for
  the full list.

## What does not hold, and exactly when it does

* *A released hold was not charged.* The services cancel the attached intent; a retry leaves the one it replaces open.
  `Charges.ReleasedIsChargedIff` says when a released booking was charged and when it ever can be, over all later
  runs; `Charges.ChargedHoldIsReleased` is a run of three requests in which it was.
* *A release deletes no money.* True handler by handler (`Runs.NothingGoesBack`). Statement by statement the delete by id
  takes a booking whose money came in, after the read, through another intent: `ReleaseRace.MoneyIsDeletedIff`, with a run
  in `ReleaseRace.PaymentCanBeDeleted` and what a guard would see in `ReleaseRace.WhatGuardsSee`.
* *A status never goes back.* True handler by handler (`Runs.NothingGoesBack`). Statement by statement exactly six kinds of
  statement lower it, among them the unguarded attach and reconcile writes: `RefundRace.WhenStatusGoesBack`. No booking is
  refunded twice all the same (`RefundRace.RefundedAtMostOnce`).
* *An owed refund can be retried.* True handler by handler (`Runs.OwedRefundCanBeRetried`). Statement by statement it stops
  being retryable, unpaid, exactly when an attach write, a reconcile write, the mark of a released hold or a delete lands
  on it: `RefundRace.OwedStopsIff`, over runs `RefundRace.RefundStaysInHandIff`, with a run in
  `RefundRace.ReconcileLosesARefund`.
* *What comes in through the intent of a cancelled booking is given back.* With Stripe reachable, a confirmed delete
  refunds it, records the refund as failed, or leaves the intent cancelled (`ReachableStripe.RemoveSettles`). In general
  the money can be lost exactly while the cancelled booking records no money and its intent is not cancelled
  (`Stranded.StrandedIff`). A delete leaves a hold like that when its process stops or when the cancel throws
  (`Stranded.ReleaseLeavesOpenIff`, with runs in `Stranded.StopStrandsAPayment` and `Stranded.SilenceLeavesHoldsOpen`).
* *A longer stay costs no less.* With both rates set, exactly when 23 hours and 45 minutes by the hour, rounded, cost
  no more than a day: `PricingProofs.LongerNeverCheaperIff`.
* *Twenty-four hours more cost a day more.* Exactly when the stay is at least half a minute long or one block is free:
  `PricingProofs.OneDayMoreOnTheClock`.

## Model
| member | source | states |
|---|---|---|
| Runs.RunSafe | apps/backend/src/bookings/bookings.service.ts:128-776 | every finite run of requests, webhooks and administrative writes, crashes anywhere, keeps the protocol invariant and moves the world only forward |
| Runs.ExecKeeps | apps/backend/src/payments/webhook.controller.ts:67-140 | each single handler keeps the invariant and the progress relation, whatever Stripe, the clock and crashes do during it |
| Runs.MoneyIsBacked | apps/backend/src/payments/webhook.controller.ts:81-94 | in every reachable state a PAID or refund-status row has an attached intent of its own that Stripe reports succeeded, for exactly its price, with paidAt, without a hold, and is uncancelled exactly when PAID |
| Runs.IntentsAreNotShared | apps/backend/prisma/schema.prisma:185 | in every reachable state no intent is attached to two bookings, so no write ever meets the unique constraint |
| Runs.NothingGoesBack | apps/backend/src/bookings/bookings.service.ts:377-394 | along every run the rank of a status never falls, REFUNDED is final, slot, price and cancellation time stay, the charge of a collected booking stays, and rows with money or a cancellation are never removed |
| Runs.PaymentsAreDated | apps/backend/src/bookings/bookings.service.ts:247-251 | along every run a booking that begins to carry money is paid at an instant of that run |
| Runs.NoDoubleBooking | apps/backend/prisma/migrations/20260821202823_add_booking_overlap_exclusion/migration.sql:3-9 | in every reachable state no instant belongs to two bookings of one resource, and every booking has positive length |
| Runs.HoldsAreBounded | apps/backend/prisma/schema.prisma:187-195 | in every reachable state, wherever a process stopped, exactly the uncancelled PENDING and FAILED rows carry a deadline, at most fifteen minutes past the clock |
| Runs.RefundsAreFull | apps/backend/src/payments/stripe.service.ts:296-315 | a refund under a booking's key gives back in full one succeeded charge of that booking, and a REFUNDED row records that refund, which was not declined, and the whole price |
| Runs.OwedRefundCanBeRetried | apps/backend/src/deletion/deletion.service.ts:154-155 | every reachable row whose status is REFUND_PENDING or REFUND_FAILED, also one left by a stop after the transaction, satisfies the guard of retryRefund |
| Runs.TreeIsSound | apps/backend/src/desks/desks.service.ts:43-51 | in every reachable state no live desk or room sits in a deleted zone, and a booking's space is its resource's space |
| Runs.AdministerEffect | apps/backend/src/desks/desks.service.ts:43-90 | what the administrative writes leave: a desk or room is added exactly in a live zone of the space, rates and switches are as set, bookings are untouched |
| Runs.RemovedStaysRemoved | apps/backend/src/bookings/bookings.service.ts:266-270 | a row that any run removes never comes back in any later run |
| Runs.DeletedStaysEmpty | apps/backend/src/deletion/deletion.service.ts:342-380 | after a confirmed delete, along every later run, only past bookings, lapsed holds, and lapsed holds that turned out paid stand uncancelled on the subtree, each of them there at the time of the delete |
| BookingProofs.ReleaseSafe | apps/backend/src/bookings/bookings.service.ts:225-273 | releasing holds deletes only rows whose attached intent is absent or cancelled for ever, turns a last-second payment of the attached intent into PAID, and touches nothing else |
| BookingProofs.ReleaseDecides | apps/backend/src/bookings/bookings.service.ts:230-264 | a hold is released exactly when it has no intent or its cancel answered anything but succeeded; a cancel that threw leaves the row in place |
| BookingProofs.ReleaseLoopKeeps | apps/backend/src/bookings/bookings.service.ts:230-264 | the loop's growing set holds only rows whose intent is absent or cancelled for ever, through every later round |
| BookingProofs.ClearStaleKeeps | apps/backend/src/bookings/bookings.service.ts:487-498 | the clean-up inside create concerns only lapsed holds of the same resource |
| BookingProofs.CreateSafe | apps/backend/src/bookings/bookings.service.ts:409-596 | create adds exactly its own row or none, a refused request never reaches the database, a conflict leaves no row behind, and only lapsed holds of the resource go whose attached intent is absent or cancelled |
| BookingProofs.BookFrame | apps/backend/src/bookings/bookings.service.ts:504-557 | insert and payment write one row: a failed payment takes exactly that row back, an answered one leaves exactly the row that was asked for, all others untouched |
| BookingProofs.CreatedMeans | apps/backend/src/bookings/bookings.service.ts:432-502 | a booking is only made on a live resource of an active, live zone of the space with a manager, and is a hold exactly when the manager can take payments |
| BookingProofs.FreeNeverBooks | apps/backend/src/payments/stripe.service.ts:44-48 | with payments switched on, a price that is not positive always ends in a conflict |
| CreateEffects.CheckedPrice | apps/backend/src/bookings/bookings.service.ts:457-462 | the price that is booked is that of the resource's own hourly and daily rates and the space's own flat price, and payments are taken exactly from an onboarded manager |
| CreateEffects.CreateRefuses | apps/backend/src/bookings/bookings.service.ts:423-484 | exactly which requests are not found and which are bad, by the fields of resource, zone, space and manager; a refusal changes nothing |
| CreateEffects.CreateSparesTheLive | apps/backend/src/bookings/bookings.service.ts:487-498 | a create leaves every other booking exactly as it is, but for holds of the same resource whose deadline lies before now |
| CreateEffects.CreatedIsAsAsked | apps/backend/src/bookings/bookings.service.ts:504-568 | the booking a create answers with, field by field: own price, fee of the price, fifteen minutes' hold behind an intent for that price, or unpaid without one |
| CreateEffects.CreateDecides | apps/backend/src/bookings/bookings.service.ts:500-592 | with Stripe reachable, yes when no booking of the resource meets the range, no when one does that is not past its deadline |
| BookingProofs.CreateAndAttachKeeps | apps/backend/src/bookings/bookings.service.ts:749-776 | the payment step keeps the invariant, writes only its row, and changes no row when it throws |
| ListAndRetryProofs.LookUpAllSound | apps/backend/src/bookings/bookings.service.ts:329-371 | every resolution looked up on copies one release old is still true when it is written: PAID only over a succeeded intent, FAILED only over a hold |
| ListAndRetryProofs.ApplyAllKeeps | apps/backend/src/bookings/bookings.service.ts:377-394 | the unguarded reconcile writes keep the invariant and remove nothing, given sound resolutions |
| ListAndRetryProofs.ExpireStaleKeeps | apps/backend/src/bookings/bookings.service.ts:276-305 | the expiry step of a list deletes only listed, lapsed holds whose attached intent is absent or cancelled; every other row stays or became PAID by its attached charge |
| ListAndRetryProofs.FindAllSafe | apps/backend/src/bookings/bookings.service.ts:128-143 | a list request, whose reconcile step works on stale copies, keeps the invariant, lowers no status, and removes only lapsed holds of its space whose attached intent is absent or cancelled |
| ListEffects.ResolveDecides | apps/backend/src/bookings/bookings.service.ts:337-356 | the decision for each intent status: succeeded pays, cancelled fails, open fails only with a declined attempt, untried, processing or no answer leave it |
| ListEffects.ListEffect | apps/backend/src/bookings/bookings.service.ts:128-143 | a listed booking is afterwards gone and was past its deadline, unchanged, PAID now, or, if pending, FAILED behind an intent cancelled or declined; unlisted ones are untouched |
| ListEffects.ListDecides | apps/backend/src/bookings/bookings.service.ts:307-405 | with a quiet outside every live pending booking of the list is decided by its intent exactly so |
| ListEffects.ListClearsTheWay | apps/backend/src/bookings/bookings.service.ts:276-305 | with Stripe reachable every listed hold past its deadline is gone or paid |
| ListEffects.ListAnswers | apps/backend/src/bookings/bookings.service.ts:129-142 | the answer is exactly the bookings of the space, of a member's list the member's own, that are still there, in order |
| ListAndRetryProofs.RetryKeeps | apps/backend/src/bookings/bookings.service.ts:599-747 | every path through a payment retry keeps the invariant and lowers no rank |
| ListAndRetryProofs.RetryRefuses | apps/backend/src/bookings/bookings.service.ts:608-640 | a retry of a paid, pending, foreign or unknown booking changes nothing at all |
| ListAndRetryProofs.RetryLapsed | apps/backend/src/bookings/bookings.service.ts:642-667 | a retry of a lapsed hold starts no payment: "book again" means the hold is gone and its attached intent absent or cancelled, "wait" that it still stands, as it was or paid |
| ListAndRetryProofs.RetryFrame | apps/backend/src/bookings/bookings.service.ts:669-747 | a retry that Stripe refuses hands the booking back exactly as it stood; one that starts a payment had every right to, and leaves only its row changed, PENDING behind an intent |
| RetryEffects.RetryRefuses | apps/backend/src/bookings/bookings.service.ts:608-690 | exactly which retries are not found, and how every other refusal is answered; each changes nothing |
| RetryEffects.RetryStarts | apps/backend/src/bookings/bookings.service.ts:692-732 | with Stripe reachable every payable retry, unpaid bookings included, starts a payment exactly when there is a positive price |
| RetryEffects.RetriedIsHeldAgain | apps/backend/src/bookings/bookings.service.ts:761-773 | the booking a started retry leaves, field by field: pending behind a new intent for its own price, held fifteen minutes from now |
| RetryEffects.ClaimEffect | apps/backend/src/bookings/bookings.service.ts:703-716 | the claim is won exactly by the owner of an uncancelled booking whose status is still as read, and writes status and deadline alone |
| WebhookProofs.HandleKeeps | apps/backend/src/payments/webhook.controller.ts:67-140 | every genuine event, however late, keeps the invariant and the progress relation |
| WebhookEffects.HandleEffect | apps/backend/src/payments/webhook.controller.ts:81-127 | what an event leaves in the database, field by field: PAID now through its intent, FAILED, or nothing; no other row is touched |
| WebhookEffects.EventsFold | apps/backend/src/payments/webhook.controller.ts:67-140 | after any list of deliveries that are handled, every row is the fold of the deliveries naming it, at their times |
| WebhookProofs.FoldClosedForm | apps/backend/src/payments/webhook.controller.ts:81-94 | closed form of any finite sequence of events over a waiting booking: the first success alone decides and fixes intent and time, otherwise only failures of the attached intent count |
| WebhookProofs.FoldStatus | apps/backend/src/payments/webhook.controller.ts:112-127 | such a booking ends PAID exactly when a success occurs; otherwise FAILED exactly when it began so or a failure named the attached intent; otherwise unchanged |
| WebhookProofs.IgnoresEvents | apps/backend/src/payments/webhook.controller.ts:96-101 | cancelled and money-bearing rows ignore every sequence of events |
| WebhookProofs.DeliveryOrderIrrelevant | apps/backend/src/payments/webhook.controller.ts:67-140 | the same events in any order and multiplicity leave the same status, and without a success the same row |
| RemoveProofs.RemoveKeeps | apps/backend/src/deletion/deletion.service.ts:89-176 | delete with cancel-and-refund keeps the invariant and lowers no status, wherever the process stops |
| RemoveProofs.RemoveCovers | apps/backend/src/deletion/deletion.service.ts:265-310 | right after a delete at time now, every uncancelled booking on the subtree is over or a hold whose deadline is not after now, and the whole subtree is deleted; otherwise the database is untouched |
| RemoveProofs.RemoveSpares | apps/backend/src/deletion/deletion.service.ts:342-380 | a delete stamps the whole subtree with one timestamp and leaves every other zone, desk, room and every booking that is over, cancelled, lapsed or elsewhere exactly as it was |
| RemoveProofs.StaysCovered | apps/backend/src/bookings/bookings.service.ts:32-70 | from a covered state no booking is added to, revived on, or given a new deadline on the deleted subtree |
| RemoveProofs.ImpactAddsUp | apps/backend/src/deletion/deletion.service.ts:312-336 | the preview's count is paid + unpaid + holds, each the number of occurrences of its statuses |
| RemoveProofs.PreviewCounts | apps/backend/src/deletion/deletion.service.ts:72-85 | the preview counts, by status, exactly the bookings the delete would cancel |
| RemoveProofs.PreviewRefuses | apps/backend/src/deletion/deletion.service.ts:107-114 | on the same state and time the delete answers 404 exactly when the preview does, and unconfirmed it answers with the preview and changes nothing |
| DeletionEffects.ActiveMeans | apps/backend/src/deletion/deletion.service.ts:265-310 | the bookings previewed and cancelled, by their fields |
| DeletionEffects.RemoveAnswers | apps/backend/src/deletion/deletion.service.ts:95-116 | exactly when a delete is not found or asks for confirmation, that it then writes nothing, and that with nothing to cancel the confirmation makes no difference |
| DeletionEffects.TransactionEffect | apps/backend/src/deletion/deletion.service.ts:116-148 | what the transaction writes on every booking, zone, desk and room, and nothing else |
| RemoveProofs.PreviewCancels | apps/backend/src/deletion/deletion.service.ts:118-148 | a confirmed delete cancels exactly the previewed bookings |
| RemoveProofs.PreviewReports | apps/backend/src/deletion/deletion.service.ts:171-175 | refunds succeeded + failed equal the previewed payments plus the holds paid late, and the money sent back is the previewed total when none failed and none came late |
| DeletionProofs.SettleReports | apps/backend/src/deletion/deletion.service.ts:382-422 | the settle loop's three counters equal a count over the rows it leaves behind, and every booking that was PAID ends refunded or failed |
| DeletionProofs.SettleKeeps | apps/backend/src/deletion/deletion.service.ts:389-419 | the settle loop keeps the invariant, changes only the listed rows, and never their intent |
| DeletionProofs.ReleasePendingKeeps | apps/backend/src/deletion/deletion.service.ts:425-453 | a cancelled hold ends as a hold, or its late money is picked up as a refund with a result; if Stripe answered, a row left as a hold has a cancelled intent |
| DeletionProofs.RefundOneFrame | apps/backend/src/deletion/deletion.service.ts:455-497 | the answer of refundOne is what it wrote, on its own row only |
| DeletionEffects.RefundOneEffect | apps/backend/src/deletion/deletion.service.ts:465-480 | a refund counts as made exactly when it succeeded, is pending or needs an action, and records id and amount; a failed or unanswered one is written as failed |
| DeletionEffects.ReleasePendingEffect | apps/backend/src/deletion/deletion.service.ts:425-453 | what each answer of the cancel makes of a cancelled hold: failed, left, or dated now and refunded |
| DeletionEffects.RetryRefundRefuses | apps/backend/src/deletion/deletion.service.ts:181-195 | exactly which refunds may be retried |
| DeletionProofs.RemoveTxKeeps | apps/backend/src/deletion/deletion.service.ts:97-152 | the delete transaction alone keeps the invariant, so a stop right after it is safe |
| RemoveProofs.RetryRefundKeeps | apps/backend/src/deletion/deletion.service.ts:180-213 | a refund retry keeps the invariant, writes only a row that owed a refund, and on success records the full price |
| ReachableStripe.CreateClearsTheWay | apps/backend/src/bookings/bookings.service.ts:487-498 | holds cannot block for ever: with Stripe reachable, a create past its checks leaves every lapsed hold of the resource deleted or PAID |
| ReachableStripe.ListHeals | apps/backend/src/bookings/bookings.service.ts:307-405 | with Stripe reachable, a pending booking whose charge succeeded is collected by the next list that includes it, with or without a webhook, lapsed or not |
| ReachableStripe.RetryPays | apps/backend/src/deletion/deletion.service.ts:180-213 | with Stripe reachable, one retry settles an owed refund unless the answer under its key is a refusal |
| ReachableStripe.RemoveSettles | apps/backend/src/deletion/deletion.service.ts:154-155 | with Stripe reachable, every booking a confirmed delete cancels ends refunded, with its refund on record as failed, or behind an intent cancelled for ever |
| Stranded.StaysStranded | apps/backend/src/deletion/deletion.service.ts:446-452 | along every run a cancelled booking without recorded money stays exactly as it is, whatever happens to its intent |
| Stranded.StrandedIff | apps/backend/src/deletion/deletion.service.ts:446-452 | a cancelled booking's payment can be lost on some later run (succeeded, not refunded, not retryable) exactly while no money is recorded on it and its intent is not cancelled |
| Stranded.LostStaysLost | apps/backend/src/deletion/deletion.service.ts:180-189 | once lost it stays so along every run; refund retry, webhook and reconciliation pass it by |
| Stranded.ReleaseLeavesOpenIff | apps/backend/src/deletion/deletion.service.ts:425-453 | a cancelled hold is left open to that exactly when its cancel threw with the intent not cancelled, or found it succeeded and the process stopped before writing that down |
| Stranded.StopLeavesHoldsOpen | apps/backend/src/deletion/deletion.service.ts:154-155 | a stop right behind the transaction leaves every live hold of the target so |
| Stranded.StopStrandsAPayment | apps/backend/src/deletion/deletion.service.ts:154-155 | and a payment that follows is lost along every later run |
| Stranded.SilenceLeavesHoldsOpen | apps/backend/src/deletion/deletion.service.ts:446-452 | so does a delete that answers as usual while none of its calls gets a reply |
| Charges.RemovedWasFreed | apps/backend/src/bookings/bookings.service.ts:225-273 | whichever handler removes a row, it was an unpaid hold past its deadline, and the intent attached to it is absent or cancelled by then |
| Charges.ReleasedIsChargedIff | apps/backend/src/bookings/bookings.service.ts:225-273 | a released booking was charged exactly when another intent naming it succeeded, and is charged on some later run exactly when another such intent was attached before the call and is not cancelled after it |
| Charges.RemovedGetsNoIntent | apps/backend/src/bookings/bookings.service.ts:225-273 | the handler that removes a row attaches no intent to it |
| Charges.OnlyIntentNeverCharged | apps/backend/src/bookings/bookings.service.ts:256 | when, before the call, the intent on the row is the only one ever attached to the booking, a released hold is charged on no later run |
| Charges.OtherIntentCharges | apps/backend/src/bookings/bookings.service.ts:749-776 | any other intent attached before the call, unless cancelled by then, lets the removed booking be charged |
| Charges.ChargedHoldIsReleased | apps/backend/src/bookings/bookings.service.ts:749-776 | from every state with a declined booking: retry, payment of the replaced intent without its event, and the next create removes a charged booking |
| Charges.HoldsAndDeclinesAreReached | apps/backend/src/bookings/bookings.service.ts:504-568 | such states, and live holds, are reached from an empty table by a create and a declined payment |
| ReachableStripe.ReleaseAnswers | apps/backend/src/payments/stripe.service.ts:317-335 | with Stripe reachable, every released hold ends deleted or PAID |
| Totals.SumsPartition | apps/backend/src/admin/admin.service.ts:192-199 | net + refunded + pending refund is the price of exactly the money-bearing bookings |
| Totals.OverviewByStatus | apps/backend/src/admin/admin.service.ts:195-199 | each figure of the overview is the price of the bookings of its own statuses: net PAID, refunded REFUNDED, pending those whose refund is pending or failed |
| Totals.CollectedOnlyGrows | apps/backend/src/admin/admin.service.ts:259 | between any two states of a run collectedCents grows by exactly the price of the bookings that began to carry money, and never falls |
| Totals.RetryRefundConserves | apps/backend/src/deletion/deletion.service.ts:180-213 | a refund retry moves money between the buckets and adds none |
| Totals.RemoveConserves | apps/backend/src/deletion/deletion.service.ts:382-453 | a delete adds to collectedCents exactly the price of the cancelled holds that were paid late |
| Totals.EveryPaymentHasItsFee | apps/backend/src/bookings/bookings.service.ts:761-773 | every booking that carries money records the platform fee of its price |
| Totals.NetFeeIsFivePercent | apps/backend/src/admin/admin.service.ts:195-196 | platformFeeNetCents is five per cent of netCents, to half a cent a paid booking |
| RunTotals.FeesOverRuns | apps/backend/src/admin/admin.service.ts:257-263 | both in every reachable state |
| RunTotals.CollectedOverRuns | apps/backend/src/admin/admin.service.ts:257-263 | over every run from the start the collected total is the ledger's and only grows, by the bookings that begin to carry money |
| RetryRace.OneClaimAtATime | apps/backend/src/bookings/bookings.service.ts:692-722 | in every interleaving of any number of retries at most one is past the claim, at most one wins, and at most one intent is attached, the winner's |
| RetryRace.LosersMakeNoCall | apps/backend/src/bookings/bookings.service.ts:718-732 | a retry that loses makes no Stripe call, one that wins or hands back made one, and none makes two |
| RetryRace.FailureRestores | apps/backend/src/bookings/bookings.service.ts:733-746 | whenever nobody is past the claim, has won or stopped half way, the row is exactly the one the race began with |
| RetryRace.AnotherCanWin | apps/backend/src/bookings/bookings.service.ts:703-732 | and then a further retry still wins |
| Grains.ReleaseWrites | apps/backend/src/bookings/bookings.service.ts:241-270 | seen as one booking, the handler's last-second mark and delete are the race's statements |
| Grains.PaymentWrites | apps/backend/src/bookings/bookings.service.ts:703-773 | so are claim, attach and hand-back |
| Grains.ReconcileWrites | apps/backend/src/bookings/bookings.service.ts:377-394 | so is the reconcile write |
| Grains.EventWrites | apps/backend/src/payments/webhook.controller.ts:81-127 | so are both events |
| Grains.SettlementWrites | apps/backend/src/deletion/deletion.service.ts:431-480 | so are the late mark, the released mark and the refund record |
| Grains.RetryReadAgrees | apps/backend/src/bookings/bookings.service.ts:608-667 | a retry claims, releases or refuses alike at both grains |
| Grains.ActiveAgrees | apps/backend/src/deletion/deletion.service.ts:265-310 | a delete finds a booking active alike |
| Grains.CancelAgrees | apps/backend/src/payments/stripe.service.ts:317-335 | a cancel with its look-up answers alike and leaves the same ledger |
| Grains.RefundAgrees | apps/backend/src/payments/stripe.service.ts:296-315 | so does a refund call under the booking's key |
| Grains.RetryRaceClaims | apps/backend/src/bookings/bookings.service.ts:703-722 | the claim of the retry race is the handler's |
| RefundRace.RefundedAtMostOnce | apps/backend/src/deletion/deletion.service.ts:455-497 | in every interleaving of everything that runs on a booking at most one refund is carried out, of a charge that succeeded, never more than Stripe took; REFUNDED means one full refund; a row that says a refund is owed is retryable |
| RefundRace.RetrySettles | apps/backend/src/deletion/deletion.service.ts:180-200 | wherever a run was left, one refund retry that gets through settles exactly when the key holds an issued refund of the row's intent, or is unused and that intent was charged; once in all |
| RefundRace.StatusCanGoBack | apps/backend/src/deletion/deletion.service.ts:127-137 | from every paid booking a run of a zone's delete and its desk's takes a REFUNDED row back to REFUND_PENDING |
| RefundRace.RetriesCanCross | apps/backend/src/deletion/deletion.service.ts:481-496 | of two refund retries the one that got no answer writes REFUND_FAILED over REFUNDED, and a further retry under the same key repairs it without a second refund |
| RefundRace.WhenStatusGoesBack | apps/backend/src/bookings/bookings.service.ts:377-394 | over everything that runs, exactly which statements lower the rank of a status: commit, late mark and unanswered refund record over REFUNDED, released mark and attach over money, reconcile write over money or refunds |
| RefundRace.PaidYetCancelledIff | apps/backend/src/bookings/bookings.service.ts:241-254 | exactly which statements leave a cancelled booking PAID, which no handler refunds |
| RefundRace.OwedStopsIff | apps/backend/src/deletion/deletion.service.ts:180-189 | one statement makes an owed refund unretryable exactly when it records the refund or writes over it without a guard |
| RefundRace.RefundStaysInHandIff | apps/backend/src/deletion/deletion.service.ts:180-189 | along a run a refund stays owed and retryable, or made, exactly as long as no attach write, reconcile write, released mark or delete lands |
| RefundRace.ReconcileLosesARefund | apps/backend/src/bookings/bookings.service.ts:377-394 | from every open hold a run of a list, a delete and the list's late write in which an owed refund becomes unretryable |
| CreateRace.NoInstantTwice | apps/backend/prisma/migrations/20260821202823_add_booking_overlap_exclusion/migration.sql:3-9 | under every interleaving of any number of creates with any statements of other handlers, no instant is booked twice and every booking has positive length |
| CreateRace.OneWinner | apps/backend/src/bookings/bookings.service.ts:504-592 | two requests that were both told yes and whose bookings stand share no instant of a resource, and each standing booking is the one asked for |
| CreateRace.ComesAndGoes | apps/backend/src/bookings/bookings.service.ts:487-557 | every statement of a create adds a row only by its one insert, and takes away only its own row or unpaid holds that were past their deadline when read |
| CreateRace.OneRowEach | apps/backend/src/bookings/bookings.service.ts:504-557 | over a whole run of any number of creates each inserts one row or none, exactly the one it was told yes for, a refused one leaves none behind, and every added row was inserted by one of them |
| CreateRace.PayDecides | apps/backend/src/bookings/bookings.service.ts:532-556 | a create that must pay is told yes exactly when its intent is attached to its row, which then is held fifteen minutes |
| ReleaseRace.MoneyIsDeletedIff | apps/backend/src/bookings/bookings.service.ts:236-270 | in every interleaving of everything that runs on a booking: a release deletes money exactly when, since its read, money was recorded that nothing undid; that money came through an intent other than the one read, which is cancelled or absent |
| ReleaseRace.MoneyIff | apps/backend/src/bookings/bookings.service.ts:377-394 | a run from a row without money ends with money exactly when it recorded some that no attach, failure write, released mark or delete afterwards undid |
| ReleaseRace.PaymentCanBeDeleted | apps/backend/src/bookings/bookings.service.ts:266-270 | from every declined booking a run of a retry, a release and the late success event of the first intent in which the delete takes the PAID row |
| ReleaseRace.WhoLeavesAMismatch | apps/backend/src/bookings/bookings.service.ts:241-254 | exactly the last-second mark and the reconcile write leave a PAID row that names another intent than the one it was paid through |
| ReleaseRace.WhatGuardsSee | apps/backend/src/bookings/bookings.service.ts:266-270 | a delete that tested the status it had read would take no money; one that tested the intent would take a PAID row only if it is such a mismatch |
| Protocol.CancelKeeps | apps/backend/src/payments/stripe.service.ts:317-335 | any answer of a cancel but succeeded means cancelled for ever, succeeded means succeeded, and no answer changes a row |
| Protocol.RefundIntentKeeps | apps/backend/src/payments/stripe.service.ts:296-315 | the key of a booking was never used for another charge, and a refund that answers is full |
| Protocol.CreateIntentKeeps | apps/backend/src/payments/stripe.service.ts:64-94 | a created intent carries its booking and price and disturbs no row |
| BookingsServices.BookingsService.ReleaseExpiredHolds | apps/backend/src/bookings/bookings.service.ts:225-273 | the loop with its growing set does to tables and ledger exactly what the specified release does |
| BookingsServices.BookingsService.ReconcilePendingPayments | apps/backend/src/bookings/bookings.service.ts:307-405 | lookup loop and write loop do exactly the specified reconcile |
| BookingsServices.BookingsService.FindAllForSpace | apps/backend/src/bookings/bookings.service.ts:128-143 | new tables, ledger and listed ids are those of the specified list |
| BookingsServices.BookingsService.CreateBooking | apps/backend/src/bookings/bookings.service.ts:409-596 | new tables, ledger and answer are those of the specified create |
| BookingsServices.BookingsService.RetryPayment | apps/backend/src/bookings/bookings.service.ts:599-747 | new tables, ledger and answer are those of the specified retry, claim and revert included |
| BookingsServices.BookingsService.CreateAndAttachPaymentIntent | apps/backend/src/bookings/bookings.service.ts:749-776 | new tables, ledger and result are those of the specified attach |
| DeletionServices.DeletionService.SettleCancelledBookings | apps/backend/src/deletion/deletion.service.ts:382-422 | the loop over three counters does exactly the specified settlement |
| DeletionServices.DeletionService.SoftDeleteSubtree | apps/backend/src/deletion/deletion.service.ts:342-380 | the tables afterwards are the specified soft delete of the old ones |
| DeletionServices.DeletionService.ReleasePendingPayment | apps/backend/src/deletion/deletion.service.ts:425-453 | new tables and ledger are those of the specified release of a cancelled hold |
| DeletionServices.DeletionService.RefundBooking | apps/backend/src/deletion/deletion.service.ts:455-497 | new tables, ledger and answer are those of the specified refund |
| DeletionServices.DeletionService.RemoveResource | apps/backend/src/deletion/deletion.service.ts:89-176 | new tables, ledger and answer are those of the specified delete |
| DeletionServices.DeletionService.RetryOneRefund | apps/backend/src/deletion/deletion.service.ts:180-213 | new tables, ledger and answer are those of the specified refund retry |
| Servers.WebhookController.HandleWebhook | apps/backend/src/payments/webhook.controller.ts:67-140 | new tables are those of the specified event, and the count is 1 exactly when they changed |
| Servers.Server.ServeAll | apps/backend/src/bookings/bookings.service.ts:128-776 | the classes, served any legal sequence of requests, end where the specified run ends, and keep the invariant |
| Availability.IsDayFullyOccupied | apps/frontend/lib/availability.ts:36-84 | the sweep answers true exactly when every instant of the day lies in some interval, for any list of intervals |
| Availability.FullDayHasNoStart | apps/frontend/lib/availability.ts:21-35 | on a full day every non-empty range that starts that day is occupied |
| Availability.RangeOccupiedPointwise | apps/frontend/lib/availability.ts:12-29 | over non-empty intervals a range is occupied exactly when an instant of it is covered |
| FloorPlan.GetResourceState | apps/frontend/lib/floorPlan.ts:31-59 | occupied exactly when a live booking covers now, until the least uncovered instant; otherwise the earliest start after now if it is on the same day |
| FloorPlan.ExtendOccupation | apps/frontend/lib/floorPlan.ts:44-51 | one pass over the sorted bookings reaches the end of the whole continuous occupation, overlapping and nested bookings included |
| Calendar.FullCalendarAgrees | apps/frontend/lib/availability.ts:6-11 | a calendar over all bookings of a bookable resource shows a range occupied exactly when the constraint would refuse it |
| Calendar.MemberCalendarAgreesIff | apps/backend/src/bookings/bookings.controller.ts:26-35 | a member's calendar agrees with the constraint exactly when every booking of the resource is the member's own |
| Calendar.ForeignIsFree | apps/backend/src/bookings/bookings.controller.ts:26-35 | the range of somebody else's booking is shown as free and refused |
| PricingProofs.BothRatesOptimal | apps/backend/src/bookings/bookings.service.ts:116-124 | the price with both rates is the least over all ways of dividing the stay into full days and hours, and is one of them |
| PricingProofs.BothRatesClosedForm | apps/backend/src/bookings/bookings.service.ts:116-124 | every full day at the cheaper of its two prices, the rest by the hour, rounded once |
| PricingProofs.OneDayMore | apps/backend/src/bookings/bookings.service.ts:116-124 | 96 blocks more cost exactly the cheaper of daily rate and 24 hours |
| PricingProofs.OneDayMoreOnTheClock | apps/backend/src/bookings/bookings.service.ts:90-124 | on clock times that holds exactly when the stay is at least half a minute or a single block is free |
| PricingProofs.LongerNeverCheaperIff | apps/backend/src/bookings/bookings.service.ts:90-124 | with both rates, for all rates: over all stays on the clock a longer one never costs less exactly when the hourly rate is not negative and 95 blocks by the hour cost no more than a day |
| PricingProofs.HourlyNearProRata | apps/backend/src/bookings/bookings.service.ts:107-113 | an hourly price lies between pro rata less half a cent and pro rata of fourteen minutes more plus half a cent |
| PricingProofs.HourlyByTheQuarter | apps/backend/src/bookings/bookings.service.ts:107-113 | the hourly price is the rate times the started quarter-hours of the rounded minutes, at least one, rounded once; so it is constant inside a quarter |
| PricingProofs.BothRatesByTheQuarter | apps/backend/src/bookings/bookings.service.ts:107-124 | with both rates the same quarter-hours count |
| PricingProofs.FlatPriceStands | apps/backend/src/bookings/bookings.service.ts:81-88 | without rates the flat price of the space is the price, and without one there is none |
| PricingProofs.DailyCoversTheStay | apps/backend/src/bookings/bookings.service.ts:95-99 | a daily price is the rate times the least number of days, at least one, that holds the stay |
| PricingProofs.SingleRateMonotone | apps/backend/src/bookings/bookings.service.ts:90-113 | with a single rate a longer stay on the clock never costs less |
| PricingProofs.HourlyPositive | apps/backend/src/bookings/bookings.service.ts:107-113 | an hourly price is positive exactly when rate times blocks reaches half a cent, always from two cents an hour |
| PricingProofs.FeeIsASplit | apps/backend/src/payments/stripe.service.ts:40-61 | fee and manager share add up to the amount, both within it, the fee within half a cent of five per cent; refused exactly when not positive |
| PricingProofs.FeesStayNearFivePercent | apps/backend/src/payments/stripe.service.ts:50-55 | over any list of bookings the fees stay within half a cent a booking of five per cent |
| Aggregates.Trends | apps/backend/src/analytics/analytics.service.ts:147-191 | the buckets are exactly the window of consecutive UTC days ending today, each the direct sum over its bookings |
| Aggregates.TrendAddsUp | apps/backend/src/analytics/analytics.service.ts:168-181 | the points add up to the direct sum over the whole window |
| Aggregates.Window | apps/backend/src/analytics/analytics.service.ts:148 | the window is the asked number of days within 7 to 90, and 30 when none is asked |
| Aggregates.OverviewNetBySpace | apps/backend/src/admin/admin.service.ts:217-235 | the per-space net figures add up to the platform's net |
| Aggregates.SpacesPartition | apps/backend/src/admin/admin.service.ts:172-182 | net and thirty-day figures by space add up to the platform's, closed spaces included |
| Aggregates.CountBySpace | apps/backend/src/admin/admin.service.ts:211-216 | the loop over zones gives every space the sum over its zones |
| Aggregates.CountsPartition | apps/backend/src/admin/admin.service.ts:207-210 | members by space add up to the platform's members |

## Left out

- At most one successful charge a booking: not claimed, because a retry replaces the attached intent without cancelling the old one, and both may then succeed; the second stays on Stripe's books only (see `Charges`).
- The status properties of `Runs` under statement-level interleaving: false there; the attach, reconcile, cancel and delete writes carry no guard, see the section on what does not hold.
- Database errors other than a violated exclusion constraint, a row that is gone, and a process that stops; in particular the second attempt to record REFUND_FAILED after a failed write.
- The unique constraint on resource and start time, which the exclusion constraint implies for bookings of positive length, and the one on refund ids, which follows from one refund a key.
- Reads take no turn of the outside at the handler grain: no other request runs between them, and the clock may stand anywhere before each write.
- Lookups and writes of a list request run in parallel; the model runs them in the order of the list.
- Rows come back by id here, by start time in the source; no property depends on the order.
- RetryRace: one booking, its owner, a hold that does not lapse during the race, no other handler.
- BookingRace, with RefundRace and ReleaseRace: one booking at a time; a transaction is a read and a commit, a cancel with its look-up is one step, and what one list request reads for its two steps may differ here.
- CreateRace: the other handlers' statements are arbitrary updates that keep a row's slot, and arbitrary deletes.
- The list a list request returns, beyond its ids: a FAILED row that the release step turns PAID is still returned as FAILED.
- Display names, cancellation reason, socket events, pagination, sorting for display, name search.
- `chunk`, `summarize`, the time dropdown: a line each.
- `spaceSummary` and its utilization, which counts desks and rooms without the live filter; percentages of change; the raw-SQL trends of the administrator.
- Sign-up, roles, tokens, Stripe onboarding, and webhook signatures; events are taken to be genuine.
- The width of 32-bit integer columns, and floating point: JavaScript computes these prices exactly at realistic sizes, and the model computes them in integer quarter-cents.
- Calendar and time-zone libraries: the local day of the floor plan is an arbitrary function, local midnights are parameters, and a UTC day is a division.
- Zone, desk and room CRUD beyond "the zone is live and of this space"; renaming is not modelled, and settings may change arbitrarily.
