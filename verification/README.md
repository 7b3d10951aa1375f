# Booking and payment ledger: a verified model

This project models the backend of a home-services marketplace (bookings, deposits, refunds, time slots, technicians,
carts, notifications, one-time codes, serial numbers) in Dafny and proves what its service functions keep, over whole
runs. Check it with `dafny verify dfyconfig.toml`.

## How it is built

- **Rows and constraints.** `Model.dfy` declares the rows of the ledger as datatypes, `Tables.dfy` the lookups
  (newest match first) and weighted sums a query computes, `Money.dfy` integer paise and half-even rounding.
- **One step function per service call.** `Payments`, `Bookings`, `Scheduling`, `Technicians` and `Operations` hold, for
  each `@transaction.atomic` function, a function from the old ledger to the new one and a reply. A refusal leaves the
  ledger as it was; the bad-signature error of `verify_razorpay_payment`, raised after the commit, does not. Unique
  constraints are guards that refuse the whole step. `Machine.dfy` makes these steps the events of one state machine;
  `Soundness.dfy` proves its basic invariant over every run from the empty ledger.
- **The same calls in place.** `Database.dfy` holds the tables as fields of a class. `PaymentService`, `BookingService`,
  `SchedulingService`, `TechnicianService`, `OperationsService`, `CartService` and `WebhookService` are methods that
  follow the source branch by branch, change those fields row by row, and are each proved equal, state and reply, to the
  step function of the same call. What is proved of the step functions over runs therefore holds of the methods.
- **Effects.** `PaymentEffects`, `BookingEffects`, `DeskEffects` and `CartEffects` say, without the step functions' own
  terms, exactly when each call is accepted, what it answers, what it changes and what it announces.
- **Properties.** One file per subject: orders, refunds, refund states, history, technician pointer, balances, capacity,
  technicians' calendars, the webhook protocol, checkout. `Serials`, `Invoices`, `Notifications` and `Otp` are machines
  of their own.

## Where a natural property fails, and exactly when

The model keeps the code as it is. Each of these is proved with the condition that decides it; `Escapes.dfy`,
`ShopEscapes.dfy` and, for the smaller machines, lemmas beside it give runs or schedules in which the condition fails.

- **Convergence of an order.** `_mark_payment_failed` stores whatever payment id a bad signature or a failure webhook
  names. If it names another order's, the unique constraint from then on refuses that order's own valid capture, by client
  and by webhook, and nothing changes. A valid capture of a fresh order pays it exactly when no other row holds its id
  (`OrderProofs.CaptureSucceedsIff`), and a run ends paid exactly when it holds such a capture (`Convergence`, for every
  run of the order's events).
- **Replay of a checkout.** `Service.clean` lets a percentage deposit without a percentage pass, and the cart response
  raises on such a service. While an unbooked row of the cart waits for one, repeating a committed checkout under its own
  key and fingerprint is refused instead of answered with its bookings, though nothing is created. It is answered with the
  very same bookings exactly when the cart can be priced (`CheckoutProofs.ReplayRestoresIff`, over any run and with
  `CheckoutExactlyOnce` for both endpoints); `ShopEscapes.dfy` gives a run from the empty shop.
- **Slot capacity.** Three kinds of step bring a booking back into its slot without asking for a place: a payment of a
  booking that holds none, a failed refund that restores CONFIRMED, and the conversion of an existing booking. For every
  step the slot stays within its capacity exactly when the step brings no booking back into it or a place is free
  (`CapacityProofs.StepOverfillsIff`). Runs are bounded by capacity plus such re-entries (`CapacityHolds`).
- **Refund budget.** Reconciliation or a webhook can revive a refund already recorded FAILED, and a webhook can bring in a
  refund that was not requested here. For every step the refunds stay within their payment exactly when what the step
  brings in still fits (`RefundProofs.StepFitsIff`).
- **REFUNDED is not final.** A capture makes a REFUNDED payment SUCCESS and its booking CONFIRMED again, and a failure
  report makes it FAILED, exactly under the guards named in `OrderProofs.RefundedStaysIff`.
- **REFUND_PENDING backed by a pending refund.** The only step that breaks this is a refund webhook that names a known
  refund together with a payment of another booking, while that refund is the last pending one of its own
  (`PendingProofs.StepBacksIff`).
- **Technicians' calendars.** Rescheduling an assigned booking is not rechecked; it double-books exactly when the
  technician is busy in the new window (`TechnicianProofs.RescheduleKeepsFreeIff`).
- **Balance equation.** A lead's quote breaks `balance_due = max(0, total - advance_paid)` exactly when quote plus
  training fee is negative (`BalanceProofs.QuoteDecidesBalance`).
- **PROCESSED webhooks.** `DEPLOYMENT.md` says a processed duplicate is only acknowledged. The finishing update asks
  nothing of the row, so a claimant that comes back with an exception after more than five minutes overwrites PROCESSED
  with FAILED, and only that does (`WebhookProtocol.ProcessedLostIff`).
- **Delivered notifications.** The admin actions read the row and write it later without a lock. A report of delivery
  that lands in between is overwritten; nothing else lowers DELIVERED or READ (`Notifications.LoweredIff`).
- **Booking numbers.** A month's first counter starts above all ten-character numbers exactly when the greatest number in
  text order has that form or no such number but 0000 is there (`Serials.NewCounterIsClearIff`). Otherwise the counter
  restarts at zero and, where 0001 is taken, every booking of the month is refused for good (`Serials.ClashIsForGood`).

## Model

| member | source | states |
|---|---|---|
| BalanceProofs.FinishedJobsArePaid | apps/bookings/services.py:229-241 | over every run of booking, payment and technician steps: 0 <= collected <= due, one SUCCESS advance past confirmation, and a finished job's SUCCESS payments equal its total |
| BalanceProofs.BusinessInFull | apps/bookings/services.py:340-365 | the invariant behind it: deposit, due and collected amounts agree with the payment rows for every booking |
| BalanceProofs.LedgerBalanced | apps/bookings/services.py:362-365 | over every run whose committed quotes are not negative in total, leads, manual payments and refunds included: due is max(0, total - paid) and collected is the sum of SUCCESS balance payments |
| BalanceProofs.QuoteDecidesBalance | apps/operations/services.py:387-396 | a lead conversion keeps those equations if and only if its quote and training fee do not add up to a negative total |
| BalanceProofs.TotalsStayFrozen | apps/bookings/services.py:123-150 | the total of an existing booking never changes again, in any run |
| BalanceProofs.TotalsAreFrozen | apps/bookings/services.py:131-154 | no single step changes the total or the deposit of an existing booking |
| CapacityProofs.CapacityHolds | apps/scheduling/services.py:38-83 | over every run and slot: reserved bookings are at most capacity plus unguarded re-entries |
| CapacityProofs.GuardedStepsNeverOverfill | apps/bookings/services.py:97-113 | without payment, refund and conversion steps a slot within its capacity stays so, capacity edits included |
| CapacityProofs.ReentryRoutes | apps/payments/services.py:456-457 | an unguarded step takes a place only by confirming a paid booking, by a failed refund, or by converting an existing booking |
| CapacityProofs.StepOverfillsIff | apps/payments/services.py:444-458 | for every step a slot stays within its capacity if and only if the step brings no booking back into it or a place is free |
| CapacityProofs.PaymentOverfillsIff | apps/payments/services.py:396-400 | a verified payment, by client or gateway, keeps the slot within capacity if and only if its booking still held a place or one was free |
| WebhookProtocol.DispatchManyTimes | apps/payments/services.py:276-300 | dispatching one payload n times in a row leaves the whole state of dispatching it once |
| WebhookProtocol.DispatchTwice | apps/payments/services.py:303-365 | the second dispatch of a payload changes nothing, notices included |
| WebhookProtocol.ClaimsAreCounted | apps/payments/services.py:234-252 | under any interleaving and crashes: attempts equals the number of claims, and PROCESSED implies a dispatch returned |
| WebhookProtocol.RaisingDispatchChangesNothing | apps/payments/services.py:253-266 | a dispatch that refuses or that the database rolls back leaves the ledger unchanged |
| WebhookProtocol.OneDispatchInFlight | apps/payments/services.py:242-248 | if claimants finish or crash within five minutes, at most one is in flight and it holds the record |
| WebhookProtocol.ProcessedIsAbsorbing | apps/payments/services.py:240-241 | then PROCESSED is for good and no later claim is granted |
| WebhookProtocol.ProcessedLostIff | apps/payments/services.py:255-259 | PROCESSED is lost if and only if a claimant comes back with an exception |
| WebhookProtocol.UninterruptedCall | apps/payments/services.py:223-273 | an undisturbed call is refused on a done or fresh record, else takes exactly one dispatch and records its outcome |
| WebhookProtocol.ClaimGrantedIff | apps/payments/services.py:240-252 | a claim is granted if and only if the record is new, failed, or silent for more than five minutes |
| OrderProofs.Convergence | apps/payments/services.py:85-121 | any mix of good and bad verifications, capture and failure webhooks of one order, under any payment ids, ends in one of three exact states; it is paid if and only if the run holds a valid capture under an id no other row holds |
| OrderProofs.CaptureSucceedsIff | apps/payments/services.py:98-106 | a valid capture of a fresh order pays it if and only if no other row holds the payment id it names; else nothing changes |
| OrderProofs.ConvergesToConfirmed | apps/payments/services.py:368-430 | with such a capture: SUCCESS, CONFIRMED, deposit paid, one confirmation entry, at most one failure notice |
| OrderProofs.OneActiveAdvance | apps/payments/models.py:58-72 | at most one CREATED, PENDING or SUCCESS advance per booking in every reachable state |
| OrderProofs.AmountsAlwaysMatch | apps/payments/services.py:91-92 | every gateway order costs its booking's deposit in every reachable state, so the mismatch guard never fires |
| OrderProofs.OrderNeverClashes | apps/payments/services.py:54-82 | creating an order never trips a unique constraint, and a row is made exactly when key and active advance are both new |
| OrderProofs.PaidOnlyBecomesRefunded | apps/payments/services.py:447-449 | SUCCESS is left only for REFUNDED, and only when settled refunds cover the amount |
| OrderProofs.RefundedStaysIff | apps/payments/services.py:93-101 | for every step a REFUNDED payment stays so if and only if no capture or failure report of its order passes the guards and constraints; which makes it SUCCESS with its booking CONFIRMED, or FAILED |
| PaymentEffects.VerifyAnswersWithPaidRow | apps/payments/services.py:119-121 | for every ledger and call: a committed verification answers with the order's row if and only if that row is SUCCESS afterwards, else with the verification failure |
| PaymentEffects.PaymentReplyIsPaid | apps/payments/services.py:93-95 | whoever is answered with a payment is answered with the paid row of that order |
| PaymentEffects.VerifyAnswer | apps/payments/services.py:86-121 | every answer of a verification, decided by who asks, what is paid and which payment ids are taken |
| PaymentEffects.PaidOrderAnswers | apps/payments/services.py:93-95 | verifying a paid order again answers its owner with the row and changes nothing |
| PaymentEffects.CaptureEffect | apps/payments/services.py:101-116 | the whole change a capture makes: row, deposit, status, history entry, notices |
| PaymentEffects.FailureEffect | apps/payments/services.py:368-391 | the whole change a failure makes: row, booking that still waits, one notice on the first failure |
| PaymentEffects.FailuresAreRecorded | apps/payments/services.py:303-317 | bad signatures and failure webhooks are such failures |
| PaymentEffects.DispatchAnswer | apps/payments/services.py:276-300 | only unknown events are ignored; a committed capture leaves an order of its amount paid, a committed failure one paid or failed |
| PaymentEffects.KeyedOrderAnswers | apps/payments/services.py:42-52 | a used key answers with its own order, or a refusal if that failed; the state stays |
| PaymentEffects.ActiveOrderAnswers | apps/payments/services.py:54-62 | a paid booking is refused and an order under way is answered again; the state stays |
| PaymentEffects.NewOrderAnswers | apps/payments/services.py:64-82 | a new order costs the deposit, waits to be paid, and is the one answered |
| RefundProofs.RefundsWithinBudget | apps/payments/services.py:148-152 | over every run the non-FAILED refunds of a payment stay within its amount plus what webhooks and revivals brought in |
| RefundProofs.StepWithinBudget | apps/payments/services.py:345-351 | each step adds at most the revived or foreign refund it names |
| RefundProofs.RevivalFitsIff | apps/payments/services.py:198-212 | reconciling a FAILED refund as not failed keeps the budget if and only if its amount still fits |
| RefundProofs.StepFitsIff | apps/payments/services.py:140-180 | for every step the refunds stay within their payment if and only if what the step brings in on its own still fits |
| RefundProofs.HookRevivalFitsIff | apps/payments/services.py:345-351 | a webhook that revives a FAILED refund keeps the budget if and only if its amount still fits |
| RefundProofs.ForeignRefundFitsIff | apps/payments/services.py:331-344 | a webhook about an unknown refund keeps the budget if and only if its amount still fits |
| RefundProofs.RefundReplay | apps/payments/services.py:140-146 | after any run, a second request with the same key answers with the first refund, changes nothing and asks the provider for nothing |
| RefundProofs.ApplyRefundIdempotent | apps/payments/services.py:444-458 | settling the refund state twice is settling it once |
| RefundProofs.RefundStepsSettle | apps/payments/services.py:447-457 | after every refund step: covered means REFUNDED, else pending means REFUND_PENDING, else not REFUND_PENDING |
| PaymentEffects.RefundsAreTold | apps/payments/services.py:181-193 | for every step: exactly one REFUND_COMPLETED per refund newly SUCCESS, one REFUND_INITIATED per refund added, all for the booking settled |
| PaymentEffects.HookTells | apps/payments/services.py:352-365 | the same for a refund webhook, known refunds and new ones |
| PaymentEffects.KeyedRefundAnswers | apps/payments/services.py:140-146 | a used key answers with its own refund and asks the provider for nothing |
| PaymentEffects.NewRefundAnswers | apps/payments/services.py:148-179 | under a new key the provider is asked if and only if the amount is positive and still outstanding on a refundable payment |
| PaymentEffects.RefundStatusReads | apps/payments/services.py:461-467 | what each word of the gateway makes of a refund |
| RefundProofs.RowsKeptByRun | apps/payments/services.py:104-115 | payment rows are never removed, and only status, payment id and verification ever change on them |
| PendingProofs.PendingIsBacked | apps/payments/services.py:453-455 | in every run that strands none, a REFUND_PENDING booking has a pending refund |
| PendingProofs.StepBacksIff | apps/payments/services.py:320-351 | any step keeps that if and only if it is not a refund webhook naming another booking's payment for a last pending refund |
| TechnicianProofs.TechniciansNeverOverlap | apps/technicians/services.py:80-118 | over every run whose committed reschedules of assigned bookings land in free windows, no technician has two busy bookings in overlapping windows |
| TechnicianProofs.RescheduleKeepsFreeIff | apps/bookings/services.py:316-321 | rescheduling keeps that if and only if the technician is free in the new window |
| TechnicianProofs.EligibleIff | apps/technicians/services.py:36-63 | the error list is empty if and only if all nine conditions hold, hours, leave and other jobs written over the rows and days counted from Monday |
| TechnicianProofs.ErrorListedIff | apps/technicians/services.py:42-62 | each message is in the list if and only if its condition over the rows fails |
| TechnicianProofs.ErrorsAreOrdered | apps/technicians/services.py:42-63 | the messages stand in one fixed order, each at most once |
| PointerProofs.TechnicianMatchesLog | apps/technicians/services.py:120-149 | in every run: a technician is named if and only if exactly one assignment is open, and it is that technician's |
| PointerProofs.OpenIsTheOnly | apps/technicians/services.py:121-126 | the open assignment the code looks up is the only one, so the unique constraint on open assignments never fires |
| DeskEffects.AssignAcceptedIff | apps/technicians/services.py:103-118 | assigning is accepted if and only if the booking is confirmed or assigned and the technician has no errors |
| DeskEffects.AssignedRow | apps/technicians/services.py:120-163 | the whole change: the technician named, older log rows ended, one row open |
| DeskEffects.RemoveAcceptedIff | apps/technicians/services.py:174-199 | removing is accepted if and only if a row is open; the whole change |
| DeskEffects.WindowsAreUnique | apps/scheduling/services.py:58-64 | in every run no two slots of an area share day and window |
| DeskEffects.EditAcceptedIff | apps/scheduling/serializers.py:36-57 | an edit is accepted if and only if the new row makes sense, is alone in its window, has room for the holders and moves no booked slot; every carried attribute is applied |
| DeskEffects.LeadAcceptedIff | apps/operations/services.py:375-407 | a lead becomes a confirmed work order if and only if its booking is accepted; its amounts, priced or as quoted |
| DeskEffects.ConversionRow | apps/operations/services.py:397-407 | the whole change of converting an existing booking |
| DeskEffects.ManualPaymentAcceptedIff | apps/operations/services.py:453-474 | a manual payment is taken if and only if amount, link, key and the single active advance allow it; its whole change |
| HistoryProofs.HistoryIsPath | apps/bookings/services.py:383-404 | in every run without refunds the history is a path to the status, the silent failure hop apart |
| HistoryProofs.CompletedWalkedTheWholeWay | apps/technicians/services.py:151-157 | a completed booking's history visits CONFIRMED, TECHNICIAN_ASSIGNED, IN_PROGRESS, COMPLETED in order |
| BookingEffects.BookingAcceptedIff | apps/bookings/services.py:42-154 | a booking request is accepted if and only if service, address, area and slot allow it; the row it adds, priced from the service's own fields, and the answer |
| BookingEffects.SnapshotCosts | apps/bookings/services.py:116-129 | subtotal, discount, fee, total and deposit in the service's fields; a percentage to the nearest paisa, ties to even |
| BookingEffects.BookableIffVacant | apps/scheduling/services.py:67-75 | a slot is bookable if and only if it is open, not shut by a closure, has not begun and has fewer holders than places |
| BookingEffects.HoldersCount | apps/scheduling/services.py:38-46 | the reserved count is the number of bookings of the slot in the five capacity statuses |
| BookingEffects.AvailableAreTheRest | apps/scheduling/services.py:49-50 | the free places: capacity less holders, never below nothing |
| BookingEffects.ExpiredIffBegun | apps/scheduling/services.py:29-35 | a slot has expired if and only if the instant it opens has come |
| BookingEffects.ShutIsClosed | apps/scheduling/services.py:90-95 | an area is closed if and only if an active closure of it or of all areas covers the day |
| BookingEffects.CancelAcceptedIff | apps/bookings/services.py:270-281 | who may cancel from which status, and for a customer until how many hours before the slot opens |
| BookingEffects.CancelledRow | apps/bookings/services.py:283-299 | the whole change a cancellation makes, the flag included |
| BookingEffects.CancelledIsRecorded | apps/bookings/services.py:283-293 | in every run a booking is marked cancelled if and only if its history records a cancellation |
| BookingEffects.RefundsNeverReviveCancelled | apps/payments/services.py:456-457 | in every run no refund step brings a booking that was ever cancelled back to CONFIRMED |
| BookingEffects.RescheduleAcceptedIff | apps/bookings/services.py:303-336 | rescheduling is accepted if and only if owner, status, time and slot allow it; its whole change |
| BookingEffects.WorkSteps | apps/bookings/services.py:194-267 | driving, starting, completing and closing: accepted exactly from their stage, with their whole change |
| BookingEffects.CollectAcceptedIff | apps/bookings/services.py:339-373 | a balance is taken if and only if status, amount and key allow it; PAID exactly once nothing is left |
| CheckoutProofs.CheckoutExactlyOnce | apps/bookings/idempotency.py:7-36 | both endpoints in any mix, any run before and between: after a request was answered with bookings, the same key creates and stores nothing more, a declined request changes nothing, and the answer is fixed: the stored bookings for the same fingerprint, unless the cart cannot be priced; a refusal for another |
| CheckoutProofs.ReplayRestoresIff | apps/bookings/cart.py:187-193 | a repeated checkout is answered with the very same bookings if and only if the cart can be priced; else it is refused and changes nothing |
| CheckoutProofs.KnownKeyReplays | apps/bookings/views.py:204-217 | both endpoints: with a known key nothing is created or stored and the answer is exactly determined by form, fingerprint and whether the cart can be priced |
| CheckoutProofs.CommittedRequestIsStored | apps/bookings/idempotency.py:33-36 | both endpoints: a request answered under a new key stores exactly those bookings, the customer's, one per requested service and in order; under a known key it is the stored one |
| CheckoutProofs.RestoreNeverFails | apps/bookings/idempotency.py:27-30 | the restore-failure branch is unreachable in every run, for both endpoints |
| CheckoutProofs.RunKeepsRequests | apps/bookings/idempotency.py:8-13 | a stored request is never rewritten by any run |
| CheckoutProofs.CheckoutKeepsCart | apps/bookings/cart.py:64-98 | count, total and deposit total of the cart are the same before and after a committed checkout |
| CartEffects.ResponseAddsUp | apps/bookings/cart.py:73-98 | each of the customer's rows adds one, its price and its deposit; a booked row its frozen amounts, another the service's present ones |
| CartEffects.PurgeRemovesSettled | apps/bookings/cart.py:65-68 | the purge removes exactly the customer's rows whose deposit is in |
| CartEffects.ShowEffect | apps/bookings/cart.py:104-108 | showing the cart purges it, or fails and leaves everything as it was |
| CartEffects.LineEffect | apps/bookings/cart.py:123-139 | what a line does to the row of its service, and exactly when a saved booking is taken over |
| CartEffects.AddRefusesGone | apps/bookings/cart.py:116-119 | unavailable services are refused, or left out when a guest cart is merged |
| CartEffects.DiscardRemoves | apps/bookings/cart.py:150-153 | discarding removes exactly the customer's rows of that service |
| CartEffects.QuantityEffect | apps/bookings/cart.py:157-168 | a quantity is set on the unbooked row, and refused on a booked one |
| CartEffects.BadItemsIff | apps/bookings/cart.py:52-56 | a checkout is refused for its form if and only if it selects nothing, more than a hundred, or a service twice |
| CartEffects.LineOutcome | apps/bookings/cart.py:200-213 | a checkout line books an unbooked row or takes over a booking that still waits for payment |
| CartEffects.CartsStayInBounds | apps/bookings/cart.py:120-124 | in every run of the shop no cart holds a service twice or more than a hundred of them |
| CheckoutProofs.CheckoutNeverOverfills | apps/bookings/cart.py:200-213 | a checkout of many services never fills a slot beyond capacity |
| CheckoutProofs.LedgerIsReachable | apps/bookings/cart.py:194-215 | every ledger reached through carts and checkouts is reached by the ledger's own steps, so all results above hold there |
| Catalogue.QuoteIsSnapshot | apps/bookings/services.py:116-129 | the cart quote equals the booking snapshot and fails on the same services |
| Catalogue.DepositWithinTotal | apps/catalogue/models.py:79-104 | for a clean service the deposit is between nothing and the total; pricing fails only on a percentage without a value |
| Money.HalfEvenUnique | apps/bookings/services.py:124-125 | nearest value with ties to even determines the rounded deposit |
| Soundness.RunSound | apps/payments/services.py:72-81 | in every run: references resolve, no two rows clash, gateway orders cost their deposit, service_date is the slot's date |
| Machine.RefusedStepsChangeNothing | apps/payments/services.py:35-36 | a refused step leaves the ledger unchanged |
| Escapes.LatePaymentOverfills | apps/payments/services.py:396-400 | from the empty ledger: a slot of capacity one reserves two bookings after a failed payment is captured late |
| Escapes.FailedRefundOverfills | apps/payments/services.py:456-457 | from the empty ledger: the same after a refund fails while somebody else booked the place |
| Escapes.ConversionOverfills | apps/operations/services.py:397-399 | from the empty ledger: the same after a cancelled booking is converted |
| Escapes.BorrowedIdBlocksPayment | apps/payments/services.py:371-374 | from the empty ledger: after one bad signature under another order's payment id, no capture of that order changes anything |
| Escapes.RevivedRefundExceedsPayment | apps/payments/services.py:207-212 | from the empty ledger: a failed refund reported as processed after a second one doubles what the payment refunds |
| Escapes.RefundedIsPaidAgain | apps/payments/services.py:93-106 | from the empty ledger: a capture delivered after a whole refund makes the payment SUCCESS and its booking CONFIRMED |
| Escapes.RefundedFailsAgain | apps/payments/services.py:309-317 | from the empty ledger: a failure webhook after a whole refund makes the payment FAILED |
| ShopEscapes.ReplayIsRefused | apps/bookings/cart.py:84-85 | from the empty shop: a committed checkout, sent again after a service left in the cart lost its percentage, is refused |
| Escapes.CrossedRefundStrands | apps/payments/services.py:327-351 | from the empty ledger: one refund webhook leaves a booking REFUND_PENDING with nothing pending behind it |
| Escapes.RescheduleDoubleBooks | apps/bookings/services.py:303-321 | from the empty ledger: one reschedule puts two of a technician's jobs in the same window |
| Escapes.NegativeQuoteUnbalances | apps/operations/services.py:387-396 | from the empty ledger: a lead quoted below nothing breaks the balance equation |
| WebhookProtocol.LateExceptionOverwrites | apps/payments/services.py:255-259 | wherever a payload is refused now and accepted after one other step, a schedule overwrites PROCESSED by an overtaken exception |
| Escapes.EarlyCaptureLosesProcessed | apps/payments/services.py:255-259 | such a ledger, step and payload: a capture that arrives before its order is recorded |
| Serials.NumbersAreDense | apps/bookings/services.py:174-191 | over every run, from any office, a month's numbers are consecutive from where its counter stood and never pass 9999 |
| Serials.NumbersIncrease | apps/bookings/services.py:187-191 | they strictly increase in text order, in every run |
| Serials.NumbersFollow | apps/bookings/services.py:180-184 | where the month starts clear they follow every earlier number of the ten-character form |
| Serials.NumbersStayDifferent | apps/bookings/models.py:33 | in every run different numbers stay different |
| Serials.NumbersNeverClash | apps/bookings/services.py:187-188 | in a month that starts clear no number is taken and refusal means exactly that the month is used up |
| Serials.NewCounterIsClearIff | apps/bookings/services.py:178-186 | a new counter starts above all such numbers if and only if the greatest has the form or none but 0000 is there |
| Serials.FirstNumberClashesIff | apps/bookings/services.py:185-191 | the first number is taken if and only if 0001 exists and a number out of form hides it |
| Serials.ClashIsForGood | apps/bookings/services.py:188-191 | a month whose next number is taken issues nothing from then on, whatever other months issue |
| Serials.OutOfFormNumberStopsTheMonth | apps/bookings/services.py:185-186 | a concrete family of such months |
| Serials.FormOrder | apps/bookings/services.py:191 | zero padding makes text order serial order |
| Serials.FirstNumberOfApril | apps/bookings/services.py:191 | what a booking number looks like |
| Digits.TextOrderIsNumericOrder | apps/bookings/services.py:181 | for digit strings of one length, lexicographic order is numeric order |
| Serials.NumberTable.GenerateBookingNumber | apps/bookings/services.py:174-191 | in place: one number, or the tables as they were |
| Invoices.EveryBookIsOrderly | apps/payments/invoices.py:20-54 | in every run: one invoice per booking, and every row is numbered by its rank in its financial year |
| Invoices.InvoiceNumbersAreUnique | apps/payments/invoices.py:42 | no two invoices share a number, across years too |
| Invoices.InvoiceIsKept | apps/payments/invoices.py:23-25 | asking again returns the same invoice whatever changed since |
| Invoices.IssuedIff | apps/payments/invoices.py:26-54 | an invoice results if and only if one existed or the booking is PAID or COMPLETED; its amounts are the booking's, cgst + sgst = tax, within one paisa of each other |
| Invoices.SameLabelIff | apps/payments/invoices.py:15-17 | two days share a financial year label if and only if no first of April lies between them |
| Invoices.LabelReads | apps/payments/invoices.py:15-17 | the label of a four-digit year: the year, a hyphen, the last two digits of the next |
| Invoices.FirstInvoiceReads | apps/payments/invoices.py:42 | what an invoice number looks like |
| Invoices.InvoiceTable.Issue | apps/payments/invoices.py:20-54 | in place: counter and row, or nothing |
| Notifications.WhereCallbacksEnd | apps/notifications/views.py:63-73 | the final status after any sequence of callbacks from any start |
| Notifications.WhereTextsEnd | apps/notifications/views.py:47-73 | the same in the provider's own words |
| Notifications.CallbackKeepsId | apps/notifications/views.py:74-79 | the first message id is kept; the error stands exactly while FAILED |
| Notifications.SendingAllowedIff | apps/notifications/views.py:122-165 | which action is admitted from which status, and what it leaves |
| Notifications.WriteEffect | apps/notifications/services.py:49-76 | what a write that comes late takes from the row it read |
| Notifications.DeliverySendsIff | apps/notifications/tasks.py:15-23 | the task sends a QUEUED or FAILED row if the provider accepts it, and else leaves it untouched |
| Notifications.OrderOfCallbacksIsIrrelevant | apps/notifications/views.py:69-73 | once anything arrived, only which reports came matters, not their order |
| Notifications.LoweredIff | apps/notifications/views.py:128-164 | DELIVERED or READ is lowered if and only if a request writes that read the row before it arrived |
| Notifications.ArrivalIsKept | apps/notifications/services.py:49-76 | where no report of arrival crosses an open request, no run of any writers lowers it |
| Notifications.WholeActionsNeverLower | apps/notifications/views.py:142-150 | an action read and written without a callback between keeps an arrived notification whole |
| Notifications.CrossedRetryLosesDelivery | apps/notifications/views.py:128-134 | a retry that a delivery report crosses loses it |
| Notifications.Notification.DeliveryCallback | apps/notifications/views.py:63-82 | in place: status merge, message id and error text |
| Notifications.Notification.SendNotification | apps/notifications/services.py:49-76 | in place: attempts, status, message id |
| Notifications.Notification.Act | apps/notifications/views.py:122-165 | in place: retry, send and cancel with their guards |
| Notifications.Notification.DeliverNotification | apps/notifications/tasks.py:7-23 | in place: skips finished rows, and a provider failure leaves the row as it was |
| Otp.ChallengeIsKept | apps/accounts/otp/providers.py:39-80 | in every run: attempts <= 5, each sent code matches at most once, with that code and in time, and sends are 60 seconds apart |
| Otp.GuessesAreFew | apps/accounts/otp/providers.py:64-76 | any window of W seconds sees at most 5 * (W / 60 + 2) comparisons |
| Otp.LimitsHold | apps/accounts/otp/providers.py:43-68 | in every run at most five attempts stand and sends are a minute apart |
| Otp.SendEffect | apps/accounts/otp/providers.py:39-55 | a code is sent if and only if a minute has passed and it is delivered; the whole row afterwards |
| Otp.TryEffect | apps/accounts/otp/providers.py:61-76 | a try is compared if and only if the code is fresh, unconsumed and tried fewer than five times; the whole row afterwards |
| Otp.ValidMobileIff | apps/accounts/otp/providers.py:32-33 | which mobiles are accepted |
| Otp.OtpProvider.SendOtp | apps/accounts/otp/providers.py:31-57 | in place, for one mobile: throttled, undelivered and invalid sends leave no trace |
| Otp.OtpProvider.VerifyOtp | apps/accounts/otp/providers.py:59-80 | in place: counts the attempt, consumes on a match, leaves other mobiles alone |
| PaymentService.CreateAdvancePaymentOrder | apps/payments/services.py:35-82 | in place, equal to its step in state and reply |
| PaymentService.VerifyRazorpayPayment | apps/payments/services.py:85-121 | in place; a bad signature commits the failure and then raises |
| PaymentService.ConfirmBookingAfterPayment | apps/payments/services.py:394-430 | in place: amounts, status, one history entry unless confirmed before |
| PaymentService.MarkPaymentFailed | apps/payments/services.py:368-391 | in place: one notice on the first failure only |
| PaymentService.RequestRefund | apps/payments/services.py:124-194 | in place, with replay by key and the remaining-amount guard |
| PaymentService.ApplyRefundState | apps/payments/services.py:444-458 | in place on source and booking |
| PaymentService.ReconcileRefund | apps/payments/services.py:197-220 | in place, one completion notice on the change to SUCCESS |
| PaymentService.DispatchWebhook | apps/payments/services.py:276-317 | in place: the four kinds of event |
| PaymentService.ProcessRefundWebhook | apps/payments/services.py:320-365 | in place: creates or updates the refund, then settles |
| WebhookService.WebhookEvents.ClaimEvent | apps/payments/services.py:234-252 | in place: the claim transaction |
| WebhookService.WebhookEvents.FinishEvent | apps/payments/services.py:255-272 | in place: the finishing update |
| WebhookService.WebhookEvents.ProcessRazorpayWebhook | apps/payments/services.py:223-273 | an undisturbed call makes three moves of the protocol and leaves other payloads' records alone |
| BookingService.BookSlot | apps/bookings/services.py:42-76 | in place: checks in the source's order, snapshot price, first history entry |
| BookingService.LockAndValidateSlot | apps/bookings/services.py:97-113 | the refusal of a slot, or none |
| BookingService.TransitionBooking | apps/bookings/services.py:383-394 | in place: status, then history entry |
| BookingService.StartBooking | apps/bookings/services.py:194-206 | in place, guarded by status and technician |
| BookingService.MarkTechnicianEnRoute | apps/bookings/services.py:209-225 | in place, guarded by status |
| BookingService.CompleteBooking | apps/bookings/services.py:228-254 | in place, guarded by status, technician and balance |
| BookingService.CloseBooking | apps/bookings/services.py:257-267 | in place, guarded by status |
| BookingService.CancelBooking | apps/bookings/services.py:270-300 | in place, by actor, with the customer's policy window |
| BookingService.RescheduleBooking | apps/bookings/services.py:303-336 | in place: new slot and date after the capacity check |
| BookingService.RecordBalanceCollection | apps/bookings/services.py:339-373 | in place: payment row, collected amount, PAID when it covers the due |
| SchedulingService.EnsureDailySlots | apps/scheduling/services.py:53-64 | in place: a run of ordinary slot creations after which all six windows exist, older rows untouched |
| SchedulingService.DailyWindowsFillTheDay | apps/scheduling/services.py:11-19 | the default windows: two hours each, one after another, from eight to eight |
| TechnicianService.GetTechnicianEligibilityErrors | apps/technicians/services.py:36-63 | the errors in the order the source appends them |
| TechnicianService.GetEligibleTechnicians | apps/technicians/services.py:66-77 | exactly the technicians without errors, in table order and once each: the database filter hides none |
| TechnicianService.AssignTechnician | apps/technicians/services.py:96-164 | in place: ends another technician's open row, opens one, writes history |
| TechnicianService.RemoveTechnicianAssignment | apps/technicians/services.py:167-199 | in place: ends the open row and clears the pointer |
| OperationsService.ConvertLeadToWorkOrder | apps/operations/services.py:375-407 | in place: booking, quote, confirmation |
| OperationsService.ConvertExistingBooking | apps/operations/services.py:385-407 | in place: confirmation of a given booking |
| OperationsService.RecordManualLeadPayment | apps/operations/services.py:447-474 | in place: payment row and the booking's amounts |
| CartService.Storefront.CartResponse | apps/bookings/cart.py:64-98 | the loop's totals are the sums over the customer's remaining rows |
| CartService.Storefront.Add | apps/bookings/cart.py:110-142 | in place: links and quantities, or nothing when one line fails |
| CartService.Storefront.Discard | apps/bookings/cart.py:148-153 | in place: the customer's row of that service goes |
| CartService.Storefront.SetQuantity | apps/bookings/cart.py:155-168 | in place, refused once a booking exists |
| CartService.Storefront.BeginCheckoutRequest | apps/bookings/idempotency.py:7-30 | in place: creates the record on first sight, else mismatch, unfinished or restored |
| CartService.Storefront.BookLines | apps/bookings/cart.py:199-213 | the checkout loop: one booking per selected row, or the first problem |
| CartService.Storefront.PlaceOrder | apps/bookings/cart.py:171-215 | in place: all lines or none, under the request table |
| CartService.Storefront.PlaceBooking | apps/bookings/views.py:201-217 | in place: one booking under the same table |

## Left out

- Razorpay, MSG91, Firebase, Turnstile, Ola Maps, Cloudinary: only their answers appear, as inputs of a step.
- HMAC, SHA-256 and JSON encoding: a signature is good or not, and different payloads have different hashes and
  fingerprints. The signature that the capture webhook computes for itself is good.
- Views, serializers, permissions, throttles, routing, settings, migrations, seed data. The Django admin's free-form
  edits bypass every guard and are not steps.
- Lead notes, activities and funnel, and the best-effort lead updates inside `try/except`: they never decide a booking or
  a payment.
- Lock order and deadlock: an atomic block is one step. Claim, dispatch and finish of a webhook, and read and write of a
  notification by an admin, are separate.
- Timestamps that only record when something happened (`paid_at`, `confirmed_at`, `completed_at`, `sent_at`), free text,
  `previous_technician` of an assignment, provider payloads. `cancelled_at` appears as a flag.
- Deleting slots, services or profiles; bookings are never deleted by the modelled code.
- The monthly numbering of bookings is its own machine; the ledger names bookings by position.
- `convert_lead_to_work_order` opens a missing slot with capacity 5 inside its own transaction; here that is an
  `OpenSlot` step before it. The conversion of an existing booking reads it without a lock; here read and write are one step.
- Limits of `max_digits` on amounts; quantities are natural numbers without the serializer's bound of 20.
- Gateway statuses are compared after lower-casing; the model starts from the lower-cased text. `isdigit` is taken on
  ASCII digits, and text order is by character code.
- Rendering of invoices, the seller's and customer's details on them; the tax of a booking is an input of its invoice,
  since booking creation always sets it to zero.
- The second factor of the admin login, JWT issue and password login.
- BalanceProofs.FinishedJobsArePaid: proved for runs without refunds and lead steps and with
  `BOOKING_REQUIRE_BALANCE_BEFORE_COMPLETION` on; a refund or a manual payment changes what the booking was paid.
- HistoryProofs.HistoryIsPath: proved for runs without refunds, since `_apply_refund_state` changes the status without a
  history entry.
- OrderProofs.OrderNeverClashes: assumes that the gateway's new order id is not in the table already.
- Payments.RefundWebhook: the amount of a refund in a webhook is taken as not negative.
