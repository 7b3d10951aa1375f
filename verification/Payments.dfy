/** apps/payments/services.py: orders, verification, failure, refunds and webhook dispatch. */
module Payments {
  import opened Tables
  import opened Model

  // ----- row filters -----

  function AdvanceKeyed(booking: nat, key: string): Payment -> bool {
    (p: Payment) => p.booking == booking && p.kind.BookingAdvance? && p.key == key
  }

  function ActiveAdvanceOf(booking: nat): Payment -> bool {
    (p: Payment) => p.booking == booking && ActiveAdvance(p)
  }

  function RefundKeyed(booking: nat, key: string): Payment -> bool {
    (p: Payment) => p.booking == booking && p.kind.Refund? && p.key == key
  }

  function WithOrder(orderId: string): Payment -> bool {
    (p: Payment) => p.orderId == Some(orderId)
  }

  function WithPaymentId(paymentId: string): Payment -> bool {
    (p: Payment) => p.paymentId == Some(paymentId)
  }

  function WithRefundId(refundId: string): Payment -> bool {
    (p: Payment) => p.refundId == Some(refundId)
  }

  // ----- orders -----

  function CreateOrder(s: State, booking: nat, user: nat, key: string, gateway: Option<string>): Outcome {
    if booking >= |s.bookings| then Refuse(s, NotFound) else
    var b := s.bookings[booking];
    if b.customer != user then Refuse(s, WrongCustomer) else
    if b.status !in {PendingPayment, PaymentFailed} then Refuse(s, WrongStatus) else
    var keyed := Latest(s.payments, AdvanceKeyed(booking, key));
    if keyed.Some? then
      if s.payments[keyed.value].status.Failed? then Refuse(s, KeyOfFailedAttempt)
      else Outcome(s, PaymentReply(keyed.value))
    else
    var existing := Latest(s.payments, ActiveAdvanceOf(booking));
    if existing.Some? && s.payments[existing.value].status.Success? then Refuse(s, AlreadyProcessed) else
    if existing.Some? && s.payments[existing.value].orderId.Some? then Outcome(s, PaymentReply(existing.value)) else
    if gateway.None? then Refuse(s, ProviderFailed) else
    var row := NewOrder(b, booking, key, gateway.value);
    if !CanInsert(s.payments, row) then Refuse(s, IntegrityError) else
    Outcome(AddPayment(s, row), PaymentReply(|s.payments|))
  }

  function NewOrder(b: Booking, booking: nat, key: string, orderId: string): Payment {
    Payment(booking, Razorpay, Some(orderId), None, None, None, b.advanceRequired, BookingAdvance, Created, false, key)
  }

  function OrderRow(s: State, orderId: string): Option<nat> {
    Latest(s.payments, WithOrder(orderId))
  }

  // ----- verification and failure -----

  /** `user` is None when the gateway's own webhook asks. */
  function Verify(s: State, orderId: string, paymentId: string, signatureOk: bool, user: Option<nat>): Outcome {
    var found := OrderRow(s, orderId);
    if found.None? then Refuse(s, NotFound) else
    var p := s.payments[found.value];
    if p.booking >= |s.bookings| then Refuse(s, NotFound) else
    var b := s.bookings[p.booking];
    if user.Some? && b.customer != user.value then Refuse(s, WrongCustomer) else
    if p.amount != b.advanceRequired then Refuse(s, AmountMismatch) else
    if p.status.Success? then Outcome(s, PaymentReply(found.value)) else
    if !signatureOk then
      var failed := MarkFailed(s, found.value, paymentId);
      if failed.Committed() then Outcome(failed.state, VerificationFailed) else failed
    else
    var paid := PaidRow(p, paymentId);
    if !CanUpdate(s.payments, found.value, paid) then Refuse(s, IntegrityError) else
    Outcome(Confirm(SavePayment(s, found.value, paid), p.booking, paid.amount), PaymentReply(found.value))
  }

  function PaidRow(p: Payment, paymentId: string): Payment {
    p.(paymentId := Some(paymentId), signatureVerified := true, status := Success)
  }

  /** Verification leaves the ledger alone, fails the order's row, or pays it and confirms its booking. */
  lemma VerifyCases(s: State, orderId: string, paymentId: string, signatureOk: bool, user: Option<nat>)
    ensures var s' := Verify(s, orderId, paymentId, signatureOk, user).state;
            s' == s
            || (OrderRow(s, orderId).Some?
                && var k := OrderRow(s, orderId).value;
                   var p := s.payments[k];
                   && p.booking < |s.bookings| && p.amount == s.bookings[p.booking].advanceRequired
                   && s' == if signatureOk then Confirm(SavePayment(s, k, PaidRow(p, paymentId)), p.booking, p.amount)
                            else MarkFailed(s, k, paymentId).state)
  {
  }

  /** `_confirm_booking_after_payment`, lead synchronisation aside. */
  function Confirm(s: State, booking: nat, amount: int): State
    requires booking < |s.bookings|
  {
    var b := s.bookings[booking];
    var b' := b.(advancePaid := amount, balanceDue := b.total - amount, payment := PartiallyPaid, status := Confirmed);
    if b.status.Confirmed? then SaveBooking(s, booking, b') else
    var b'' := b'.(history := b.history + [Hop(Some(b.status), Confirmed)]);
    Emit(Emit(SaveBooking(s, booking, b''), PaymentSuccessfulNotice, booking), BookingConfirmedNotice, booking)
  }

  function FailedRow(p: Payment, paymentId: string): Payment {
    p.(status := RecordStatus.Failed, paymentId := if paymentId == "" then p.paymentId else Some(paymentId))
  }

  /** `_mark_payment_failed`: an empty payment id leaves the recorded one alone. */
  function MarkFailed(s: State, payment: nat, paymentId: string): Outcome
    requires payment < |s.payments| && s.payments[payment].booking < |s.bookings|
  {
    var p := s.payments[payment];
    var p' := FailedRow(p, paymentId);
    if !CanUpdate(s.payments, payment, p') then Refuse(s, IntegrityError) else
    var s1 := SavePayment(s, payment, p');
    var b := s.bookings[p.booking];
    var s2 :=
      if b.status in {PendingPayment, PaymentFailed} then
        SaveBooking(s1, p.booking, b.(status := PaymentFailed, payment := PaymentState.Failed))
      else s1;
    Outcome(if p.status.Failed? then s2 else Emit(s2, PaymentFailedNotice, p.booking), Done)
  }

  // ----- refunds -----

  /** The gateway's refund status, lower-cased; anything unknown counts as still pending. */
  function RefundStatus(value: string): RecordStatus {
    if value == "processed" then Success
    else if value == "failed" then RecordStatus.Failed
    else Pending
  }

  function SettledRefundOf(source: nat): Payment -> int {
    (p: Payment) => if p.parent == Some(source) && p.status.Success? then p.amount else 0
  }

  function OpenRefundOf(source: nat): Payment -> int {
    (p: Payment) => if p.parent == Some(source) && !p.status.Failed? then p.amount else 0
  }

  predicate WaitsFor(p: Payment, source: nat) {
    p.parent == Some(source) && (p.status.Created? || p.status.Pending?)
  }

  predicate HasWaitingRefund(payments: seq<Payment>, source: nat) {
    exists r :: 0 <= r < |payments| && WaitsFor(payments[r], source)
  }

  /** `_apply_refund_state`. */
  function ApplyRefund(s: State, booking: nat, source: nat): State
    requires booking < |s.bookings| && source < |s.payments|
  {
    var b := s.bookings[booking];
    var p := s.payments[source];
    if Sum(s.payments, SettledRefundOf(source)) >= p.amount then
      SaveBooking(SavePayment(s, source, p.(status := RecordStatus.Refunded)), booking,
                  b.(payment := PaymentState.Refunded, status := BookingStatus.Refunded))
    else if HasWaitingRefund(s.payments, source) then
      SaveBooking(s, booking, b.(status := RefundPending))
    else if b.status.RefundPending? then
      SaveBooking(s, booking, b.(status := if b.cancelled then Cancelled else Confirmed))
    else s
  }

  /** The gateway's answer to a refund request. */
  datatype ProviderRefund = ProviderRefund(id: string, status: string)

  function NewRefund(s: State, source: nat, refundId: string, amount: int, status: RecordStatus, key: string): Payment
    requires source < |s.payments|
  {
    Payment(s.payments[source].booking, Razorpay, None, None, Some(refundId), Some(source), amount, Refund, status,
            false, key)
  }

  function CreateRefund(s: State, payment: nat, amount: int, key: string, provider: Option<ProviderRefund>): Outcome {
    if payment >= |s.payments| then Refuse(s, NotFound) else
    var source := s.payments[payment];
    if source.booking >= |s.bookings| then Refuse(s, NotFound) else
    if source.kind.Refund? || source.status !in {Success, RecordStatus.Refunded} then Refuse(s, NotRefundable) else
    if source.paymentId in {None, Some("")} then Refuse(s, NoProviderReference) else
    var existing := Latest(s.payments, RefundKeyed(source.booking, key));
    if existing.Some? then Outcome(s, RefundReply(existing.value, false)) else
    var remaining := source.amount - Sum(s.payments, OpenRefundOf(payment));
    if amount <= 0 || amount > remaining then Refuse(s, BadAmount) else
    if provider.None? then Refuse(s, ProviderFailed) else
    var status := RefundStatus(provider.value.status);
    var row := NewRefund(s, payment, provider.value.id, amount, status, key);
    if !CanInsert(s.payments, row) then Refuse(s, IntegrityError) else
    var s1 := ApplyRefund(AddPayment(s, row), source.booking, payment);
    var s2 := Emit(s1, RefundInitiatedNotice, source.booking);
    var s3 := if status.Success? then Emit(s2, RefundCompletedNotice, source.booking) else s2;
    Outcome(s3, RefundReply(|s.payments|, true))
  }

  function Reconcile(s: State, refund: nat, provider: Option<string>): Outcome {
    if refund >= |s.payments| || !s.payments[refund].kind.Refund? then Refuse(s, NotFound) else
    var r := s.payments[refund];
    if r.booking >= |s.bookings| then Refuse(s, NotFound) else
    if r.refundId in {None, Some("")} || r.parent.None? || r.parent.value >= |s.payments| then
      Refuse(s, NoProviderReference)
    else
    if provider.None? then Refuse(s, ProviderFailed) else
    var status := RefundStatus(provider.value);
    var s1 := ApplyRefund(SavePayment(s, refund, r.(status := status)), r.booking, r.parent.value);
    Outcome(if !r.status.Success? && status.Success? then Emit(s1, RefundCompletedNotice, r.booking) else s1,
            PaymentReply(refund))
  }

  // ----- webhooks -----

  datatype Webhook =
    | Captured(orderId: string, paymentId: string, amount: int)
    | FailedPayment(orderId: string, paymentId: string)
    | RefundChanged(refundId: string, sourcePaymentId: string, status: string, refundAmount: nat)
    | OtherEvent(name: string)

  /** `_dispatch_webhook`. The gateway signed the body, so the payment signature it recomputes is good. */
  function Dispatch(s: State, w: Webhook): Outcome {
    match w
    case Captured(orderId, paymentId, amount) =>
      if orderId == "" || paymentId == "" then Refuse(s, Incomplete) else
      var found := OrderRow(s, orderId);
      if found.None? then Refuse(s, NotFound) else
      if amount != s.payments[found.value].amount then Refuse(s, AmountMismatch) else
      Verify(s, orderId, paymentId, true, None)
    case FailedPayment(orderId, paymentId) =>
      if orderId == "" then Refuse(s, Incomplete) else
      var found := OrderRow(s, orderId);
      if found.None? then Refuse(s, NotFound) else
      if s.payments[found.value].booking >= |s.bookings| then Refuse(s, NotFound) else
      if s.payments[found.value].status.Success? then Outcome(s, Done) else
      MarkFailed(s, found.value, paymentId)
    case RefundChanged(refundId, sourcePaymentId, status, amount) =>
      RefundWebhook(s, refundId, sourcePaymentId, RefundStatus(status), amount)
    case OtherEvent(_) => Outcome(s, Ignored)
  }

  function RefundWebhook(s: State, refundId: string, sourcePaymentId: string, status: RecordStatus,
                         amount: nat): Outcome {
    if refundId == "" || sourcePaymentId == "" then Refuse(s, Incomplete) else
    var found := Latest(s.payments, WithPaymentId(sourcePaymentId));
    if found.None? then Refuse(s, NotFound) else
    var source := found.value;
    var booking := s.payments[source].booking;
    if booking >= |s.bookings| then Refuse(s, NotFound) else
    var known := Latest(s.payments, WithRefundId(refundId));
    if known.Some? then
      var r := s.payments[known.value];
      var s1 := ApplyRefund(SavePayment(s, known.value, r.(status := status)), booking, source);
      Outcome(if status.Success? && !r.status.Success? then Emit(s1, RefundCompletedNotice, booking) else s1, Done)
    else
      var row := NewRefund(s, source, refundId, amount, status, "webhook-" + refundId);
      if !CanInsert(s.payments, row) then Refuse(s, IntegrityError) else
      var s1 := Emit(ApplyRefund(AddPayment(s, row), booking, source), RefundInitiatedNotice, booking);
      Outcome(if status.Success? then Emit(s1, RefundCompletedNotice, booking) else s1, Done)
  }
}
