/** The payment service functions, in place on the tables; each does what its step function in Payments says. */
module PaymentService {
  import opened Tables
  import opened Model
  import opened Payments
  import opened Database

  method CreateAdvancePaymentOrder(db: Store, booking: nat, user: nat, key: string,
                                   gateway: Option<string>) returns (r: Reply)
    modifies db`payments
    ensures Outcome(db.Rows(), r) == CreateOrder(old(db.Rows()), booking, user, key, gateway)
  {
    if booking >= |db.bookings| { return Rejected(NotFound); }
    var b := db.bookings[booking];
    if b.customer != user { return Rejected(WrongCustomer); }
    if b.status !in {PendingPayment, PaymentFailed} { return Rejected(WrongStatus); }
    var keyed := Latest(db.payments, AdvanceKeyed(booking, key));
    if keyed.Some? {
      if db.payments[keyed.value].status.Failed? { return Rejected(KeyOfFailedAttempt); }
      return PaymentReply(keyed.value);
    }
    var existing := Latest(db.payments, ActiveAdvanceOf(booking));
    if existing.Some? && db.payments[existing.value].status.Success? { return Rejected(AlreadyProcessed); }
    if existing.Some? && db.payments[existing.value].orderId.Some? { return PaymentReply(existing.value); }
    if gateway.None? { return Rejected(ProviderFailed); }
    var inserted := db.InsertPayment(NewOrder(b, booking, key, gateway.value));
    if !inserted { return Rejected(IntegrityError); }
    r := PaymentReply(|db.payments| - 1);
  }

  method VerifyRazorpayPayment(db: Store, orderId: string, paymentId: string, signatureOk: bool,
                               user: Option<nat>) returns (r: Reply)
    modifies db`payments, db`bookings, db`notices
    ensures Outcome(db.Rows(), r) == Verify(old(db.Rows()), orderId, paymentId, signatureOk, user)
  {
    var found := Latest(db.payments, WithOrder(orderId));
    if found.None? { return Rejected(NotFound); }
    var payment := db.payments[found.value];
    if payment.booking >= |db.bookings| { return Rejected(NotFound); }
    var booking := db.bookings[payment.booking];
    if user.Some? && booking.customer != user.value { return Rejected(WrongCustomer); }
    if payment.amount != booking.advanceRequired { return Rejected(AmountMismatch); }
    if payment.status.Success? { return PaymentReply(found.value); }
    if !signatureOk {
      r := MarkPaymentFailed(db, found.value, paymentId);
      if r.Rejected? { return; }
    } else {
      payment := payment.(paymentId := Some(paymentId));
      payment := payment.(signatureVerified := true);
      payment := payment.(status := Success);
      var saved := db.SavePaymentRow(found.value, payment);
      if !saved { return Rejected(IntegrityError); }
      ConfirmBookingAfterPayment(db, payment.booking, payment.amount);
    }
    if !signatureOk { return VerificationFailed; }
    r := PaymentReply(found.value);
  }

  method ConfirmBookingAfterPayment(db: Store, i: nat, amount: int)
    requires i < |db.bookings|
    modifies db`bookings, db`notices
    ensures db.Rows() == Confirm(old(db.Rows()), i, amount)
  {
    var booking := db.bookings[i];
    var previous := booking.status;
    booking := booking.(advancePaid := amount);
    booking := booking.(balanceDue := booking.total - booking.advancePaid);
    booking := booking.(payment := PartiallyPaid);
    booking := booking.(status := Confirmed);
    db.SaveBookingRow(i, booking);
    if !previous.Confirmed? {
      booking := booking.(history := booking.history + [Hop(Some(previous), Confirmed)]);
      db.SaveBookingRow(i, booking);
      db.EmitEvent(PaymentSuccessfulNotice, i);
      db.EmitEvent(BookingConfirmedNotice, i);
    }
  }

  method MarkPaymentFailed(db: Store, i: nat, paymentId: string) returns (r: Reply)
    requires i < |db.payments| && db.payments[i].booking < |db.bookings|
    modifies db`payments, db`bookings, db`notices
    ensures Outcome(db.Rows(), r) == MarkFailed(old(db.Rows()), i, paymentId)
  {
    var payment := db.payments[i];
    var booking := db.bookings[payment.booking];
    var transitioned := !payment.status.Failed?;
    payment := payment.(status := RecordStatus.Failed);
    if paymentId != "" {
      payment := payment.(paymentId := Some(paymentId));
    }
    var saved := db.SavePaymentRow(i, payment);
    if !saved { return Rejected(IntegrityError); }
    if booking.status in {PendingPayment, PaymentFailed} {
      booking := booking.(status := PaymentFailed);
      booking := booking.(payment := PaymentState.Failed);
      db.SaveBookingRow(payment.booking, booking);
    }
    if transitioned { db.EmitEvent(PaymentFailedNotice, payment.booking); }
    r := Done;
  }

  method RequestRefund(db: Store, id: nat, amount: int, key: string,
                       provider: Option<ProviderRefund>) returns (r: Reply)
    modifies db`payments, db`bookings, db`notices
    ensures Outcome(db.Rows(), r) == CreateRefund(old(db.Rows()), id, amount, key, provider)
  {
    if id >= |db.payments| { return Rejected(NotFound); }
    var source := db.payments[id];
    if source.booking >= |db.bookings| { return Rejected(NotFound); }
    if source.kind.Refund? || source.status !in {Success, RecordStatus.Refunded} { return Rejected(NotRefundable); }
    if source.paymentId in {None, Some("")} { return Rejected(NoProviderReference); }
    var existing := Latest(db.payments, RefundKeyed(source.booking, key));
    if existing.Some? { return RefundReply(existing.value, false); }
    var requested := Sum(db.payments, OpenRefundOf(id));
    var remaining := source.amount - requested;
    if amount <= 0 || amount > remaining { return Rejected(BadAmount); }
    if provider.None? { return Rejected(ProviderFailed); }
    var status := RefundStatus(provider.value.status);
    var refund := Payment(source.booking, Razorpay, None, None, Some(provider.value.id), Some(id), amount,
                          PaymentType.Refund, status, false, key);
    var inserted := db.InsertPayment(refund);
    if !inserted { return Rejected(IntegrityError); }
    r := RefundReply(|db.payments| - 1, true);
    ApplyRefundState(db, source.booking, id);
    db.EmitEvent(RefundInitiatedNotice, source.booking);
    if status.Success? { db.EmitEvent(RefundCompletedNotice, source.booking); }
  }

  method ApplyRefundState(db: Store, i: nat, id: nat)
    requires i < |db.bookings| && id < |db.payments|
    modifies db`payments, db`bookings
    ensures db.Rows() == ApplyRefund(old(db.Rows()), i, id)
  {
    var booking, source := db.bookings[i], db.payments[id];
    var successful := Sum(db.payments, SettledRefundOf(id));
    var pending := HasWaitingRefund(db.payments, id);
    if successful >= source.amount {
      source := source.(status := RecordStatus.Refunded);
      db.payments := db.payments[id := source];
      booking := booking.(payment := PaymentState.Refunded);
      booking := booking.(status := BookingStatus.Refunded);
      db.SaveBookingRow(i, booking);
    } else if pending {
      booking := booking.(status := RefundPending);
      db.SaveBookingRow(i, booking);
    } else if booking.status.RefundPending? {
      booking := booking.(status := if booking.cancelled then Cancelled else Confirmed);
      db.SaveBookingRow(i, booking);
    }
  }

  method ReconcileRefund(db: Store, id: nat, provider: Option<string>) returns (r: Reply)
    modifies db`payments, db`bookings, db`notices
    ensures Outcome(db.Rows(), r) == Reconcile(old(db.Rows()), id, provider)
  {
    if id >= |db.payments| || !db.payments[id].kind.Refund? { return Rejected(NotFound); }
    var refund := db.payments[id];
    if refund.booking >= |db.bookings| { return Rejected(NotFound); }
    if refund.refundId in {None, Some("")} || refund.parent.None? || refund.parent.value >= |db.payments| {
      return Rejected(NoProviderReference);
    }
    if provider.None? { return Rejected(ProviderFailed); }
    var previous := refund.status;
    refund := refund.(status := RefundStatus(provider.value));
    db.payments := db.payments[id := refund];
    ApplyRefundState(db, refund.booking, refund.parent.value);
    if !previous.Success? && refund.status.Success? { db.EmitEvent(RefundCompletedNotice, refund.booking); }
    r := PaymentReply(id);
  }

  method DispatchWebhook(db: Store, w: Webhook) returns (r: Reply)
    modifies db`payments, db`bookings, db`notices
    ensures Outcome(db.Rows(), r) == Dispatch(old(db.Rows()), w)
  {
    match w
    case Captured(orderId, paymentId, amount) =>
      if orderId == "" || paymentId == "" { return Rejected(Incomplete); }
      var found := Latest(db.payments, WithOrder(orderId));
      if found.None? { return Rejected(NotFound); }
      if amount != db.payments[found.value].amount { return Rejected(AmountMismatch); }
      r := VerifyRazorpayPayment(db, orderId, paymentId, true, None);
    case FailedPayment(orderId, paymentId) =>
      if orderId == "" { return Rejected(Incomplete); }
      var found := Latest(db.payments, WithOrder(orderId));
      if found.None? || db.payments[found.value].booking >= |db.bookings| { return Rejected(NotFound); }
      r := Done;
      if !db.payments[found.value].status.Success? {
        r := MarkPaymentFailed(db, found.value, paymentId);
      }
    case RefundChanged(refundId, sourcePaymentId, status, amount) =>
      r := ProcessRefundWebhook(db, refundId, sourcePaymentId, RefundStatus(status), amount);
    case OtherEvent(_) => r := Ignored;
  }

  method ProcessRefundWebhook(db: Store, refundId: string, sourcePaymentId: string, status: RecordStatus,
                              amount: nat) returns (r: Reply)
    modifies db`payments, db`bookings, db`notices
    ensures Outcome(db.Rows(), r) == RefundWebhook(old(db.Rows()), refundId, sourcePaymentId, status, amount)
  {
    if refundId == "" || sourcePaymentId == "" { return Rejected(Incomplete); }
    var found := Latest(db.payments, WithPaymentId(sourcePaymentId));
    if found.None? || db.payments[found.value].booking >= |db.bookings| { return Rejected(NotFound); }
    var source, booking := found.value, db.payments[found.value].booking;
    var known := Latest(db.payments, WithRefundId(refundId));
    var created := known.None?;
    var previous := status;
    if created {
      var row := Payment(booking, Razorpay, None, None, Some(refundId), Some(source), amount,
                         PaymentType.Refund, status, false, "webhook-" + refundId);
      var inserted := db.InsertPayment(row);
      if !inserted { return Rejected(IntegrityError); }
    } else {
      var refund := db.payments[known.value];
      previous := refund.status;
      refund := refund.(status := status);
      db.payments := db.payments[known.value := refund];
    }
    ApplyRefundState(db, booking, source);
    if created { db.EmitEvent(RefundInitiatedNotice, booking); }
    if status.Success? && (created || !previous.Success?) { db.EmitEvent(RefundCompletedNotice, booking); }
    r := Done;
  }
}
