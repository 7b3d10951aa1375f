/** What a payment step can do to a booking row: confirm it, fail it, or move it with its refunds. */
module BookingRows {
  import opened Tables
  import opened Model
  import opened Payments
  import opened Machine
  import opened Soundness

  /** A verified deposit: amounts, status and one history entry unless it was confirmed already. */
  ghost predicate Confirms(b: Booking, b': Booking) {
    && Priced(b)
    && b' == b.(advancePaid := b.advanceRequired, balanceDue := b.total - b.advanceRequired,
                payment := PartiallyPaid, status := Confirmed,
                history := if b.status.Confirmed? then b.history else b.history + [Hop(Some(b.status), Confirmed)])
  }

  ghost predicate Fails(b: Booking, b': Booking) {
    && b.status in {PendingPayment, PaymentFailed}
    && b' == b.(status := PaymentFailed, payment := PaymentState.Failed)
  }

  ghost predicate Refunds(b: Booking, b': Booking) {
    || b' == b.(payment := PaymentState.Refunded, status := BookingStatus.Refunded)
    || b' == b.(status := RefundPending)
    || (b.status.RefundPending? && b' == b.(status := if b.cancelled then Cancelled else Confirmed))
  }

  ghost predicate OrderRowStep(b: Booking, b': Booking) { b' == b || Confirms(b, b') || Fails(b, b') }

  ghost predicate PayRowStep(b: Booking, b': Booking) { OrderRowStep(b, b') || Refunds(b, b') }

  ghost predicate SameDirectory(s: State, s': State) {
    s'.slots == s.slots && s'.technicians == s.technicians && s'.services == s.services
  }

  /** Bookings are neither added nor removed and each row is kept or confirmed or failed. */
  ghost predicate OrderRows(s: State, s': State) {
    && SameDirectory(s, s')
    && |s.bookings| == |s'.bookings|
    && forall k :: 0 <= k < |s.bookings| ==> OrderRowStep(s.bookings[k], s'.bookings[k])
  }

  ghost predicate PayRows(s: State, s': State) {
    && SameDirectory(s, s')
    && |s.bookings| == |s'.bookings|
    && forall k :: 0 <= k < |s.bookings| ==> PayRowStep(s.bookings[k], s'.bookings[k])
  }

  /** A step that saves one booking row and leaves the others. */
  ghost predicate OneRow(s: State, s': State, i: nat) {
    && i < |s.bookings| && |s'.bookings| == |s.bookings|
    && s'.bookings == s.bookings[i := s'.bookings[i]]
  }

  lemma LifeSavesOneRow(s: State, e: LifeEvent)
    requires !e.Book? && StepLife(s, e).Committed()
    ensures OneRow(s, StepLife(s, e).state, e.booking) && SameDirectory(s, StepLife(s, e).state)
  {
  }

  lemma ConfirmBookingRows(s: State, i: nat, amount: int)
    requires i < |s.bookings| && amount == s.bookings[i].advanceRequired && Priced(s.bookings[i])
    ensures OrderRows(s, Confirm(s, i, amount))
  {
    var s' := Confirm(s, i, amount);
    assert s'.bookings == s.bookings[i := s'.bookings[i]] && Confirms(s.bookings[i], s'.bookings[i]);
  }

  lemma VerifyBookingRows(s: State, orderId: string, paymentId: string, signatureOk: bool, user: Option<nat>)
    requires PaymentsSound(s)
    ensures OrderRows(s, Verify(s, orderId, paymentId, signatureOk, user).state)
  {
    VerifyCases(s, orderId, paymentId, signatureOk, user);
    var found := OrderRow(s, orderId);
    if found.Some? && s.payments[found.value].booking < |s.bookings| {
      var p := s.payments[found.value];
      assert PaymentSound(s, p);
      MarkFailedBookingRows(s, found.value, paymentId);
      if p.amount == s.bookings[p.booking].advanceRequired {
        ConfirmBookingRows(SavePayment(s, found.value, PaidRow(p, paymentId)), p.booking, p.amount);
      }
    }
  }

  lemma MarkFailedBookingRows(s: State, payment: nat, paymentId: string)
    requires payment < |s.payments| && s.payments[payment].booking < |s.bookings|
    ensures OrderRows(s, MarkFailed(s, payment, paymentId).state)
  {
  }

  lemma FailedHookBookingRows(s: State, orderId: string, paymentId: string)
    ensures OrderRows(s, Dispatch(s, FailedPayment(orderId, paymentId)).state)
  {
    var found := OrderRow(s, orderId);
    if found.Some? && s.payments[found.value].booking < |s.bookings| {
      MarkFailedBookingRows(s, found.value, paymentId);
    }
  }

  lemma ApplyRefundBookingRows(s: State, booking: nat, source: nat)
    requires booking < |s.bookings| && source < |s.payments|
    ensures PayRows(s, ApplyRefund(s, booking, source))
  {
  }

  lemma RefundHookBookingRows(s: State, refundId: string, sourceId: string, status: RecordStatus, amount: nat)
    ensures PayRows(s, RefundWebhook(s, refundId, sourceId, status, amount).state)
  {
    if RefundWebhook(s, refundId, sourceId, status, amount).Committed() {
      var source := Latest(s.payments, WithPaymentId(sourceId)).value;
      var booking := s.payments[source].booking;
      var known := Latest(s.payments, WithRefundId(refundId));
      if known.Some? {
        ApplyRefundBookingRows(SavePayment(s, known.value, s.payments[known.value].(status := status)), booking,
                               source);
      } else {
        ApplyRefundBookingRows(AddPayment(s, NewRefund(s, source, refundId, amount, status, "webhook-" + refundId)),
                               booking, source);
      }
    }
  }

  /** A webhook or client step about an order, not about refunds. */
  ghost predicate OrderEvent(e: PaymentEvent) {
    e.OrderAdvance? || e.VerifyPayment? || (e.Deliver? && !e.webhook.RefundChanged?)
  }

  lemma OrderBookingRows(s: State, e: PaymentEvent)
    requires PaymentsSound(s) && OrderEvent(e)
    ensures OrderRows(s, StepPay(s, e).state)
  {
    match e
    case OrderAdvance(_, _, _, _) =>
    case VerifyPayment(orderId, paymentId, signatureOk, user) =>
      VerifyBookingRows(s, orderId, paymentId, signatureOk, user);
    case Deliver(w) =>
      match w {
        case Captured(orderId, paymentId, _) => VerifyBookingRows(s, orderId, paymentId, true, None);
        case FailedPayment(orderId, paymentId) => FailedHookBookingRows(s, orderId, paymentId);
        case OtherEvent(_) =>
      }
  }

  lemma RequestBookingRows(s: State, payment: nat, amount: int, key: string, provider: Option<ProviderRefund>)
    ensures PayRows(s, CreateRefund(s, payment, amount, key, provider).state)
  {
    var o := CreateRefund(s, payment, amount, key, provider);
    if o.reply.RefundReply? && o.reply.sent {
      var row := NewRefund(s, payment, provider.value.id, amount, RefundStatus(provider.value.status), key);
      ApplyRefundBookingRows(AddPayment(s, row), s.payments[payment].booking, payment);
    }
  }

  lemma ReconcileBookingRows(s: State, refund: nat, answer: Option<string>)
    ensures PayRows(s, Reconcile(s, refund, answer).state)
  {
    if Reconcile(s, refund, answer).Committed() {
      var r := s.payments[refund];
      ApplyRefundBookingRows(SavePayment(s, refund, r.(status := RefundStatus(answer.value))), r.booking,
                             r.parent.value);
    }
  }

  lemma PayBookingRows(s: State, e: PaymentEvent)
    requires PaymentsSound(s)
    ensures PayRows(s, StepPay(s, e).state)
  {
    if OrderEvent(e) {
      OrderBookingRows(s, e);
    } else {
      match e
      case Deliver(w) =>
        RefundHookBookingRows(s, w.refundId, w.sourcePaymentId, RefundStatus(w.status), w.refundAmount);
      case RequestRefund(payment, amount, key, provider) => RequestBookingRows(s, payment, amount, key, provider);
      case ReconcileRefund(refund, answer) => ReconcileBookingRows(s, refund, answer);
    }
  }
}
