/** Advance orders: one active advance, amounts that always match, and convergence to a confirmed booking. */
module OrderProofs {
  import opened Tables
  import opened Model
  import opened Payments
  import opened Machine
  import opened Soundness

  /** At most one CREATED, PENDING or SUCCESS advance per booking, in every reachable state. */
  lemma OneActiveAdvance(run: seq<Event>, i: nat, j: nat)
    requires i < |Run(EmptyLedger(), run).payments| && j < |Run(EmptyLedger(), run).payments|
    requires ActiveAdvance(Run(EmptyLedger(), run).payments[i]) && ActiveAdvance(Run(EmptyLedger(), run).payments[j])
    requires Run(EmptyLedger(), run).payments[i].booking == Run(EmptyLedger(), run).payments[j].booking
    ensures i == j
  {
    RunSound(EmptyLedger(), run);
    var rows := Run(EmptyLedger(), run).payments;
    if i < j {
      assert Clash(rows[i], rows[j]);
    } else if j < i {
      assert Clash(rows[j], rows[i]);
    }
  }

  /** Gateway orders keep costing their booking's deposit, so the mismatch guard never fires. */
  lemma AmountsAlwaysMatch(run: seq<Event>, orderId: string, paymentId: string, signatureOk: bool, user: Option<nat>)
    ensures var s := Run(EmptyLedger(), run);
            && Verify(s, orderId, paymentId, signatureOk, user).reply != Rejected(AmountMismatch)
            && forall i :: 0 <= i < |s.payments| && s.payments[i].orderId.Some? ==>
                 && s.payments[i].booking < |s.bookings|
                 && s.payments[i].amount == s.bookings[s.payments[i].booking].advanceRequired
  {
    RunSound(EmptyLedger(), run);
    SoundAmountsMatch(Run(EmptyLedger(), run), orderId, paymentId, signatureOk, user);
  }

  lemma SoundAmountsMatch(s: State, orderId: string, paymentId: string, signatureOk: bool, user: Option<nat>)
    requires PaymentsSound(s)
    ensures Verify(s, orderId, paymentId, signatureOk, user).reply != Rejected(AmountMismatch)
    ensures forall i :: 0 <= i < |s.payments| && s.payments[i].orderId.Some? ==>
              && s.payments[i].booking < |s.bookings|
              && s.payments[i].amount == s.bookings[s.payments[i].booking].advanceRequired
  {
    forall i | 0 <= i < |s.payments| && s.payments[i].orderId.Some?
      ensures s.payments[i].booking < |s.bookings|
      ensures s.payments[i].amount == s.bookings[s.payments[i].booking].advanceRequired
    {
      assert PaymentSound(s, s.payments[i]);
    }
  }

  ghost predicate IsAdvanceOf(p: Payment, booking: nat) { p.booking == booking && p.kind.BookingAdvance? }

  /** With a fresh gateway id the unique constraints never reject a new order; and exactly then is one made. */
  lemma OrderNeverClashes(s: State, booking: nat, user: nat, key: string, orderId: string)
    requires Sound(s)
    requires forall i :: 0 <= i < |s.payments| ==> s.payments[i].orderId != Some(orderId)
    ensures CreateOrder(s, booking, user, key, Some(orderId)).reply != Rejected(IntegrityError)
    ensures CreateOrder(s, booking, user, key, Some(orderId)).state != s <==>
              && booking < |s.bookings| && s.bookings[booking].customer == user
              && s.bookings[booking].status in {PendingPayment, PaymentFailed}
              && forall i :: 0 <= i < |s.payments| && IsAdvanceOf(s.payments[i], booking) ==>
                   s.payments[i].key != key && !ActiveAdvance(s.payments[i])
  {
    if booking < |s.bookings| {
      var b := s.bookings[booking];
      var row := NewOrder(b, booking, key, orderId);
      var keyed := Latest(s.payments, AdvanceKeyed(booking, key));
      var existing := Latest(s.payments, ActiveAdvanceOf(booking));
      if existing.Some? {
        assert PaymentSound(s, s.payments[existing.value]);
      }
      if keyed.None? && existing.None? {
        forall j | 0 <= j < |s.payments| ensures !Clash(s.payments[j], row) {
          assert !AdvanceKeyed(booking, key)(s.payments[j]) && !ActiveAdvanceOf(booking)(s.payments[j]);
          assert PaymentSound(s, s.payments[j]);
        }
        assert AddPayment(s, row).payments != s.payments;
      }
    }
  }

  /** Row `i` is SUCCESS, or is REFUNDED with settled refunds covering its amount. */
  ghost predicate PaidOrCovered(s: State, i: nat) {
    && i < |s.payments|
    && (s.payments[i].status.Success?
        || (s.payments[i].status.Refunded? && Sum(s.payments, SettledRefundOf(i)) >= s.payments[i].amount))
  }

  /** A paid row is left only for REFUNDED, and only when settled refunds cover its amount. */
  lemma PaidOnlyBecomesRefunded(s: State, e: Event, i: nat)
    requires Sound(s) && i < |s.payments| && !s.payments[i].kind.Refund? && s.payments[i].status.Success?
    ensures PaidOrCovered(Next(s, e), i)
  {
    match e
    case Live(life) => LifeKeepsPaid(s, life, i);
    case Desk(desk) => DeskKeepsPaid(s, desk, i);
    case Pay(pay) => PayKeepsPaid(s, pay, i);
  }

  lemma LifeKeepsPaid(s: State, e: LifeEvent, i: nat)
    requires i < |s.payments| && s.payments[i].status.Success?
    ensures PaidOrCovered(StepLife(s, e).state, i)
  {
  }

  lemma DeskKeepsPaid(s: State, e: DeskEvent, i: nat)
    requires i < |s.payments| && s.payments[i].status.Success?
    ensures PaidOrCovered(StepDesk(s, e).state, i)
  {
  }

  lemma PayKeepsPaid(s: State, e: PaymentEvent, i: nat)
    requires Sound(s) && i < |s.payments| && !s.payments[i].kind.Refund? && s.payments[i].status.Success?
    ensures PaidOrCovered(StepPay(s, e).state, i)
  {
    match e
    case OrderAdvance(_, _, _, _) =>
    case VerifyPayment(orderId, paymentId, signatureOk, user) =>
      VerifyKeepsPaid(s, orderId, paymentId, signatureOk, user, i);
    case RequestRefund(payment, amount, key, provider) => CreateRefundKeepsPaid(s, payment, amount, key, provider, i);
    case ReconcileRefund(refund, answer) => ReconcileKeepsPaid(s, refund, answer, i);
    case Deliver(webhook) => DispatchKeepsPaid(s, webhook, i);
  }

  lemma CreateRefundKeepsPaid(s: State, payment: nat, amount: int, key: string, provider: Option<ProviderRefund>,
                              i: nat)
    requires Sound(s) && i < |s.payments| && !s.payments[i].kind.Refund? && s.payments[i].status.Success?
    ensures PaidOrCovered(CreateRefund(s, payment, amount, key, provider).state, i)
  {
    assert PaymentSound(s, s.payments[i]);
    var o := CreateRefund(s, payment, amount, key, provider);
    if o.reply.RefundReply? && o.reply.sent {
      var row := NewRefund(s, payment, provider.value.id, amount, RefundStatus(provider.value.status), key);
      ApplyRefundKeepsPaid(AddPayment(s, row), s.payments[payment].booking, payment, i);
    }
  }

  lemma ReconcileKeepsPaid(s: State, refund: nat, answer: Option<string>, i: nat)
    requires Sound(s) && i < |s.payments| && !s.payments[i].kind.Refund? && s.payments[i].status.Success?
    ensures PaidOrCovered(Reconcile(s, refund, answer).state, i)
  {
    assert PaymentSound(s, s.payments[i]);
    if Reconcile(s, refund, answer).Committed() {
      var r := s.payments[refund];
      ApplyRefundKeepsPaid(SavePayment(s, refund, r.(status := RefundStatus(answer.value))), r.booking, r.parent.value,
                           i);
    }
  }

  lemma DispatchKeepsPaid(s: State, w: Webhook, i: nat)
    requires Sound(s) && i < |s.payments| && !s.payments[i].kind.Refund? && s.payments[i].status.Success?
    ensures PaidOrCovered(Dispatch(s, w).state, i)
  {
    match w
    case Captured(orderId, paymentId, _) => VerifyKeepsPaid(s, orderId, paymentId, true, None, i);
    case FailedPayment(_, _) =>
    case OtherEvent(_) =>
    case RefundChanged(refundId, sourceId, status, amount) =>
      RefundWebhookKeepsPaid(s, refundId, sourceId, RefundStatus(status), amount, i);
  }

  lemma VerifyKeepsPaid(s: State, orderId: string, paymentId: string, signatureOk: bool, user: Option<nat>, i: nat)
    requires i < |s.payments| && s.payments[i].status.Success?
    ensures i < |Verify(s, orderId, paymentId, signatureOk, user).state.payments|
    ensures Verify(s, orderId, paymentId, signatureOk, user).state.payments[i] == s.payments[i]
  {
  }

  lemma ApplyRefundKeepsPaid(s: State, booking: nat, source: nat, i: nat)
    requires booking < |s.bookings| && source < |s.payments|
    requires i < |s.payments| && s.payments[i].status.Success?
    ensures |ApplyRefund(s, booking, source).payments| == |s.payments|
    ensures var s' := ApplyRefund(s, booking, source);
            || s'.payments[i] == s.payments[i]
            || (s'.payments[i] == s.payments[i].(status := RecordStatus.Refunded)
                && (!s.payments[i].kind.Refund? && s.payments[i].parent.None? ==>
                    Sum(s'.payments, SettledRefundOf(i)) >= s.payments[i].amount))
  {
    var s' := ApplyRefund(s, booking, source);
    if s'.payments[i] != s.payments[i] {
      SumUpdate(s.payments, source, s.payments[source].(status := RecordStatus.Refunded), SettledRefundOf(source));
    }
  }

  lemma RefundWebhookKeepsPaid(s: State, refundId: string, sourceId: string, status: RecordStatus, amount: nat, i: nat)
    requires Sound(s) && i < |s.payments| && !s.payments[i].kind.Refund? && s.payments[i].status.Success?
    ensures PaidOrCovered(RefundWebhook(s, refundId, sourceId, status, amount).state, i)
  {
    assert PaymentSound(s, s.payments[i]);
    if RefundWebhook(s, refundId, sourceId, status, amount).Committed() {
      var source := Latest(s.payments, WithPaymentId(sourceId)).value;
      var booking := s.payments[source].booking;
      var known := Latest(s.payments, WithRefundId(refundId));
      if known.Some? {
        assert PaymentSound(s, s.payments[known.value]);
        ApplyRefundKeepsPaid(SavePayment(s, known.value, s.payments[known.value].(status := status)), booking, source,
                             i);
      } else {
        ApplyRefundKeepsPaid(AddPayment(s, NewRefund(s, source, refundId, amount, status, "webhook-" + refundId)),
                             booking, source, i);
      }
    }
  }

  // ----- what a refunded payment can still become -----

  /** No other row holds this payment id. */
  ghost predicate IdUnused(s: State, i: nat, paymentId: string) {
    forall j :: 0 <= j < |s.payments| && j != i ==> s.payments[j].paymentId != Some(paymentId)
  }

  ghost predicate NoOtherActive(s: State, i: nat)
    requires i < |s.payments|
  {
    forall j :: 0 <= j < |s.payments| && j != i && s.payments[j].booking == s.payments[i].booking ==>
      !ActiveAdvance(s.payments[j])
  }

  /** A payment can be saved as paid exactly when its id is free and its booking has no other active advance. */
  lemma PaidRowFits(s: State, i: nat, paymentId: string)
    requires NoClash(s.payments) && i < |s.payments| && s.payments[i].kind.BookingAdvance?
    ensures CanUpdate(s.payments, i, PaidRow(s.payments[i], paymentId))
            <==> IdUnused(s, i, paymentId) && NoOtherActive(s, i)
  {
    var paid := PaidRow(s.payments[i], paymentId);
    forall j | 0 <= j < |s.payments| && j != i
      ensures Clash(s.payments[j], paid) <==>
                || s.payments[j].paymentId == Some(paymentId)
                || (s.payments[j].booking == paid.booking && ActiveAdvance(s.payments[j]))
    {
      NeighboursDoNotClash(s, i, j);
    }
  }

  /** And as failed exactly when it names no id or a free one. */
  lemma FailedRowFits(s: State, i: nat, paymentId: string)
    requires NoClash(s.payments) && i < |s.payments|
    ensures CanUpdate(s.payments, i, FailedRow(s.payments[i], paymentId))
            <==> paymentId == "" || IdUnused(s, i, paymentId)
  {
    var failed := FailedRow(s.payments[i], paymentId);
    forall j | 0 <= j < |s.payments| && j != i
      ensures Clash(s.payments[j], failed) <==> paymentId != "" && s.payments[j].paymentId == Some(paymentId)
    {
      NeighboursDoNotClash(s, i, j);
    }
  }

  lemma NeighboursDoNotClash(s: State, i: nat, j: nat)
    requires NoClash(s.payments) && i < |s.payments| && j < |s.payments| && i != j
    ensures !Clash(s.payments[j], s.payments[i])
  {
    if i < j {
      assert !Clash(s.payments[i], s.payments[j]);
    }
  }

  ghost predicate IsRefunded(s: State, i: nat) {
    i < |s.payments| && !s.payments[i].kind.Refund? && s.payments[i].status.Refunded?
  }

  /** A verification or a webhook that the constraints let through pays order `i`. */
  ghost predicate PaysAgain(s: State, e: Event, i: nat)
    requires i < |s.payments|
  {
    var p := s.payments[i];
    && NoOtherActive(s, i)
    && match e
       case Pay(VerifyPayment(orderId, paymentId, signatureOk, user)) =>
         && p.orderId == Some(orderId) && signatureOk && MayVerify(s, p, user) && IdUnused(s, i, paymentId)
       case Pay(Deliver(Captured(orderId, paymentId, amount))) =>
         && orderId != "" && paymentId != "" && p.orderId == Some(orderId) && amount == p.amount
         && IdUnused(s, i, paymentId)
       case _ => false
  }

  /** A bad signature or a failure webhook, under no id or a free one, fails it. */
  ghost predicate FailsAgain(s: State, e: Event, i: nat)
    requires i < |s.payments|
  {
    var p := s.payments[i];
    match e
    case Pay(VerifyPayment(orderId, paymentId, signatureOk, user)) =>
      && p.orderId == Some(orderId) && !signatureOk && MayVerify(s, p, user)
      && (paymentId == "" || IdUnused(s, i, paymentId))
    case Pay(Deliver(FailedPayment(orderId, paymentId))) =>
      && orderId != "" && p.orderId == Some(orderId) && (paymentId == "" || IdUnused(s, i, paymentId))
    case _ => false
  }

  ghost predicate MayVerify(s: State, p: Payment, user: Option<nat>) {
    p.booking < |s.bookings| && (user.None? || s.bookings[p.booking].customer == user.value)
  }

  /**
   * REFUNDED is not final: a capture of the order makes it SUCCESS and its booking CONFIRMED again, and a failure
   * report makes it FAILED. Nothing else changes it, and these do exactly when their guards let them.
   */
  lemma RefundedStaysIff(s: State, e: Event, i: nat)
    requires Sound(s) && IsRefunded(s, i)
    ensures i < |Next(s, e).payments|
    ensures Next(s, e).payments[i].status.Refunded? <==> !PaysAgain(s, e, i) && !FailsAgain(s, e, i)
    ensures PaysAgain(s, e, i) ==>
              && Next(s, e).payments[i].status.Success?
              && s.payments[i].booking < |Next(s, e).bookings|
              && Next(s, e).bookings[s.payments[i].booking].status.Confirmed?
    ensures FailsAgain(s, e, i) ==> Next(s, e).payments[i].status.Failed?
  {
    match e
    case Live(life) => LifeKeepsRow(s, life, i);
    case Desk(desk) => DeskKeepsRow(s, desk, i);
    case Pay(OrderAdvance(_, _, _, _)) =>
    case Pay(VerifyPayment(orderId, paymentId, signatureOk, user)) =>
      GoodSignatureRefunded(s, orderId, paymentId, user, i);
      BadSignatureRefunded(s, orderId, paymentId, user, i);
    case Pay(RequestRefund(payment, amount, key, provider)) =>
      RequestKeepsRefunded(s, payment, amount, key, provider, i);
    case Pay(ReconcileRefund(refund, answer)) => ReconcileKeepsRefunded(s, refund, answer, i);
    case Pay(Deliver(w)) => DispatchRefunded(s, w, i);
  }

  lemma LifeKeepsRow(s: State, e: LifeEvent, i: nat)
    requires i < |s.payments|
    ensures i < |StepLife(s, e).state.payments| && StepLife(s, e).state.payments[i] == s.payments[i]
  {
  }

  lemma DeskKeepsRow(s: State, e: DeskEvent, i: nat)
    requires i < |s.payments|
    ensures i < |StepDesk(s, e).state.payments| && StepDesk(s, e).state.payments[i] == s.payments[i]
  {
  }

  lemma ApplyRefundKeepsRefunded(s: State, booking: nat, source: nat, i: nat)
    requires booking < |s.bookings| && source < |s.payments| && IsRefunded(s, i)
    ensures IsRefunded(ApplyRefund(s, booking, source), i)
  {
  }

  lemma RequestKeepsRefunded(s: State, payment: nat, amount: int, key: string, provider: Option<ProviderRefund>, i: nat)
    requires IsRefunded(s, i)
    ensures IsRefunded(CreateRefund(s, payment, amount, key, provider).state, i)
  {
    var o := CreateRefund(s, payment, amount, key, provider);
    if o.reply.RefundReply? && o.reply.sent {
      var row := NewRefund(s, payment, provider.value.id, amount, RefundStatus(provider.value.status), key);
      ApplyRefundKeepsRefunded(AddPayment(s, row), s.payments[payment].booking, payment, i);
    }
  }

  lemma ReconcileKeepsRefunded(s: State, refund: nat, answer: Option<string>, i: nat)
    requires IsRefunded(s, i)
    ensures IsRefunded(Reconcile(s, refund, answer).state, i)
  {
    if Reconcile(s, refund, answer).Committed() {
      var r := s.payments[refund];
      ApplyRefundKeepsRefunded(SavePayment(s, refund, r.(status := RefundStatus(answer.value))), r.booking,
                               r.parent.value, i);
    }
  }

  lemma HookKeepsRefunded(s: State, refundId: string, sourceId: string, status: RecordStatus, amount: nat, i: nat)
    requires Sound(s) && IsRefunded(s, i)
    ensures IsRefunded(RefundWebhook(s, refundId, sourceId, status, amount).state, i)
  {
    if RefundWebhook(s, refundId, sourceId, status, amount).Committed() {
      var source := Latest(s.payments, WithPaymentId(sourceId)).value;
      var booking := s.payments[source].booking;
      var known := Latest(s.payments, WithRefundId(refundId));
      if known.Some? {
        assert PaymentSound(s, s.payments[known.value]);
        ApplyRefundKeepsRefunded(SavePayment(s, known.value, s.payments[known.value].(status := status)), booking,
                                 source, i);
      } else {
        var row := NewRefund(s, source, refundId, amount, status, "webhook-" + refundId);
        ApplyRefundKeepsRefunded(AddPayment(s, row), booking, source, i);
      }
    }
  }

  /** An order id is found on its own row. */
  lemma OrderRowIs(s: State, orderId: string, i: nat)
    requires NoClash(s.payments) && i < |s.payments|
    ensures s.payments[i].orderId == Some(orderId) <==> OrderRow(s, orderId) == Some(i)
  {
    var found := OrderRow(s, orderId);
    if s.payments[i].orderId == Some(orderId) {
      assert WithOrder(orderId)(s.payments[i]);
      if found != Some(i) {
        assert s.payments[found.value].orderId == Some(orderId);
        NeighboursDoNotClash(s, i, found.value);
      }
    }
  }

  lemma GoodSignatureRefunded(s: State, orderId: string, paymentId: string, user: Option<nat>, i: nat)
    requires Sound(s) && IsRefunded(s, i)
    ensures var s' := Verify(s, orderId, paymentId, true, user).state;
            && i < |s'.payments|
            && if PaysAgain(s, Pay(VerifyPayment(orderId, paymentId, true, user)), i) then
                 && s'.payments[i].status.Success?
                 && s.payments[i].booking < |s'.bookings| && s'.bookings[s.payments[i].booking].status.Confirmed?
               else s'.payments[i].status.Refunded?
  {
    assert PaymentSound(s, s.payments[i]);
    OrderRowIs(s, orderId, i);
    PaidRowFits(s, i, paymentId);
  }

  lemma BadSignatureRefunded(s: State, orderId: string, paymentId: string, user: Option<nat>, i: nat)
    requires Sound(s) && IsRefunded(s, i)
    ensures var s' := Verify(s, orderId, paymentId, false, user).state;
            && i < |s'.payments|
            && if FailsAgain(s, Pay(VerifyPayment(orderId, paymentId, false, user)), i) then
                 s'.payments[i].status.Failed?
               else s'.payments[i].status.Refunded?
  {
    assert PaymentSound(s, s.payments[i]);
    OrderRowIs(s, orderId, i);
    FailedRowFits(s, i, paymentId);
  }

  lemma FailureHookRefunded(s: State, orderId: string, paymentId: string, i: nat)
    requires Sound(s) && IsRefunded(s, i)
    ensures var s' := Dispatch(s, FailedPayment(orderId, paymentId)).state;
            && i < |s'.payments|
            && s'.payments[i].status == (if FailsAgain(s, Pay(Deliver(FailedPayment(orderId, paymentId))), i)
                                         then RecordStatus.Failed else RecordStatus.Refunded)
  {
    assert PaymentSound(s, s.payments[i]);
    OrderRowIs(s, orderId, i);
    FailedRowFits(s, i, paymentId);
  }

  lemma DispatchRefunded(s: State, w: Webhook, i: nat)
    requires Sound(s) && IsRefunded(s, i)
    ensures var e := Pay(Deliver(w));
            var s' := Dispatch(s, w).state;
            && i < |s'.payments|
            && s'.payments[i].status == (if PaysAgain(s, e, i) then Success
                                         else if FailsAgain(s, e, i) then RecordStatus.Failed
                                         else RecordStatus.Refunded)
            && (PaysAgain(s, e, i) ==>
                  s.payments[i].booking < |s'.bookings| && s'.bookings[s.payments[i].booking].status.Confirmed?)
  {
    match w
    case Captured(orderId, paymentId, amount) =>
      assert PaymentSound(s, s.payments[i]);
      OrderRowIs(s, orderId, i);
      GoodSignatureRefunded(s, orderId, paymentId, None, i);
    case FailedPayment(orderId, paymentId) => FailureHookRefunded(s, orderId, paymentId, i);
    case RefundChanged(refundId, sourceId, status, amount) =>
      HookKeepsRefunded(s, refundId, sourceId, RefundStatus(status), amount, i);
    case OtherEvent(_) =>
  }

  // ----- convergence of one order -----

  /** A client verification, a capture webhook or a failure webhook for this order. */
  ghost predicate About(e: Event, orderId: string) {
    && e.Pay?
    && match e.pay
       case VerifyPayment(o, _, _, _) => o == orderId
       case Deliver(Captured(o, _, _)) => o == orderId
       case Deliver(FailedPayment(o, _)) => o == orderId
       case _ => false
  }

  function GatewayId(e: Event): string {
    match e
    case Pay(VerifyPayment(_, paymentId, _, _)) => paymentId
    case Pay(Deliver(Captured(_, paymentId, _))) => paymentId
    case Pay(Deliver(FailedPayment(_, paymentId))) => paymentId
    case _ => ""
  }

  /** No other row holds the payment id the event names. */
  ghost predicate OwnId(s: State, i: nat, e: Event) { IdUnused(s, i, GatewayId(e)) }

  /** A good signature from the booking's own customer, or a capture webhook for the right amount. */
  ghost predicate ValidCapture(e: Event, customer: nat, amount: int) {
    match e
    case Pay(VerifyPayment(_, _, signatureOk, user)) => signatureOk && (user.Some? ==> user.value == customer)
    case Pay(Deliver(Captured(o, paymentId, paid))) => o != "" && paymentId != "" && paid == amount
    case _ => false
  }

  /** A valid capture of order `i` under a payment id that no other row holds. */
  ghost predicate Captures(s: State, i: nat, e: Event)
    requires i < |s.payments| && s.payments[i].booking < |s.bookings|
  {
    ValidCapture(e, s.bookings[s.payments[i].booking].customer, s.payments[i].amount) && OwnId(s, i, e)
  }

  ghost predicate HasCapture(s: State, i: nat, run: seq<Event>)
    requires i < |s.payments| && s.payments[i].booking < |s.bookings|
  {
    exists k :: 0 <= k < |run| && Captures(s, i, run[k])
  }

  /** One freshly created order `i` on a booking that awaits payment. */
  ghost predicate FreshOrder(s: State, i: nat, orderId: string) {
    && Sound(s) && i < |s.payments|
    && s.payments[i].orderId == Some(orderId) && s.payments[i].kind.BookingAdvance? && s.payments[i].status.Created?
    && s.payments[i].booking < |s.bookings| && s.bookings[s.payments[i].booking].status.PendingPayment?
  }

  /** The three shapes the ledger can have while only this order is worked on. */
  ghost predicate Progress(s0: State, i: nat, s: State, captured: bool)
    requires i < |s0.payments| && s0.payments[i].booking < |s0.bookings|
  {
    var p0 := s0.payments[i];
    var k := p0.booking;
    var b0 := s0.bookings[k];
    && s.payments == s0.payments[i := if i < |s.payments| then s.payments[i] else p0]
    && s.bookings == s0.bookings[k := if k < |s.bookings| then s.bookings[k] else b0]
    && s.slots == s0.slots && s.services == s0.services && s.technicians == s0.technicians
    && var p := s.payments[i];
       var b := s.bookings[k];
       && p == p0.(status := p.status, paymentId := p.paymentId, signatureVerified := p.signatureVerified)
       && if captured then
            && p.status.Success?
            && exists hadFailed: bool :: b == Settled(b0, hadFailed)
                && s.notices == s0.notices + SettledNotices(k, hadFailed)
          else
            || (p.status.Created? && b == b0 && s.notices == s0.notices)
            || (p.status.Failed? && b == b0.(status := PaymentFailed, payment := PaymentState.Failed)
                && s.notices == s0.notices + [Notice(PaymentFailedNotice, k)])
  }

  /** The booking once its deposit is in: one confirmation entry, whether or not an attempt failed before. */
  function Settled(b: Booking, hadFailed: bool): Booking {
    b.(advancePaid := b.advanceRequired, balanceDue := b.total - b.advanceRequired, payment := PartiallyPaid,
       status := Confirmed,
       history := b.history + [Hop(Some(if hadFailed then PaymentFailed else PendingPayment), Confirmed)])
  }

  function SettledNotices(k: nat, hadFailed: bool): seq<Notice> {
    (if hadFailed then [Notice(PaymentFailedNotice, k)] else [])
    + [Notice(PaymentSuccessfulNotice, k), Notice(BookingConfirmedNotice, k)]
  }

  lemma ProgressFindsOrder(s0: State, i: nat, orderId: string, s: State, captured: bool)
    requires FreshOrder(s0, i, orderId) && Progress(s0, i, s, captured)
    ensures OrderRow(s, orderId) == Some(i)
  {
    var found := OrderRow(s, orderId);
    assert WithOrder(orderId)(s.payments[i]);
    if found != Some(i) {
      var j := found.value;
      assert s0.payments[j].orderId == Some(orderId);
      assert Clash(s0.payments[i], s0.payments[j]);
    }
  }

  /** Nothing else holds this order's key, id or active place, so saving it cannot trip a constraint. */
  lemma ProgressCanSave(s0: State, i: nat, orderId: string, s: State, captured: bool, p: Payment)
    requires FreshOrder(s0, i, orderId) && Progress(s0, i, s, captured)
    requires p == s0.payments[i].(status := p.status, paymentId := p.paymentId,
                                  signatureVerified := p.signatureVerified)
    requires
      || p.paymentId == s0.payments[i].paymentId
      || (p.paymentId.Some? && forall j :: 0 <= j < |s0.payments| && j != i ==> s0.payments[j].paymentId != p.paymentId)
    ensures CanUpdate(s.payments, i, p)
  {
    forall j | 0 <= j < |s.payments| && j != i ensures !Clash(s.payments[j], p) {
      assert s.payments[j] == s0.payments[j];
      NeighboursDoNotClash(s0, i, j);
    }
  }

  /** The payment id on the order is still its own or the unused one it started with. */
  ghost predicate IdFree(s0: State, i: nat, s: State)
    requires i < |s.payments| && i < |s0.payments|
  {
    || s.payments[i].paymentId == s0.payments[i].paymentId
    || (s.payments[i].paymentId.Some?
        && forall j :: 0 <= j < |s0.payments| && j != i ==> s0.payments[j].paymentId != s.payments[i].paymentId)
  }

  /** Saving the order under an id that another row holds trips the unique constraint. */
  lemma ProgressCannotSave(s0: State, i: nat, s: State, captured: bool, p: Payment)
    requires i < |s0.payments| && s0.payments[i].booking < |s0.bookings| && Progress(s0, i, s, captured)
    requires p.paymentId.Some? && !IdUnused(s0, i, p.paymentId.value)
    ensures !CanUpdate(s.payments, i, p)
  {
    var j :| 0 <= j < |s0.payments| && j != i && s0.payments[j].paymentId == p.paymentId;
    assert s.payments[j] == s0.payments[j] && Clash(s.payments[j], p);
  }

  /** A failure is recorded, or refused when it names an id of another row; either way nothing is captured. */
  lemma FailureProgress(s0: State, i: nat, orderId: string, s: State, paymentId: string)
    requires FreshOrder(s0, i, orderId) && Progress(s0, i, s, false) && IdFree(s0, i, s)
    ensures Progress(s0, i, MarkFailed(s, i, paymentId).state, false)
    ensures IdFree(s0, i, MarkFailed(s, i, paymentId).state)
  {
    var p' := FailedRow(s.payments[i], paymentId);
    if paymentId == "" || IdUnused(s0, i, paymentId) {
      ProgressCanSave(s0, i, orderId, s, false, p');
      var s' := MarkFailed(s, i, paymentId).state;
      var k := s.payments[i].booking;
      assert s'.payments == s0.payments[i := p'];
      assert s'.bookings == s0.bookings[k := s'.bookings[k]];
    } else {
      ProgressCannotSave(s0, i, s, false, p');
    }
  }

  lemma CaptureProgress(s0: State, i: nat, orderId: string, s: State, paymentId: string, user: Option<nat>)
    requires FreshOrder(s0, i, orderId) && Progress(s0, i, s, false) && IdFree(s0, i, s) && IdUnused(s0, i, paymentId)
    requires user.Some? ==> user.value == s0.bookings[s0.payments[i].booking].customer
    ensures Progress(s0, i, Verify(s, orderId, paymentId, true, user).state, true)
    ensures IdFree(s0, i, Verify(s, orderId, paymentId, true, user).state)
  {
    ProgressFindsOrder(s0, i, orderId, s, false);
    assert PaymentSound(s0, s0.payments[i]);
    var p := s.payments[i];
    var k := p.booking;
    var paid := PaidRow(p, paymentId);
    ProgressCanSave(s0, i, orderId, s, false, paid);
    var s' := Verify(s, orderId, paymentId, true, user).state;
    var hadFailed := p.status.Failed?;
    assert s'.payments == s0.payments[i := paid];
    assert s'.bookings[k] == Settled(s0.bookings[k], hadFailed);
    assert s'.bookings == s0.bookings[k := s'.bookings[k]];
    assert s'.notices == s0.notices + SettledNotices(k, hadFailed);
  }

  /** A good signature under an id that another row holds is refused. */
  lemma TakenCapture(s0: State, i: nat, orderId: string, s: State, paymentId: string, user: Option<nat>)
    requires FreshOrder(s0, i, orderId) && Progress(s0, i, s, false) && !IdUnused(s0, i, paymentId)
    ensures Verify(s, orderId, paymentId, true, user).state == s
  {
    ProgressFindsOrder(s0, i, orderId, s, false);
    ProgressCannotSave(s0, i, s, false, PaidRow(s.payments[i], paymentId));
  }

  /** A verification: somebody else's changes nothing, a good signature captures under a free id, a bad one fails. */
  lemma VerifyProgress(s0: State, i: nat, orderId: string, s: State, paymentId: string, signatureOk: bool,
                       user: Option<nat>)
    requires FreshOrder(s0, i, orderId) && Progress(s0, i, s, false) && IdFree(s0, i, s)
    ensures var owner := user.None? || user.value == s0.bookings[s0.payments[i].booking].customer;
            var s' := Verify(s, orderId, paymentId, signatureOk, user).state;
            Progress(s0, i, s', owner && signatureOk && IdUnused(s0, i, paymentId)) && IdFree(s0, i, s')
  {
    ProgressFindsOrder(s0, i, orderId, s, false);
    assert PaymentSound(s0, s0.payments[i]);
    if user.None? || user.value == s0.bookings[s0.payments[i].booking].customer {
      if !signatureOk {
        FailureProgress(s0, i, orderId, s, paymentId);
      } else if IdUnused(s0, i, paymentId) {
        CaptureProgress(s0, i, orderId, s, paymentId, user);
      } else {
        TakenCapture(s0, i, orderId, s, paymentId, user);
      }
    }
  }

  /** The same for a captured order: nothing changes any more. */
  lemma CapturedProgress(s0: State, i: nat, orderId: string, s: State, e: Event)
    requires FreshOrder(s0, i, orderId) && Progress(s0, i, s, true) && About(e, orderId)
    ensures Next(s, e) == s
  {
    ProgressFindsOrder(s0, i, orderId, s, true);
  }

  lemma OneStepOfProgress(s0: State, i: nat, orderId: string, s: State, captured: bool, e: Event)
    requires FreshOrder(s0, i, orderId) && Progress(s0, i, s, captured) && IdFree(s0, i, s) && About(e, orderId)
    ensures Progress(s0, i, Next(s, e), captured || Captures(s0, i, e)) && IdFree(s0, i, Next(s, e))
  {
    ProgressFindsOrder(s0, i, orderId, s, captured);
    if captured {
      CapturedProgress(s0, i, orderId, s, e);
    } else {
      match e
      case Pay(VerifyPayment(_, paymentId, signatureOk, user)) =>
        VerifyProgress(s0, i, orderId, s, paymentId, signatureOk, user);
      case Pay(Deliver(Captured(_, paymentId, paid))) =>
        if orderId != "" && paymentId != "" && paid == s0.payments[i].amount {
          VerifyProgress(s0, i, orderId, s, paymentId, true, None);
        }
      case Pay(Deliver(FailedPayment(_, paymentId))) =>
        FailureProgress(s0, i, orderId, s, paymentId);
    }
  }

  /**
   * From one CREATED order, any mix of good and bad client verifications, capture and failure webhooks, whatever
   * payment ids they name: the order ends SUCCESS exactly when the run holds a valid capture under an id of its own,
   * and then the booking is confirmed with its deposit paid, one confirmation entry and at most one failure notice.
   * Nothing else in the ledger moves.
   */
  lemma {:induction false} Convergence(s: State, i: nat, orderId: string, run: seq<Event>)
    requires FreshOrder(s, i, orderId)
    requires forall k :: 0 <= k < |run| ==> About(run[k], orderId)
    ensures Progress(s, i, Run(s, run), HasCapture(s, i, run)) && IdFree(s, i, Run(s, run))
    ensures Run(s, run).payments[i].status.Success? <==> HasCapture(s, i, run)
  {
    if |run| == 0 {
      assert s.payments == s.payments[i := s.payments[i]];
      assert s.bookings == s.bookings[s.payments[i].booking := s.bookings[s.payments[i].booking]];
    } else {
      var front, last := run[..|run| - 1], run[|run| - 1];
      Convergence(s, i, orderId, front);
      OneStepOfProgress(s, i, orderId, Run(s, front), HasCapture(s, i, front), last);
      OneMoreCapture(s, i, run);
    }
  }

  lemma OneMoreCapture(s: State, i: nat, run: seq<Event>)
    requires |run| > 0 && i < |s.payments| && s.payments[i].booking < |s.bookings|
    ensures HasCapture(s, i, run) <==> HasCapture(s, i, run[..|run| - 1]) || Captures(s, i, run[|run| - 1])
  {
    var front := run[..|run| - 1];
    if HasCapture(s, i, front) {
      var k :| 0 <= k < |front| && Captures(s, i, front[k]);
      assert Captures(s, i, run[k]);
    }
    if HasCapture(s, i, run) {
      var k :| 0 <= k < |run| && Captures(s, i, run[k]);
      assert k < |front| ==> Captures(s, i, front[k]);
    }
  }

  /** A valid capture of a fresh order pays it if and only if no other row holds the payment id it names. */
  lemma CaptureSucceedsIff(s: State, i: nat, orderId: string, e: Event)
    requires FreshOrder(s, i, orderId) && About(e, orderId)
    requires ValidCapture(e, s.bookings[s.payments[i].booking].customer, s.payments[i].amount)
    ensures i < |Next(s, e).payments|
    ensures Next(s, e).payments[i].status.Success? <==> OwnId(s, i, e)
    ensures !OwnId(s, i, e) ==> Next(s, e) == s
  {
    Convergence(s, i, orderId, [e]);
    OneEventRun(s, e);
    assert HasCapture(s, i, [e]) <==> Captures(s, i, [e][0]);
    if !OwnId(s, i, e) {
      Convergence(s, i, orderId, []);
      TakenCapture(s, i, orderId, s, GatewayId(e), if e.pay.VerifyPayment? then e.pay.verifier else None);
    }
  }

  /** Read off: payment, booking, deposit, history and failure notices after convergence. */
  lemma ConvergesToConfirmed(s: State, i: nat, orderId: string, run: seq<Event>)
    requires FreshOrder(s, i, orderId)
    requires forall k :: 0 <= k < |run| ==> About(run[k], orderId)
    requires HasCapture(s, i, run)
    ensures var s', j := Run(s, run), s.payments[i].booking;
            && i < |s'.payments| && s'.payments[i].status.Success?
            && j < |s'.bookings| && s'.bookings[j].status.Confirmed?
            && s'.bookings[j].advancePaid == s.bookings[j].advanceRequired == s'.bookings[j].advanceRequired
            && |s'.bookings[j].history| == |s.bookings[j].history| + 1
            && Sum(s'.notices, FailureNoticeFor(j)) <= Sum(s.notices, FailureNoticeFor(j)) + 1
  {
    Convergence(s, i, orderId, run);
    var j, s' := s.payments[i].booking, Run(s, run);
    var hadFailed: bool :|
      s'.bookings[j] == Settled(s.bookings[j], hadFailed) && s'.notices == s.notices + SettledNotices(j, hadFailed);
    OneFailureNotice(s.notices, j, hadFailed);
  }

  lemma OneFailureNotice(notices: seq<Notice>, j: nat, hadFailed: bool)
    ensures Sum(notices + SettledNotices(j, hadFailed), FailureNoticeFor(j))
            == Sum(notices, FailureNoticeFor(j)) + (if hadFailed then 1 else 0)
  {
    var w := FailureNoticeFor(j);
    var paid, confirmed, failed :=
      Notice(PaymentSuccessfulNotice, j), Notice(BookingConfirmedNotice, j), Notice(PaymentFailedNotice, j);
    var before := if hadFailed then notices + [failed] else notices;
    SumAppend(notices, failed, w);
    SumAppend(before, paid, w);
    SumAppend(before + [paid], confirmed, w);
    assert notices + SettledNotices(j, hadFailed) == before + [paid] + [confirmed];
  }

  function FailureNoticeFor(booking: nat): Notice -> int {
    (n: Notice) => if n == Notice(PaymentFailedNotice, booking) then 1 else 0
  }
}
