/** REFUND_PENDING always has a pending refund behind it, and the one webhook that can break this. */
module PendingProofs {
  import opened Tables
  import opened Model
  import opened Payments
  import opened Machine
  import opened Soundness
  import opened BookingRows
  import opened RefundProofs

  ghost predicate WaitingRefund(p: Payment, booking: nat) {
    p.kind.Refund? && p.booking == booking && p.status.Pending?
  }

  ghost predicate HasWaiting(payments: seq<Payment>, booking: nat) {
    exists r :: 0 <= r < |payments| && WaitingRefund(payments[r], booking)
  }

  ghost predicate BackedAt(s: State, i: nat)
    requires i < |s.bookings|
  {
    s.bookings[i].status.RefundPending? ==> HasWaiting(s.payments, i)
  }

  ghost predicate Backed(s: State) {
    forall i :: 0 <= i < |s.bookings| ==> BackedAt(s, i)
  }

  /**
   * A refund webhook names a known refund but the payment of another booking: the last waiting refund of a
   * REFUND_PENDING booking is settled while only the other booking is looked at.
   */
  ghost predicate Strands(s: State, e: Event) {
    && e.Pay? && e.pay.Deliver? && e.pay.webhook.RefundChanged?
    && var w := e.pay.webhook;
       var source := Latest(s.payments, WithPaymentId(w.sourcePaymentId));
       var known := Latest(s.payments, WithRefundId(w.refundId));
       && w.refundId != "" && w.sourcePaymentId != ""
       && source.Some? && known.Some?
       && StrandsRow(s, known.value, source.value, RefundStatus(w.status))
  }

  ghost predicate StrandsRow(s: State, refund: nat, source: nat, status: RecordStatus)
    requires refund < |s.payments| && source < |s.payments|
  {
    var r := s.payments[refund];
    && r.booking < |s.bookings|
    && r.booking != s.payments[source].booking
    && s.bookings[r.booking].status.RefundPending?
    && !status.Pending?
    && forall k :: 0 <= k < |s.payments| && k != refund ==> !WaitingRefund(s.payments[k], r.booking)
  }

  /** Settling the refunds of one source backs its own booking and leaves the others to what they had. */
  lemma ApplyRefundBacks(s: State, booking: nat, source: nat)
    requires Sound(s) && booking < |s.bookings| && source < |s.payments| && IsOrderOf(s.payments[source], booking)
    ensures |ApplyRefund(s, booking, source).bookings| == |s.bookings|
    ensures BackedAt(ApplyRefund(s, booking, source), booking)
    ensures forall i :: 0 <= i < |s.bookings| && i != booking ==>
              (BackedAt(ApplyRefund(s, booking, source), i) <==> BackedAt(s, i))
  {
    var s' := ApplyRefund(s, booking, source);
    forall i: nat ensures HasWaiting(s'.payments, i) <==> HasWaiting(s.payments, i) {
      if HasWaiting(s.payments, i) {
        var r :| 0 <= r < |s.payments| && WaitingRefund(s.payments[r], i);
        assert WaitingRefund(s'.payments[r], i);
      }
      if HasWaiting(s'.payments, i) {
        var r :| 0 <= r < |s'.payments| && WaitingRefund(s'.payments[r], i);
        assert WaitingRefund(s.payments[r], i);
      }
    }
    if s'.bookings[booking].status.RefundPending? {
      assert HasWaitingRefund(s.payments, source);
      var r :| 0 <= r < |s.payments| && WaitsFor(s.payments[r], source);
      assert PaymentSound(s, s.payments[r]);
      assert WaitingRefund(s.payments[r], booking);
    }
  }

  /** A refund row's status changes and its source, or another payment, is settled. */
  lemma StatusBacks(s: State, refund: nat, status: RecordStatus, booking: nat, source: nat)
    requires Sound(s) && Backed(s) && refund < |s.payments| && s.payments[refund].kind.Refund?
    requires !status.Created? && !status.Refunded?
    requires booking < |s.bookings| && source < |s.payments| && IsOrderOf(s.payments[source], booking)
    ensures Backed(ApplyRefund(SavePayment(s, refund, s.payments[refund].(status := status)), booking, source))
            <==> !StrandsRow(s, refund, source, status)
  {
    var r := s.payments[refund];
    assert PaymentSound(s, r);
    var s1 := SavePayment(s, refund, r.(status := status));
    QuietUpdate(s.payments, refund, r.(status := status));
    SavePaymentSound(s, refund, r.(status := status));
    ApplyRefundBacks(s1, booking, source);
    forall i | 0 <= i < |s.bookings| && i != booking
      ensures BackedAt(s1, i) <==> !(i == r.booking && StrandsRow(s, refund, source, status))
    {
      WaitingAfter(s, refund, status, i);
      assert BackedAt(s, i);
    }
    var s2 := ApplyRefund(s1, booking, source);
    if StrandsRow(s, refund, source, status) {
      assert !BackedAt(s2, r.booking);
    } else {
      forall i | 0 <= i < |s2.bookings| ensures BackedAt(s2, i) {
        if i != booking { assert BackedAt(s1, i); }
      }
    }
  }

  /** Which bookings still have a waiting refund once row `refund` has its new status. */
  lemma WaitingAfter(s: State, refund: nat, status: RecordStatus, i: nat)
    requires refund < |s.payments| && s.payments[refund].kind.Refund?
    ensures HasWaiting(s.payments[refund := s.payments[refund].(status := status)], i) <==>
              || (s.payments[refund].booking == i && status.Pending?)
              || exists k :: 0 <= k < |s.payments| && k != refund && WaitingRefund(s.payments[k], i)
  {
    var after := s.payments[refund := s.payments[refund].(status := status)];
    if s.payments[refund].booking == i && status.Pending? {
      assert WaitingRefund(after[refund], i);
    }
    if exists k :: 0 <= k < |s.payments| && k != refund && WaitingRefund(s.payments[k], i) {
      var k :| 0 <= k < |s.payments| && k != refund && WaitingRefund(s.payments[k], i);
      assert WaitingRefund(after[k], i);
    }
    if HasWaiting(after, i) {
      var k :| 0 <= k < |after| && WaitingRefund(after[k], i);
      if k != refund {
        assert WaitingRefund(s.payments[k], i);
      }
    }
  }

  lemma AddedPaymentBacks(s: State, p: Payment)
    requires Backed(s)
    ensures Backed(AddPayment(s, p))
  {
    forall i | 0 <= i < |s.bookings| ensures BackedAt(AddPayment(s, p), i) {
      assert BackedAt(s, i);
      if s.bookings[i].status.RefundPending? {
        var r :| 0 <= r < |s.payments| && WaitingRefund(s.payments[r], i);
        assert WaitingRefund((s.payments + [p])[r], i);
      }
    }
  }

  lemma NewRefundBacks(s: State, source: nat, refundId: string, amount: int, status: RecordStatus, key: string)
    requires Sound(s) && Backed(s) && source < |s.payments| && amount >= 0 && !status.Created? && !status.Refunded?
    requires IsOrderOf(s.payments[source], s.payments[source].booking)
    requires CanInsert(s.payments, NewRefund(s, source, refundId, amount, status, key))
    ensures s.payments[source].booking < |s.bookings|
    ensures Backed(ApplyRefund(AddPayment(s, NewRefund(s, source, refundId, amount, status, key)),
                               s.payments[source].booking, source))
  {
    var row := NewRefund(s, source, refundId, amount, status, key);
    assert PaymentSound(s, s.payments[source]);
    AddPaymentSound(s, row);
    AddedPaymentBacks(s, row);
    ApplyRefundBacks(AddPayment(s, row), s.payments[source].booking, source);
  }

  lemma CreateRefundBacks(s: State, payment: nat, amount: int, key: string, provider: Option<ProviderRefund>)
    requires Sound(s) && Backed(s)
    ensures Backed(CreateRefund(s, payment, amount, key, provider).state)
  {
    var o := CreateRefund(s, payment, amount, key, provider);
    if o.reply.RefundReply? && o.reply.sent {
      assert PaymentSound(s, s.payments[payment]);
      NewRefundBacks(s, payment, provider.value.id, amount, RefundStatus(provider.value.status), key);
      var row := NewRefund(s, payment, provider.value.id, amount, RefundStatus(provider.value.status), key);
      SameRowsBack(ApplyRefund(AddPayment(s, row), s.payments[payment].booking, payment), o.state);
    }
  }

  lemma SameRowsBack(s: State, s': State)
    requires Backed(s) && s'.bookings == s.bookings && s'.payments == s.payments
    ensures Backed(s')
  {
    forall i | 0 <= i < |s'.bookings| ensures BackedAt(s', i) {
      assert BackedAt(s, i);
    }
  }

  lemma ReconcileBacks(s: State, refund: nat, answer: Option<string>)
    requires Sound(s) && Backed(s)
    ensures Backed(Reconcile(s, refund, answer).state)
  {
    var o := Reconcile(s, refund, answer);
    if o.Committed() {
      var r := s.payments[refund];
      assert PaymentSound(s, r);
      StatusBacks(s, refund, RefundStatus(answer.value), r.booking, r.parent.value);
      var s1 := SavePayment(s, refund, r.(status := RefundStatus(answer.value)));
      SameRowsBack(ApplyRefund(s1, r.booking, r.parent.value), o.state);
    }
  }

  /** A refund webhook keeps every REFUND_PENDING backed if and only if it strands none. */
  lemma RefundHookBacksIff(s: State, refundId: string, sourceId: string, status: string, amount: nat)
    requires Sound(s) && Backed(s)
    ensures Backed(RefundWebhook(s, refundId, sourceId, RefundStatus(status), amount).state)
            <==> !Strands(s, Pay(Deliver(RefundChanged(refundId, sourceId, status, amount))))
  {
    var o := RefundWebhook(s, refundId, sourceId, RefundStatus(status), amount);
    var found := Latest(s.payments, WithPaymentId(sourceId));
    var known := Latest(s.payments, WithRefundId(refundId));
    if o.Committed() {
      var source := found.value;
      assert PaymentSound(s, s.payments[source]);
      var booking := s.payments[source].booking;
      if known.Some? {
        var r := s.payments[known.value];
        assert PaymentSound(s, r);
        StatusBacks(s, known.value, RefundStatus(status), booking, source);
        var s1 := ApplyRefund(SavePayment(s, known.value, r.(status := RefundStatus(status))), booking, source);
        if Backed(s1) { SameRowsBack(s1, o.state); }
        if Backed(o.state) { SameRowsBack(o.state, s1); }
      } else {
        NewRefundBacks(s, source, refundId, amount, RefundStatus(status), "webhook-" + refundId);
        var row := NewRefund(s, source, refundId, amount, RefundStatus(status), "webhook-" + refundId);
        SameRowsBack(ApplyRefund(AddPayment(s, row), booking, source), o.state);
      }
    } else if found.Some? {
      assert PaymentSound(s, s.payments[found.value]);
      if known.Some? {
        assert PaymentSound(s, s.payments[known.value]);
      }
    }
  }

  /** Steps without refunds: no booking becomes REFUND_PENDING and no refund row moves. */
  lemma RefundlessBacks(s: State, e: Event)
    requires Sound(s) && Backed(s) && Refundless(e)
    ensures Backed(Next(s, e))
  {
    RefundlessRows(s, e);
    NotNewlyPending(s, e);
    StepSound(s, e);
    BackedBy(s, Next(s, e));
  }

  lemma BackedBy(s: State, s': State)
    requires PaymentsSound(s) && Backed(s) && PlainRows(s, s')
    requires forall i :: 0 <= i < |s'.bookings| && s'.bookings[i].status.RefundPending? ==>
               i < |s.bookings| && s.bookings[i].status.RefundPending?
    ensures Backed(s')
  {
    forall i | 0 <= i < |s'.bookings| ensures BackedAt(s', i) {
      if s'.bookings[i].status.RefundPending? {
        assert BackedAt(s, i);
        var r :| 0 <= r < |s.payments| && WaitingRefund(s.payments[r], i);
        assert PaymentSound(s, s.payments[r]);
        assert WaitingRefund(s'.payments[r], i);
      }
    }
  }

  lemma NotNewlyPending(s: State, e: Event)
    requires Sound(s) && Refundless(e)
    ensures forall i :: 0 <= i < |Next(s, e).bookings| && Next(s, e).bookings[i].status.RefundPending? ==>
              i < |s.bookings| && s.bookings[i].status.RefundPending?
  {
    match e
    case Pay(p) =>
      OrderBookingRows(s, p);
      forall i | 0 <= i < |s.bookings| ensures OrderRowStep(s.bookings[i], StepPay(s, p).state.bookings[i]) {}
    case Live(l) => LifeNotNewlyPending(s, l);
    case Desk(d) => DeskNotNewlyPending(s, d);
  }

  lemma LifeNotNewlyPending(s: State, e: LifeEvent)
    ensures var bookings := StepLife(s, e).state.bookings;
            forall i :: 0 <= i < |bookings| && bookings[i].status.RefundPending? ==>
              i < |s.bookings| && s.bookings[i].status.RefundPending?
  {
  }

  lemma DeskNotNewlyPending(s: State, e: DeskEvent)
    ensures var bookings := StepDesk(s, e).state.bookings;
            forall i :: 0 <= i < |bookings| && bookings[i].status.RefundPending? ==>
              i < |s.bookings| && s.bookings[i].status.RefundPending?
  {
  }

  /** For every step: the invariant survives exactly when the step strands no booking. */
  lemma StepBacksIff(s: State, e: Event)
    requires Sound(s) && Backed(s)
    ensures Backed(Next(s, e)) <==> !Strands(s, e)
  {
    if Refundless(e) {
      RefundlessBacks(s, e);
    } else {
      match e.pay
      case RequestRefund(payment, amount, key, provider) => CreateRefundBacks(s, payment, amount, key, provider);
      case ReconcileRefund(refund, answer) => ReconcileBacks(s, refund, answer);
      case Deliver(w) => RefundHookBacksIff(s, w.refundId, w.sourcePaymentId, w.status, w.refundAmount);
    }
  }

  /** In every run that strands none, a REFUND_PENDING booking has a pending refund. */
  lemma {:induction false} PendingIsBacked(run: seq<Event>)
    requires Stays(EmptyLedger(), run, (s, e) => !Strands(s, e))
    ensures Backed(Run(EmptyLedger(), run))
  {
    if |run| > 0 {
      var front := run[..|run| - 1];
      PendingIsBacked(front);
      RunSound(EmptyLedger(), front);
      StepBacksIff(Run(EmptyLedger(), front), run[|run| - 1]);
    }
  }
}
