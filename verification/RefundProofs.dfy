/** Refunds: the budget of a payment, replay by key, and what REFUND_PENDING stands for. */
module RefundProofs {
  import opened Tables
  import opened Model
  import opened Payments
  import opened Machine
  import opened Soundness

  // ----- what never changes about a payment row -----

  /** Status, payment id and verification flag may change; everything else on a row is for life. */
  ghost predicate SameRow(p: Payment, p': Payment) {
    p' == p.(status := p'.status, paymentId := p'.paymentId, signatureVerified := p'.signatureVerified)
  }

  ghost predicate RowsKept(s: State, s': State) {
    && |s.payments| <= |s'.payments|
    && forall i :: 0 <= i < |s.payments| ==> SameRow(s.payments[i], s'.payments[i])
  }

  /** A step inserts at most one row, and a BALANCE row only when a collection is recorded. */
  ghost predicate InsertsOne(s: State, s': State, balance: bool) {
    |s'.payments| == |s.payments|
    || (|s'.payments| == |s.payments| + 1 && s'.payments[|s.payments|].kind.Balance? == balance)
  }

  /** Besides: refund rows stay exactly as they are and at most one row, not a refund, is added. */
  ghost predicate PlainRows(s: State, s': State) {
    && RowsKept(s, s')
    && (forall i :: 0 <= i < |s.payments| && s.payments[i].parent.Some? ==> s'.payments[i] == s.payments[i])
    && |s'.payments| <= |s.payments| + 1
    && (|s'.payments| > |s.payments| ==> s'.payments[|s.payments|].parent.None?)
  }

  lemma PaidRows(s: State, k: nat, paymentId: string)
    requires k < |s.payments| && s.payments[k].parent.None? && s.payments[k].booking < |s.bookings|
    ensures var p := s.payments[k];
            PlainRows(s, Confirm(SavePayment(s, k, PaidRow(p, paymentId)), p.booking, p.amount))
  {
  }

  lemma VerifyRows(s: State, orderId: string, paymentId: string, signatureOk: bool, user: Option<nat>)
    requires PaymentsSound(s)
    ensures PlainRows(s, Verify(s, orderId, paymentId, signatureOk, user).state)
  {
    VerifyCases(s, orderId, paymentId, signatureOk, user);
    var found := OrderRow(s, orderId);
    if found.Some? && s.payments[found.value].booking < |s.bookings| {
      assert PaymentSound(s, s.payments[found.value]);
      MarkFailedRows(s, found.value, paymentId);
      PaidRows(s, found.value, paymentId);
    }
  }

  lemma MarkFailedRows(s: State, payment: nat, paymentId: string)
    requires payment < |s.payments| && s.payments[payment].booking < |s.bookings| && s.payments[payment].parent.None?
    ensures PlainRows(s, MarkFailed(s, payment, paymentId).state)
  {
  }

  lemma FailedHookRows(s: State, orderId: string, paymentId: string)
    requires PaymentsSound(s)
    ensures PlainRows(s, Dispatch(s, FailedPayment(orderId, paymentId)).state)
  {
    var found := OrderRow(s, orderId);
    if found.Some? {
      assert PaymentSound(s, s.payments[found.value]);
      MarkFailedRows(s, found.value, paymentId);
    }
  }

  lemma LifeRows(s: State, e: LifeEvent)
    ensures PlainRows(s, StepLife(s, e).state)
  {
  }

  lemma DeskRows(s: State, e: DeskEvent)
    ensures PlainRows(s, StepDesk(s, e).state)
  {
  }

  lemma ApplyRefundRows(s: State, booking: nat, source: nat)
    requires booking < |s.bookings| && source < |s.payments|
    ensures RowsKept(s, ApplyRefund(s, booking, source)) && |ApplyRefund(s, booking, source).payments| == |s.payments|
  {
  }

  lemma StatusRows(s: State, refund: nat, status: RecordStatus, booking: nat, source: nat)
    requires refund < |s.payments| && booking < |s.bookings| && source < |s.payments|
    ensures RowsKept(s, ApplyRefund(SavePayment(s, refund, s.payments[refund].(status := status)), booking, source))
  {
    ApplyRefundRows(SavePayment(s, refund, s.payments[refund].(status := status)), booking, source);
  }

  lemma RefundHookRows(s: State, refundId: string, sourceId: string, status: RecordStatus, amount: nat)
    ensures RowsKept(s, RefundWebhook(s, refundId, sourceId, status, amount).state)
  {
    var o := RefundWebhook(s, refundId, sourceId, status, amount);
    if o.Committed() {
      var source := Latest(s.payments, WithPaymentId(sourceId)).value;
      var booking := s.payments[source].booking;
      var known := Latest(s.payments, WithRefundId(refundId));
      if known.Some? {
        StatusRows(s, known.value, status, booking, source);
      } else {
        ApplyRefundRows(AddPayment(s, NewRefund(s, source, refundId, amount, status, "webhook-" + refundId)), booking,
                        source);
      }
    }
  }

  lemma CreateRefundRows(s: State, payment: nat, amount: int, key: string, provider: Option<ProviderRefund>)
    ensures RowsKept(s, CreateRefund(s, payment, amount, key, provider).state)
  {
    var o := CreateRefund(s, payment, amount, key, provider);
    if o.reply.RefundReply? && o.reply.sent {
      var row := NewRefund(s, payment, provider.value.id, amount, RefundStatus(provider.value.status), key);
      ApplyRefundRows(AddPayment(s, row), s.payments[payment].booking, payment);
    }
  }

  /** The refund a request answers with carries the request's own key on the payment's booking. */
  lemma RefundHasItsKey(s: State, payment: nat, amount: int, key: string, provider: Option<ProviderRefund>)
    ensures CreateRefund(s, payment, amount, key, provider).reply.RefundReply? ==>
              var r := CreateRefund(s, payment, amount, key, provider).reply.refund;
              var rows := CreateRefund(s, payment, amount, key, provider).state.payments;
              r < |rows| && payment < |s.payments| && RefundKeyed(s.payments[payment].booking, key)(rows[r])
  {
    var o := CreateRefund(s, payment, amount, key, provider);
    if o.reply.RefundReply? && o.reply.sent {
      var row := NewRefund(s, payment, provider.value.id, amount, RefundStatus(provider.value.status), key);
      ApplyRefundRows(AddPayment(s, row), s.payments[payment].booking, payment);
      assert SameRow(row, o.state.payments[|s.payments|]);
    }
  }

  lemma ReconcileRows(s: State, refund: nat, answer: Option<string>)
    ensures RowsKept(s, Reconcile(s, refund, answer).state)
  {
    if Reconcile(s, refund, answer).Committed() {
      StatusRows(s, refund, RefundStatus(answer.value), s.payments[refund].booking, s.payments[refund].parent.value);
    }
  }

  /** A step that is not about refunds. */
  ghost predicate Refundless(e: Event) {
    e.Pay? ==> !e.pay.RequestRefund? && !e.pay.ReconcileRefund? && !(e.pay.Deliver? && e.pay.webhook.RefundChanged?)
  }

  lemma OrderRows(s: State, booking: nat, user: nat, key: string, gateway: Option<string>)
    ensures PlainRows(s, CreateOrder(s, booking, user, key, gateway).state)
  {
  }

  lemma HookRows(s: State, w: Webhook)
    requires PaymentsSound(s) && !w.RefundChanged?
    ensures PlainRows(s, Dispatch(s, w).state)
  {
    match w
    case Captured(orderId, paymentId, _) => VerifyRows(s, orderId, paymentId, true, None);
    case FailedPayment(orderId, paymentId) => FailedHookRows(s, orderId, paymentId);
    case OtherEvent(_) =>
  }

  lemma RefundlessRows(s: State, e: Event)
    requires PaymentsSound(s) && Refundless(e)
    ensures PlainRows(s, Next(s, e))
  {
    match e
    case Live(life) => LifeRows(s, life);
    case Desk(desk) => DeskRows(s, desk);
    case Pay(OrderAdvance(booking, user, key, gateway)) => OrderRows(s, booking, user, key, gateway);
    case Pay(VerifyPayment(orderId, paymentId, signatureOk, user)) =>
      VerifyRows(s, orderId, paymentId, signatureOk, user);
    case Pay(Deliver(webhook)) => HookRows(s, webhook);
  }

  lemma RowsKeptByStep(s: State, e: Event)
    requires PaymentsSound(s)
    ensures RowsKept(s, Next(s, e))
  {
    if Refundless(e) {
      RefundlessRows(s, e);
    } else {
      match e.pay
      case RequestRefund(payment, amount, key, provider) => CreateRefundRows(s, payment, amount, key, provider);
      case ReconcileRefund(refund, answer) => ReconcileRows(s, refund, answer);
      case Deliver(w) => RefundHookRows(s, w.refundId, w.sourcePaymentId, RefundStatus(w.status), w.refundAmount);
    }
  }

  lemma StepInsertsOne(s: State, e: Event)
    requires PaymentsSound(s)
    ensures InsertsOne(s, Next(s, e), e.Live? && e.life.RecordBalance?)
  {
    match e
    case Live(life) => LifeInsertsOne(s, life);
    case Desk(desk) => DeskInsertsOne(s, desk);
    case Pay(RequestRefund(payment, amount, key, provider)) =>
      CreateRefundInsertsOne(s, payment, amount, key, provider);
    case Pay(ReconcileRefund(_, _)) =>
    case Pay(OrderAdvance(_, _, _, _)) =>
    case Pay(VerifyPayment(orderId, paymentId, signatureOk, user)) =>
      VerifyInserts(s, orderId, paymentId, signatureOk, user);
    case Pay(Deliver(w)) => DispatchInsertsOne(s, w);
  }

  lemma LifeInsertsOne(s: State, e: LifeEvent)
    ensures InsertsOne(s, StepLife(s, e).state, e.RecordBalance?)
  {
  }

  lemma DeskInsertsOne(s: State, e: DeskEvent)
    ensures InsertsOne(s, StepDesk(s, e).state, false)
  {
  }

  lemma VerifyInserts(s: State, orderId: string, paymentId: string, signatureOk: bool, user: Option<nat>)
    ensures |Verify(s, orderId, paymentId, signatureOk, user).state.payments| == |s.payments|
  {
  }

  lemma CreateRefundInsertsOne(s: State, payment: nat, amount: int, key: string, provider: Option<ProviderRefund>)
    ensures InsertsOne(s, CreateRefund(s, payment, amount, key, provider).state, false)
  {
    var o := CreateRefund(s, payment, amount, key, provider);
    if o.reply.RefundReply? && o.reply.sent {
      var row := NewRefund(s, payment, provider.value.id, amount, RefundStatus(provider.value.status), key);
      ApplyRefundRows(AddPayment(s, row), s.payments[payment].booking, payment);
      assert SameRow(row, o.state.payments[|s.payments|]);
    }
  }

  lemma RefundHookInsertsOne(s: State, refundId: string, sourceId: string, status: RecordStatus, amount: nat)
    ensures InsertsOne(s, RefundWebhook(s, refundId, sourceId, status, amount).state, false)
  {
    var o := RefundWebhook(s, refundId, sourceId, status, amount);
    if o.Committed() {
      var source := Latest(s.payments, WithPaymentId(sourceId)).value;
      var booking := s.payments[source].booking;
      var known := Latest(s.payments, WithRefundId(refundId));
      var row := NewRefund(s, source, refundId, amount, status, "webhook-" + refundId);
      if known.None? {
        ApplyRefundRows(AddPayment(s, row), booking, source);
        assert SameRow(row, o.state.payments[|s.payments|]);
      }
    }
  }

  lemma DispatchInsertsOne(s: State, w: Webhook)
    ensures InsertsOne(s, Dispatch(s, w).state, false)
  {
    match w
    case Captured(orderId, paymentId, _) => VerifyInserts(s, orderId, paymentId, true, None);
    case FailedPayment(_, _) =>
    case RefundChanged(refundId, sourceId, status, amount) =>
      RefundHookInsertsOne(s, refundId, sourceId, RefundStatus(status), amount);
    case OtherEvent(_) =>
  }

  lemma {:induction false} RowsKeptByRun(s: State, run: seq<Event>)
    requires Sound(s)
    ensures RowsKept(s, Run(s, run))
  {
    if |run| > 0 {
      RowsKeptByRun(s, run[..|run| - 1]);
      RunSound(s, run[..|run| - 1]);
      RowsKeptByStep(Run(s, run[..|run| - 1]), run[|run| - 1]);
    }
  }

  // ----- the refund budget -----

  /** Refunds of a payment that are not FAILED, added up. */
  ghost function Outstanding(s: State, payment: nat): int { Sum(s.payments, OpenRefundOf(payment)) }

  /** What a step adds to a payment's refunds behind the allocator's back: a revived or a foreign refund. */
  ghost function Unbudgeted(s: State, e: Event, payment: nat): nat
    requires Sound(s)
  {
    match e
    case Pay(ReconcileRefund(refund, answer)) =>
      if Step(s, e).Committed() then Revived(s, refund, RefundStatus(answer.value), payment) else 0
    case Pay(Deliver(RefundChanged(refundId, sourceId, status, amount))) =>
      if !Step(s, e).Committed() then 0 else
      var known := Latest(s.payments, WithRefundId(refundId));
      if known.Some? then Revived(s, known.value, RefundStatus(status), payment)
      else
        var ours := Latest(s.payments, WithPaymentId(sourceId)) == Some(payment);
        if ours && RefundStatus(status) != RecordStatus.Failed then amount else 0
    case _ => 0
  }

  ghost function Revived(s: State, refund: nat, status: RecordStatus, payment: nat): nat
    requires Sound(s) && refund < |s.payments|
  {
    var r := s.payments[refund];
    assert PaymentSound(s, r);
    if r.parent == Some(payment) && r.status.Failed? && !status.Failed? then r.amount else 0
  }

  ghost function UnbudgetedIn(s: State, run: seq<Event>, payment: nat): nat
    requires Sound(s)
  {
    if |run| == 0 then 0 else
    var front := run[..|run| - 1];
    RunSound(s, front);
    UnbudgetedIn(s, front, payment) + Unbudgeted(Run(s, front), run[|run| - 1], payment)
  }

  lemma ApplyRefundKeepsOutstanding(s: State, booking: nat, source: nat, payment: nat)
    requires Sound(s) && booking < |s.bookings| && source < |s.payments| && IsOrderOf(s.payments[source], booking)
    ensures Outstanding(ApplyRefund(s, booking, source), payment) == Outstanding(s, payment)
  {
    assert PaymentSound(s, s.payments[source]);
    SumUpdate(s.payments, source, s.payments[source].(status := RecordStatus.Refunded), OpenRefundOf(payment));
  }

  /** A refund row's change of status moves exactly its own amount, in or out. */
  lemma StatusChangeOutstanding(s: State, refund: nat, status: RecordStatus, booking: nat, source: nat, payment: nat)
    requires Sound(s) && refund < |s.payments| && s.payments[refund].kind.Refund? && !status.Created?
    requires !status.Refunded?
    requires booking < |s.bookings| && source < |s.payments| && IsOrderOf(s.payments[source], booking)
    ensures var r := s.payments[refund];
            Outstanding(ApplyRefund(SavePayment(s, refund, r.(status := status)), booking, source), payment)
            == Outstanding(s, payment) - OpenRefundOf(payment)(r) + OpenRefundOf(payment)(r.(status := status))
  {
    var r := s.payments[refund];
    assert PaymentSound(s, r);
    QuietUpdate(s.payments, refund, r.(status := status));
    SavePaymentSound(s, refund, r.(status := status));
    SumUpdate(s.payments, refund, r.(status := status), OpenRefundOf(payment));
    ApplyRefundKeepsOutstanding(SavePayment(s, refund, r.(status := status)), booking, source, payment);
  }

  lemma NewRefundOutstanding(s: State, source: nat, refundId: string, amount: int, status: RecordStatus, key: string,
                             payment: nat)
    requires Sound(s) && source < |s.payments| && amount >= 0 && !status.Created? && !status.Refunded?
    requires IsOrderOf(s.payments[source], s.payments[source].booking)
    requires CanInsert(s.payments, NewRefund(s, source, refundId, amount, status, key))
    ensures s.payments[source].booking < |s.bookings|
    ensures Outstanding(ApplyRefund(AddPayment(s, NewRefund(s, source, refundId, amount, status, key)),
                                    s.payments[source].booking, source), payment)
            == Outstanding(s, payment) + (if source == payment && !status.Failed? then amount else 0)
  {
    var row := NewRefund(s, source, refundId, amount, status, key);
    assert PaymentSound(s, s.payments[source]);
    AddPaymentSound(s, row);
    SumAppend(s.payments, row, OpenRefundOf(payment));
    ApplyRefundKeepsOutstanding(AddPayment(s, row), s.payments[source].booking, source, payment);
  }

  ghost predicate WithinBudget(s: State, payment: nat, extra: nat) {
    payment < |s.payments| ==> Outstanding(s, payment) <= s.payments[payment].amount + extra
  }

  lemma NothingOutstandingYet(s: State, payment: nat)
    requires Sound(s) && payment >= |s.payments|
    ensures Outstanding(s, payment) == 0
  {
    forall i | 0 <= i < |s.payments| ensures OpenRefundOf(payment)(s.payments[i]) == 0 {
      assert PaymentSound(s, s.payments[i]);
    }
    SumZero(s.payments, OpenRefundOf(payment));
  }

  /** A new refund within what is left keeps its payment's budget, and every other payment's. */
  lemma NewRefundWithinBudget(s: State, source: nat, refundId: string, amount: int, status: RecordStatus, key: string,
                              payment: nat, extra: nat)
    requires Sound(s) && source < |s.payments| && amount >= 0 && !status.Created? && !status.Refunded?
    requires IsOrderOf(s.payments[source], s.payments[source].booking)
    requires CanInsert(s.payments, NewRefund(s, source, refundId, amount, status, key))
    requires WithinBudget(s, payment, extra)
    ensures s.payments[source].booking < |s.bookings|
    ensures var s' := ApplyRefund(AddPayment(s, NewRefund(s, source, refundId, amount, status, key)),
                                  s.payments[source].booking, source);
            && WithinBudget(s', payment, extra + (if source == payment && !status.Failed? then amount else 0))
            && (source == payment && Outstanding(s, payment) + amount <= s.payments[payment].amount ==>
                WithinBudget(s', payment, extra))
  {
    assert PaymentSound(s, s.payments[source]);
    NewRefundOutstanding(s, source, refundId, amount, status, key, payment);
    ApplyRefundRows(AddPayment(s, NewRefund(s, source, refundId, amount, status, key)), s.payments[source].booking,
                    source);
    if payment >= |s.payments| {
      NothingOutstandingYet(s, payment);
    }
  }

  /** A request that reached the provider found room in the budget and left the payments with one refund more. */
  lemma SentRefund(s: State, id: nat, amount: int, key: string, provider: Option<ProviderRefund>)
    requires var o := CreateRefund(s, id, amount, key, provider); o.reply.RefundReply? && o.reply.sent
    ensures id < |s.payments| && provider.Some? && s.payments[id].booking < |s.bookings| && !s.payments[id].kind.Refund?
    ensures s.payments[id].paymentId.Some? && 0 < amount && Outstanding(s, id) + amount <= s.payments[id].amount
    ensures var row := NewRefund(s, id, provider.value.id, amount, RefundStatus(provider.value.status), key);
            && CanInsert(s.payments, row)
            && CreateRefund(s, id, amount, key, provider).state.payments
               == ApplyRefund(AddPayment(s, row), s.payments[id].booking, id).payments
  {
  }

  lemma RequestWithinBudget(s: State, id: nat, amount: int, key: string, provider: Option<ProviderRefund>, payment: nat,
                            extra: nat)
    requires Sound(s) && WithinBudget(s, payment, extra)
    ensures WithinBudget(CreateRefund(s, id, amount, key, provider).state, payment, extra)
  {
    var o := CreateRefund(s, id, amount, key, provider);
    if o.reply.RefundReply? && o.reply.sent {
      SentRefund(s, id, amount, key, provider);
      assert PaymentSound(s, s.payments[id]);
      NewRefundWithinBudget(s, id, provider.value.id, amount, RefundStatus(provider.value.status), key, payment, extra);
    }
  }

  lemma ReconcileWithinBudget(s: State, id: nat, answer: Option<string>, payment: nat, extra: nat)
    requires Sound(s) && WithinBudget(s, payment, extra)
    ensures var o := Reconcile(s, id, answer);
            var revived := if o.Committed() then Revived(s, id, RefundStatus(answer.value), payment) else 0;
            WithinBudget(o.state, payment, extra + revived)
  {
    var o := Reconcile(s, id, answer);
    if o.Committed() {
      var r := s.payments[id];
      assert PaymentSound(s, r);
      KnownRefundWithinBudget(s, id, RefundStatus(answer.value), r.booking, r.parent.value, payment, extra);
    }
  }

  lemma KnownRefundWithinBudget(s: State, refund: nat, status: RecordStatus, booking: nat, source: nat, payment: nat,
                                extra: nat)
    requires Sound(s) && refund < |s.payments| && s.payments[refund].kind.Refund? && !status.Created?
    requires !status.Refunded?
    requires booking < |s.bookings| && source < |s.payments| && IsOrderOf(s.payments[source], booking)
    requires WithinBudget(s, payment, extra)
    ensures WithinBudget(ApplyRefund(SavePayment(s, refund, s.payments[refund].(status := status)), booking, source),
                         payment, extra + Revived(s, refund, status, payment))
  {
    assert PaymentSound(s, s.payments[refund]);
    StatusRows(s, refund, status, booking, source);
    ApplyRefundRows(SavePayment(s, refund, s.payments[refund].(status := status)), booking, source);
    StatusChangeOutstanding(s, refund, status, booking, source, payment);
  }

  lemma NewHookWithinBudget(s: State, source: nat, refundId: string, status: RecordStatus, amount: nat, payment: nat,
                            extra: nat)
    requires Sound(s) && source < |s.payments| && !status.Created? && !status.Refunded?
    requires s.payments[source].paymentId.Some? && WithinBudget(s, payment, extra)
    requires CanInsert(s.payments, NewRefund(s, source, refundId, amount, status, "webhook-" + refundId))
    ensures s.payments[source].booking < |s.bookings|
    ensures var row := NewRefund(s, source, refundId, amount, status, "webhook-" + refundId);
            var s' := ApplyRefund(AddPayment(s, row), s.payments[source].booking, source);
            WithinBudget(s', payment, extra + (if source == payment && !status.Failed? then amount else 0))
  {
    assert PaymentSound(s, s.payments[source]);
    NewRefundWithinBudget(s, source, refundId, amount, status, "webhook-" + refundId, payment, extra);
  }

  lemma KnownHookWithinBudget(s: State, known: nat, source: nat, status: RecordStatus, payment: nat, extra: nat)
    requires Sound(s) && known < |s.payments| && source < |s.payments| && !status.Created? && !status.Refunded?
    requires s.payments[known].refundId.Some? && s.payments[source].paymentId.Some? && WithinBudget(s, payment, extra)
    ensures s.payments[source].booking < |s.bookings|
    ensures var s1 := SavePayment(s, known, s.payments[known].(status := status));
            WithinBudget(ApplyRefund(s1, s.payments[source].booking, source), payment,
                         extra + Revived(s, known, status, payment))
  {
    assert PaymentSound(s, s.payments[source]) && PaymentSound(s, s.payments[known]);
    KnownRefundWithinBudget(s, known, status, s.payments[source].booking, source, payment, extra);
  }

  lemma RefundHookWithinBudget(s: State, e: Event, payment: nat, extra: nat)
    requires Sound(s) && e.Pay? && e.pay.Deliver? && e.pay.webhook.RefundChanged? && WithinBudget(s, payment, extra)
    ensures WithinBudget(Next(s, e), payment, extra + Unbudgeted(s, e, payment))
  {
    var w := e.pay.webhook;
    if Step(s, e).Committed() {
      var source := Latest(s.payments, WithPaymentId(w.sourcePaymentId)).value;
      var known := Latest(s.payments, WithRefundId(w.refundId));
      if known.Some? {
        KnownHookWithinBudget(s, known.value, source, RefundStatus(w.status), payment, extra);
      } else {
        NewHookWithinBudget(s, source, w.refundId, RefundStatus(w.status), w.refundAmount, payment, extra);
      }
    }
  }

  lemma PlainRowsOutstanding(s: State, s': State, payment: nat)
    requires PlainRows(s, s')
    ensures Outstanding(s', payment) == Outstanding(s, payment)
  {
    var w := OpenRefundOf(payment);
    var kept := s'.payments[..|s.payments|];
    forall i | 0 <= i < |kept| ensures w(s.payments[i]) == w(kept[i]) {
      assert SameRow(s.payments[i], s'.payments[i]);
    }
    SumSame(s.payments, kept, w);
    if |s'.payments| > |s.payments| {
      assert s'.payments == kept + [s'.payments[|s.payments|]];
      SumAppend(kept, s'.payments[|s.payments|], w);
    } else {
      assert kept == s'.payments;
    }
  }

  /** A step without refunds leaves every payment's refunds as they were. */
  lemma RefundlessOutstanding(s: State, e: Event, payment: nat)
    requires Sound(s) && Refundless(e)
    ensures Outstanding(Next(s, e), payment) == Outstanding(s, payment)
  {
    RefundlessRows(s, e);
    PlainRowsOutstanding(s, Next(s, e), payment);
  }

  lemma StepWithinBudget(s: State, e: Event, payment: nat, extra: nat)
    requires Sound(s) && WithinBudget(s, payment, extra)
    ensures WithinBudget(Next(s, e), payment, extra + Unbudgeted(s, e, payment))
  {
    if e.Pay? && e.pay.RequestRefund? {
      RequestWithinBudget(s, e.pay.payment, e.pay.amount, e.pay.key, e.pay.provider, payment, extra);
    } else if e.Pay? && e.pay.ReconcileRefund? {
      ReconcileWithinBudget(s, e.pay.refund, e.pay.answer, payment, extra);
    } else if e.Pay? && e.pay.Deliver? && e.pay.webhook.RefundChanged? {
      RefundHookWithinBudget(s, e, payment, extra);
    } else {
      RefundlessOutstanding(s, e, payment);
      RowsKeptByStep(s, e);
      StepSound(s, e);
      if payment >= |s.payments| {
        NothingOutstandingYet(s, payment);
        if payment < |Next(s, e).payments| {
          assert PaymentSound(Next(s, e), Next(s, e).payments[payment]);
        }
      }
    }
  }

  /**
   * In every run the refunds of a payment that are not FAILED add up to at most its amount plus what
   * webhooks and reconciliation brought in on their own. Where they bring in nothing, the payment is the limit.
   */
  lemma {:induction false} RefundsWithinBudget(run: seq<Event>, payment: nat)
    ensures Sound(EmptyLedger())
    ensures WithinBudget(Run(EmptyLedger(), run), payment, UnbudgetedIn(EmptyLedger(), run, payment))
  {
    if |run| > 0 {
      var front := run[..|run| - 1];
      RefundsWithinBudget(front, payment);
      RunSound(EmptyLedger(), front);
      StepWithinBudget(Run(EmptyLedger(), front), run[|run| - 1], payment, UnbudgetedIn(EmptyLedger(), front, payment));
    }
  }

  /** Where a step brings refunds in on its own, the outstanding sum grows by exactly that. */
  lemma UnbudgetedIsExact(s: State, e: Event, payment: nat)
    requires Sound(s) && Unbudgeted(s, e, payment) > 0
    ensures payment < |s.payments|
    ensures Outstanding(Next(s, e), payment) == Outstanding(s, payment) + Unbudgeted(s, e, payment)
  {
    match e
    case Pay(ReconcileRefund(refund, answer)) =>
      var r := s.payments[refund];
      assert PaymentSound(s, r);
      StatusChangeOutstanding(s, refund, RefundStatus(answer.value), r.booking, r.parent.value, payment);
    case Pay(Deliver(RefundChanged(refundId, sourceId, status, amount))) =>
      HookUnbudgetedIsExact(s, refundId, sourceId, status, amount, payment);
  }

  lemma KnownHookIsExact(s: State, known: nat, source: nat, status: RecordStatus, payment: nat)
    requires Sound(s) && known < |s.payments| && source < |s.payments| && !status.Created? && !status.Refunded?
    requires s.payments[known].refundId.Some? && s.payments[source].paymentId.Some?
    requires Revived(s, known, status, payment) > 0
    ensures payment < |s.payments| && s.payments[source].booking < |s.bookings|
    ensures var s1 := SavePayment(s, known, s.payments[known].(status := status));
            Outstanding(ApplyRefund(s1, s.payments[source].booking, source), payment)
            == Outstanding(s, payment) + Revived(s, known, status, payment)
  {
    assert PaymentSound(s, s.payments[source]) && PaymentSound(s, s.payments[known]);
    StatusChangeOutstanding(s, known, status, s.payments[source].booking, source, payment);
  }

  lemma NewHookIsExact(s: State, refundId: string, status: RecordStatus, amount: nat, payment: nat)
    requires Sound(s) && payment < |s.payments| && !status.Created? && !status.Refunded? && !status.Failed?
    requires s.payments[payment].paymentId.Some?
    requires CanInsert(s.payments, NewRefund(s, payment, refundId, amount, status, "webhook-" + refundId))
    ensures s.payments[payment].booking < |s.bookings|
    ensures var row := NewRefund(s, payment, refundId, amount, status, "webhook-" + refundId);
            Outstanding(ApplyRefund(AddPayment(s, row), s.payments[payment].booking, payment), payment)
            == Outstanding(s, payment) + amount
  {
    assert PaymentSound(s, s.payments[payment]);
    NewRefundOutstanding(s, payment, refundId, amount, status, "webhook-" + refundId, payment);
  }

  lemma HookUnbudgetedIsExact(s: State, refundId: string, sourceId: string, status: string, amount: nat, payment: nat)
    requires Sound(s)
    requires Unbudgeted(s, Pay(Deliver(RefundChanged(refundId, sourceId, status, amount))), payment) > 0
    ensures payment < |s.payments|
    ensures Outstanding(RefundWebhook(s, refundId, sourceId, RefundStatus(status), amount).state, payment)
            == Outstanding(s, payment)
               + Unbudgeted(s, Pay(Deliver(RefundChanged(refundId, sourceId, status, amount))), payment)
  {
    var source := Latest(s.payments, WithPaymentId(sourceId)).value;
    var known := Latest(s.payments, WithRefundId(refundId));
    if known.Some? {
      KnownHookIsExact(s, known.value, source, RefundStatus(status), payment);
    } else {
      NewHookIsExact(s, refundId, RefundStatus(status), amount, payment);
    }
  }

  /**
   * For every step: a payment's refunds stay within its amount exactly when what the step brings in on its own still
   * fits: a FAILED refund revived by reconciliation or by a webhook, or a refund that only the webhook knows.
   */
  lemma StepFitsIff(s: State, e: Event, payment: nat)
    requires Sound(s) && payment < |s.payments| && WithinBudget(s, payment, 0)
    ensures WithinBudget(Next(s, e), payment, 0)
            <==> Unbudgeted(s, e, payment) <= s.payments[payment].amount - Outstanding(s, payment)
  {
    StepWithinBudget(s, e, payment, 0);
    RowsKeptByStep(s, e);
    assert SameRow(s.payments[payment], Next(s, e).payments[payment]);
    if Unbudgeted(s, e, payment) > 0 {
      UnbudgetedIsExact(s, e, payment);
    }
  }

  /** Reconciling a FAILED refund as not failed keeps the budget exactly when its amount still fits. */
  lemma RevivalFitsIff(s: State, refund: nat, answer: string, payment: nat)
    requires Sound(s) && payment < |s.payments| && FailedRefundOf(s, refund, payment)
    requires s.payments[refund].refundId != Some("") && RefundStatus(answer) != RecordStatus.Failed
    ensures WithinBudget(Reconcile(s, refund, Some(answer)).state, payment, 0)
            <==> s.payments[refund].amount <= s.payments[payment].amount - Outstanding(s, payment)
  {
    var r := s.payments[refund];
    assert PaymentSound(s, r);
    RevivalIsExact(s, refund, RefundStatus(answer), r.booking, payment, payment);
  }

  ghost predicate FailedRefundOf(s: State, refund: nat, payment: nat) {
    && refund < |s.payments| && s.payments[refund].kind.Refund?
    && s.payments[refund].status.Failed? && s.payments[refund].parent == Some(payment)
  }

  /** Settling whichever payment, a revived refund adds its whole amount to what its own payment has outstanding. */
  lemma RevivalIsExact(s: State, refund: nat, status: RecordStatus, booking: nat, source: nat, payment: nat)
    requires Sound(s) && payment < |s.payments| && FailedRefundOf(s, refund, payment)
    requires !status.Created? && !status.Refunded? && !status.Failed?
    requires booking < |s.bookings| && source < |s.payments| && IsOrderOf(s.payments[source], booking)
    ensures var s' := ApplyRefund(SavePayment(s, refund, s.payments[refund].(status := status)), booking, source);
            && (WithinBudget(s', payment, 0)
                <==> s.payments[refund].amount <= s.payments[payment].amount - Outstanding(s, payment))
  {
    var s' := ApplyRefund(SavePayment(s, refund, s.payments[refund].(status := status)), booking, source);
    StatusRows(s, refund, status, booking, source);
    assert SameRow(s.payments[payment], s'.payments[payment]);
    StatusChangeOutstanding(s, refund, status, booking, source, payment);
  }

  /** So does a webhook that reports it as not failed, whichever payment it names beside it. */
  lemma HookRevivalFitsIff(s: State, refund: nat, refundId: string, sourceId: string, status: string, amount: nat,
                           payment: nat)
    requires Sound(s) && payment < |s.payments| && FailedRefundOf(s, refund, payment)
    requires refundId != "" && sourceId != "" && RefundStatus(status) != RecordStatus.Failed
    requires Latest(s.payments, WithRefundId(refundId)) == Some(refund)
    requires Latest(s.payments, WithPaymentId(sourceId)).Some?
    ensures WithinBudget(RefundWebhook(s, refundId, sourceId, RefundStatus(status), amount).state, payment, 0)
            <==> s.payments[refund].amount <= s.payments[payment].amount - Outstanding(s, payment)
  {
    var source := Latest(s.payments, WithPaymentId(sourceId)).value;
    assert PaymentSound(s, s.payments[source]);
    RevivalIsExact(s, refund, RefundStatus(status), s.payments[source].booking, source, payment);
  }

  /** And a webhook about a refund unknown here, exactly when the webhook's amount still fits. */
  lemma ForeignRefundFitsIff(s: State, refundId: string, sourceId: string, status: string, amount: nat, payment: nat)
    requires Sound(s) && payment < |s.payments|
    requires refundId != "" && sourceId != "" && RefundStatus(status) != RecordStatus.Failed
    requires Latest(s.payments, WithRefundId(refundId)).None?
    requires Latest(s.payments, WithPaymentId(sourceId)) == Some(payment)
    requires CanInsert(s.payments, NewRefund(s, payment, refundId, amount, RefundStatus(status), "webhook-" + refundId))
    ensures WithinBudget(RefundWebhook(s, refundId, sourceId, RefundStatus(status), amount).state, payment, 0)
            <==> amount <= s.payments[payment].amount - Outstanding(s, payment)
  {
    assert PaymentSound(s, s.payments[payment]);
    var row := NewRefund(s, payment, refundId, amount, RefundStatus(status), "webhook-" + refundId);
    NewRefundOutstanding(s, payment, refundId, amount, RefundStatus(status), "webhook-" + refundId, payment);
    ApplyRefundRows(AddPayment(s, row), s.payments[payment].booking, payment);
    assert SameRow(s.payments[payment],
                   ApplyRefund(AddPayment(s, row), s.payments[payment].booking, payment).payments[payment]);
  }

  // ----- one refund row per booking and key -----

  /** Whatever happens in between, a second request with the same key answers with the first refund and sends none. */
  lemma RefundReplay(s: State, payment: nat, amount: int, key: string, provider: Option<ProviderRefund>,
                     run: seq<Event>, again: nat, amount': int, provider': Option<ProviderRefund>)
    requires Sound(s) && key != ""
    requires CreateRefund(s, payment, amount, key, provider).reply.RefundReply?
    requires again < |Run(CreateRefund(s, payment, amount, key, provider).state, run).payments|
    requires Run(CreateRefund(s, payment, amount, key, provider).state, run).payments[again].booking
            == s.payments[payment].booking
    ensures var first := CreateRefund(s, payment, amount, key, provider);
            var later := Run(first.state, run);
            var second := CreateRefund(later, again, amount', key, provider');
            second.state == later && (second.reply.Rejected? || second.reply == RefundReply(first.reply.refund, false))
  {
    var first := CreateRefund(s, payment, amount, key, provider);
    CreateRefundSound(s, payment, amount, key, provider);
    RefundHasItsKey(s, payment, amount, key, provider);
    RunSound(first.state, run);
    RowsKeptByRun(first.state, run);
    var later := Run(first.state, run);
    assert SameRow(first.state.payments[first.reply.refund], later.payments[first.reply.refund]);
    KeyedRefundIsFound(later, again, amount', key, provider', first.reply.refund);
  }

  /** A refund row that carries the key is the answer to every request with it. */
  lemma KeyedRefundIsFound(s: State, payment: nat, amount: int, key: string, provider: Option<ProviderRefund>, r: nat)
    requires Sound(s) && key != "" && r < |s.payments| && payment < |s.payments|
    requires RefundKeyed(s.payments[payment].booking, key)(s.payments[r])
    ensures var o := CreateRefund(s, payment, amount, key, provider);
            o.state == s && (o.reply.Rejected? || o.reply == RefundReply(r, false))
  {
    var found := Latest(s.payments, RefundKeyed(s.payments[payment].booking, key));
    assert found.Some?;
    if found.value > r {
      assert Clash(s.payments[r], s.payments[found.value]);
    }
  }

  // ----- the refund state of a booking -----

  /** `_apply_refund_state` twice is `_apply_refund_state` once. */
  lemma ApplyRefundIdempotent(s: State, booking: nat, source: nat)
    requires booking < |s.bookings| && source < |s.payments| && s.payments[source].parent.None?
    ensures var once := ApplyRefund(s, booking, source); ApplyRefund(once, booking, source) == once
  {
    var once := ApplyRefund(s, booking, source);
    var b := s.bookings[booking];
    SumUpdate(s.payments, source, s.payments[source].(status := RecordStatus.Refunded), SettledRefundOf(source));
    if Sum(s.payments, SettledRefundOf(source)) >= s.payments[source].amount {
      assert once.payments[source := once.payments[source].(status := RecordStatus.Refunded)] == once.payments;
      assert once.bookings[booking := once.bookings[booking]] == once.bookings;
    } else {
      assert once.payments == s.payments;
      assert once.bookings[booking := once.bookings[booking]] == once.bookings;
    }
  }

  /** The source payment a committed refund step works on, with its refund rows already in place. */
  ghost predicate SettlesBy(s': State, source: nat) {
    && source < |s'.payments| && s'.payments[source].booking < |s'.bookings|
    && var p, b := s'.payments[source], s'.bookings[s'.payments[source].booking];
       && (Sum(s'.payments, SettledRefundOf(source)) >= p.amount ==>
           p.status.Refunded? && b.status.Refunded? && b.payment.Refunded?)
       && (Sum(s'.payments, SettledRefundOf(source)) < p.amount ==>
             if HasWaitingRefund(s'.payments, source) then b.status.RefundPending? else !b.status.RefundPending?)
  }

  lemma ApplyRefundSettles(s: State, booking: nat, source: nat)
    requires booking < |s.bookings| && source < |s.payments| && s.payments[source].booking == booking
    requires s.payments[source].parent.None?
    ensures SettlesBy(ApplyRefund(s, booking, source), source)
  {
    var p' := s.payments[source].(status := RecordStatus.Refunded);
    SumUpdate(s.payments, source, p', SettledRefundOf(source));
    var s' := ApplyRefund(s, booking, source);
    if HasWaitingRefund(s'.payments, source) {
      var r :| 0 <= r < |s'.payments| && WaitsFor(s'.payments[r], source);
      assert WaitsFor(s.payments[r], source);
    }
    if HasWaitingRefund(s.payments, source) {
      var r :| 0 <= r < |s.payments| && WaitsFor(s.payments[r], source);
      assert WaitsFor(s'.payments[r], source);
    }
  }

  /** After a new refund, a reconciliation or a refund webhook, the source and its booking tell the refunds' state. */
  lemma RefundStepsSettle(s: State)
    requires Sound(s)
    ensures forall payment: nat, amount: int, key: string, provider: Option<ProviderRefund> ::
              var o := CreateRefund(s, payment, amount, key, provider);
              o.reply.RefundReply? && o.reply.sent ==> SettlesBy(o.state, payment)
    ensures forall refund: nat, answer: Option<string> ::
              var o := Reconcile(s, refund, answer);
              o.Committed() ==> s.payments[refund].parent.Some? && SettlesBy(o.state, s.payments[refund].parent.value)
    ensures forall refundId: string, sourceId: string, status: RecordStatus, amount: nat ::
              var o := RefundWebhook(s, refundId, sourceId, status, amount);
              o.Committed() ==> Latest(s.payments, WithPaymentId(sourceId)).Some?
                                && SettlesBy(o.state, Latest(s.payments, WithPaymentId(sourceId)).value)
  {
    forall payment: nat, amount: int, key: string, provider: Option<ProviderRefund>
      | var o := CreateRefund(s, payment, amount, key, provider); o.reply.RefundReply? && o.reply.sent
      ensures SettlesBy(CreateRefund(s, payment, amount, key, provider).state, payment)
    {
      CreateRefundSettles(s, payment, amount, key, provider);
    }
    forall refund: nat, answer: Option<string> | Reconcile(s, refund, answer).Committed()
      ensures s.payments[refund].parent.Some?
      ensures SettlesBy(Reconcile(s, refund, answer).state, s.payments[refund].parent.value)
    {
      assert PaymentSound(s, s.payments[refund]);
      ApplyRefundSettles(SavePayment(s, refund, s.payments[refund].(status := RefundStatus(answer.value))),
                         s.payments[refund].booking, s.payments[refund].parent.value);
    }
    forall refundId: string, sourceId: string, status: RecordStatus, amount: nat
      | RefundWebhook(s, refundId, sourceId, status, amount).Committed()
      ensures Latest(s.payments, WithPaymentId(sourceId)).Some?
      ensures SettlesBy(RefundWebhook(s, refundId, sourceId, status, amount).state,
                        Latest(s.payments, WithPaymentId(sourceId)).value)
    {
      RefundWebhookSettles(s, refundId, sourceId, status, amount);
    }
  }

  lemma CreateRefundSettles(s: State, payment: nat, amount: int, key: string, provider: Option<ProviderRefund>)
    requires Sound(s)
    requires var o := CreateRefund(s, payment, amount, key, provider); o.reply.RefundReply? && o.reply.sent
    ensures SettlesBy(CreateRefund(s, payment, amount, key, provider).state, payment)
  {
    assert PaymentSound(s, s.payments[payment]);
    var row := NewRefund(s, payment, provider.value.id, amount, RefundStatus(provider.value.status), key);
    ApplyRefundSettles(AddPayment(s, row), s.payments[payment].booking, payment);
  }

  lemma RefundWebhookSettles(s: State, refundId: string, sourceId: string, status: RecordStatus, amount: nat)
    requires Sound(s) && RefundWebhook(s, refundId, sourceId, status, amount).Committed()
    ensures Latest(s.payments, WithPaymentId(sourceId)).Some?
    ensures SettlesBy(RefundWebhook(s, refundId, sourceId, status, amount).state,
                      Latest(s.payments, WithPaymentId(sourceId)).value)
  {
    var source := Latest(s.payments, WithPaymentId(sourceId)).value;
    assert PaymentSound(s, s.payments[source]);
    var known := Latest(s.payments, WithRefundId(refundId));
    if known.Some? {
      assert PaymentSound(s, s.payments[known.value]);
      ApplyRefundSettles(SavePayment(s, known.value, s.payments[known.value].(status := status)),
                         s.payments[source].booking, source);
    } else {
      ApplyRefundSettles(AddPayment(s, NewRefund(s, source, refundId, amount, status, "webhook-" + refundId)),
                         s.payments[source].booking, source);
    }
  }
}
