/** What the payment steps answer their callers and tell the customer, for every ledger and call. */
module PaymentEffects {
  import opened Tables
  import opened Model
  import opened Payments
  import opened Machine
  import opened Soundness
  import opened RefundProofs
  import opened OrderProofs

  // ----- answers to a verification -----

  /**
   * A committed verification answers with the order's row exactly when that row is SUCCESS afterwards, and with
   * VerificationFailed otherwise.
   */
  lemma VerifyAnswersWithPaidRow(s: State, orderId: string, paymentId: string, signatureOk: bool, user: Option<nat>)
    ensures var o, k := Verify(s, orderId, paymentId, signatureOk, user), OrderRow(s, orderId);
            o.Committed() ==>
              && k.Some? && |o.state.payments| == |s.payments|
              && o.state.payments[k.value].orderId == Some(orderId)
              && o.reply == if o.state.payments[k.value].status.Success? then PaymentReply(k.value)
                            else VerificationFailed
  {
    VerifyCases(s, orderId, paymentId, signatureOk, user);
  }

  /** So whoever is answered with a payment is answered with the paid one of that order. */
  lemma PaymentReplyIsPaid(s: State, orderId: string, paymentId: string, signatureOk: bool, user: Option<nat>)
    requires Verify(s, orderId, paymentId, signatureOk, user).reply.PaymentReply?
    ensures var o := Verify(s, orderId, paymentId, signatureOk, user);
            && o.reply.payment < |o.state.payments|
            && o.state.payments[o.reply.payment].orderId == Some(orderId)
            && o.state.payments[o.reply.payment].status.Success?
  {
    VerifyAnswersWithPaidRow(s, orderId, paymentId, signatureOk, user);
  }

  /** Every answer of a verification, in terms of the rows: who asks, what is paid, and which ids are taken. */
  lemma VerifyAnswer(s: State, orderId: string, paymentId: string, signatureOk: bool, user: Option<nat>)
    requires Sound(s)
    ensures var o, k := Verify(s, orderId, paymentId, signatureOk, user), OrderRow(s, orderId);
            o.reply ==
              if k.None? then Rejected(NotFound)
              else if !MayVerify(s, s.payments[k.value], user) then Rejected(WrongCustomer)
              else if s.payments[k.value].status.Success? then PaymentReply(k.value)
              else if signatureOk && IdUnused(s, k.value, paymentId) && NoOtherActive(s, k.value) then
                PaymentReply(k.value)
              else if !signatureOk && (paymentId == "" || IdUnused(s, k.value, paymentId)) then VerificationFailed
              else Rejected(IntegrityError)
  {
    var k := OrderRow(s, orderId);
    if k.Some? {
      assert PaymentSound(s, s.payments[k.value]);
      PaidRowFits(s, k.value, paymentId);
      FailedRowFits(s, k.value, paymentId);
    }
  }

  /** What a capture records: the row, the deposit on its booking, one entry and two notices unless it was CONFIRMED. */
  lemma CaptureEffect(s: State, k: nat, orderId: string, paymentId: string, user: Option<nat>)
    requires Sound(s) && OrderRow(s, orderId) == Some(k) && !s.payments[k].status.Success?
    requires Verify(s, orderId, paymentId, true, user).Committed()
    ensures var s', p := Verify(s, orderId, paymentId, true, user).state, s.payments[k];
            && p.booking < |s.bookings|
            && var b := s.bookings[p.booking];
               && s'.payments
                  == s.payments[k := p.(paymentId := Some(paymentId), signatureVerified := true, status := Success)]
               && s'.bookings
                  == s.bookings[p.booking := b.(
                       advancePaid := b.advanceRequired, balanceDue := b.total - b.advanceRequired,
                       payment := PartiallyPaid, status := Confirmed,
                       history := b.history + (if b.status.Confirmed? then [] else [Hop(Some(b.status), Confirmed)]))]
               && s' == s.(payments := s'.payments, bookings := s'.bookings, notices := s'.notices)
               && s'.notices
                  == s.notices + (if b.status.Confirmed? then []
                                  else [Notice(PaymentSuccessfulNotice, p.booking),
                                        Notice(BookingConfirmedNotice, p.booking)])
  {
    assert PaymentSound(s, s.payments[k]);
    var b := s.bookings[s.payments[k].booking];
    assert b.history + [] == b.history && s.notices + [] == s.notices;
  }

  /** What a failure records: the row, its booking if that still waits for payment, one notice unless it was FAILED. */
  lemma FailureEffect(s: State, k: nat, paymentId: string)
    requires k < |s.payments| && s.payments[k].booking < |s.bookings| && MarkFailed(s, k, paymentId).Committed()
    ensures var s', p := MarkFailed(s, k, paymentId).state, s.payments[k];
            var b := s.bookings[p.booking];
            && s'.payments
               == s.payments[k := p.(status := RecordStatus.Failed,
                                     paymentId := if paymentId == "" then p.paymentId else Some(paymentId))]
            && s'.bookings
               == s.bookings[p.booking :=
                    if b.status.PendingPayment? || b.status.PaymentFailed? then
                      b.(status := PaymentFailed, payment := PaymentState.Failed)
                    else b]
            && s' == s.(payments := s'.payments, bookings := s'.bookings, notices := s'.notices)
            && s'.notices == s.notices + (if p.status.Failed? then [] else [Notice(PaymentFailedNotice, p.booking)])
  {
    assert s.notices + [] == s.notices;
    assert s.bookings[s.payments[k].booking := s.bookings[s.payments[k].booking]] == s.bookings;
  }

  /** A bad signature and a failure webhook are such failures of the order's row. */
  lemma FailuresAreRecorded(s: State, k: nat, orderId: string, paymentId: string, user: Option<nat>)
    requires Sound(s) && OrderRow(s, orderId) == Some(k) && !s.payments[k].status.Success?
    ensures s.payments[k].booking < |s.bookings|
    ensures MayVerify(s, s.payments[k], user) ==>
              Verify(s, orderId, paymentId, false, user).state == MarkFailed(s, k, paymentId).state
    ensures orderId != "" ==> Dispatch(s, FailedPayment(orderId, paymentId)) == MarkFailed(s, k, paymentId)
  {
    assert PaymentSound(s, s.payments[k]);
  }

  /** Verifying a paid order again, whatever the signature, answers its owner with the row and changes nothing. */
  lemma PaidOrderAnswers(s: State, k: nat, orderId: string, paymentId: string, signatureOk: bool, user: Option<nat>)
    requires Sound(s) && k < |s.payments| && s.payments[k].orderId == Some(orderId) && s.payments[k].status.Success?
    requires MayVerify(s, s.payments[k], user)
    ensures Verify(s, orderId, paymentId, signatureOk, user) == Outcome(s, PaymentReply(k))
  {
    OrderRowIs(s, orderId, k);
    assert PaymentSound(s, s.payments[k]);
  }

  /**
   * What a delivered webhook answers: only an unknown event is ignored, a capture that commits leaves an order of its
   * amount paid, and a failure that commits leaves its order paid or failed.
   */
  lemma DispatchAnswer(s: State, w: Webhook)
    ensures var o := Dispatch(s, w);
            && (o.reply.Ignored? <==> w.OtherEvent?) && !o.reply.VerificationFailed?
            && (o.Committed() && w.Captured? ==>
                  && o.reply.PaymentReply? && o.reply.payment < |o.state.payments|
                  && o.state.payments[o.reply.payment].orderId == Some(w.orderId)
                  && o.state.payments[o.reply.payment].amount == w.amount
                  && o.state.payments[o.reply.payment].status.Success?)
            && (o.Committed() && w.FailedPayment? ==>
                  && OrderRow(s, w.orderId).Some? && |o.state.payments| == |s.payments|
                  && (o.state.payments[OrderRow(s, w.orderId).value].status in {Success, RecordStatus.Failed})
                  && (s.payments[OrderRow(s, w.orderId).value].status.Success? ==> o.state == s))
  {
    match w
    case Captured(orderId, paymentId, _) => CaptureAnswer(s, orderId, paymentId);
    case _ =>
  }

  lemma CaptureAnswer(s: State, orderId: string, paymentId: string)
    ensures var o, k := Verify(s, orderId, paymentId, true, None), OrderRow(s, orderId);
            && !o.reply.VerificationFailed? && !o.reply.Ignored?
            && (o.Committed() ==>
                  && k.Some? && o.reply == PaymentReply(k.value) && |o.state.payments| == |s.payments|
                  && o.state.payments[k.value].amount == s.payments[k.value].amount
                  && o.state.payments[k.value].orderId == Some(orderId) && o.state.payments[k.value].status.Success?)
  {
  }

  // ----- answers to an order -----

  /** The two ways an order can be there already: under the request's key, or as the booking's active advance. */
  ghost predicate KeyedOrder(s: State, k: nat, booking: nat, key: string) {
    k < |s.payments| && IsAdvanceOf(s.payments[k], booking) && s.payments[k].key == key
  }

  ghost predicate ActiveOrder(s: State, k: nat, booking: nat) {
    k < |s.payments| && s.payments[k].booking == booking && ActiveAdvance(s.payments[k])
  }

  ghost predicate MayOrder(s: State, booking: nat, user: nat) {
    && booking < |s.bookings| && s.bookings[booking].customer == user
    && s.bookings[booking].status in {PendingPayment, PaymentFailed}
  }

  /** A key that was used answers with its own order, unless that one failed; the state stays. */
  lemma KeyedOrderAnswers(s: State, booking: nat, user: nat, key: string, gateway: Option<string>, k: nat)
    requires Sound(s) && MayOrder(s, booking, user) && key != "" && KeyedOrder(s, k, booking, key)
    ensures CreateOrder(s, booking, user, key, gateway)
            == Outcome(s, if s.payments[k].status.Failed? then Rejected(KeyOfFailedAttempt) else PaymentReply(k))
  {
    assert AdvanceKeyed(booking, key)(s.payments[k]);
    forall j | 0 <= j < |s.payments| && j != k ensures !AdvanceKeyed(booking, key)(s.payments[j]) {
      NeighboursDoNotClash(s, k, j);
    }
    assert Latest(s.payments, AdvanceKeyed(booking, key)) == Some(k);
  }

  /** Under a new key a paid booking is refused, and an order under way is answered again; the state stays. */
  lemma ActiveOrderAnswers(s: State, booking: nat, user: nat, key: string, gateway: Option<string>, k: nat)
    requires Sound(s) && MayOrder(s, booking, user) && ActiveOrder(s, k, booking)
    requires forall j :: 0 <= j < |s.payments| ==> !KeyedOrder(s, j, booking, key)
    ensures CreateOrder(s, booking, user, key, gateway)
            == Outcome(s, if s.payments[k].status.Success? then Rejected(AlreadyProcessed) else PaymentReply(k))
  {
    var keyed := Latest(s.payments, AdvanceKeyed(booking, key));
    assert keyed.None? by {
      if keyed.Some? { assert KeyedOrder(s, keyed.value, booking, key); }
    }
    assert ActiveAdvanceOf(booking)(s.payments[k]);
    forall j | 0 <= j < |s.payments| && j != k ensures !ActiveAdvanceOf(booking)(s.payments[j]) {
      NeighboursDoNotClash(s, k, j);
    }
    assert Latest(s.payments, ActiveAdvanceOf(booking)) == Some(k);
    assert PaymentSound(s, s.payments[k]);
  }

  /** A new order costs the booking's deposit, waits to be paid, and is the one answered. */
  lemma NewOrderAnswers(s: State, booking: nat, user: nat, key: string, orderId: string)
    requires Sound(s) && MayOrder(s, booking, user)
    requires forall j :: 0 <= j < |s.payments| ==>
               !KeyedOrder(s, j, booking, key) && !ActiveOrder(s, j, booking) && s.payments[j].orderId != Some(orderId)
    ensures var o := CreateOrder(s, booking, user, key, Some(orderId));
            && o.reply == PaymentReply(|s.payments|) && |o.state.payments| == |s.payments| + 1
            && o.state == s.(payments := s.payments + [o.state.payments[|s.payments|]])
            && var p := o.state.payments[|s.payments|];
               && p.booking == booking && p.orderId == Some(orderId) && p.key == key && p.kind.BookingAdvance?
               && p.provider.Razorpay? && p.amount == s.bookings[booking].advanceRequired
               && p.status.Created? && !p.signatureVerified && p.paymentId.None? && p.refundId.None? && p.parent.None?
    ensures CreateOrder(s, booking, user, key, None) == Outcome(s, Rejected(ProviderFailed))
  {
    var keyed, found := Latest(s.payments, AdvanceKeyed(booking, key)), Latest(s.payments, ActiveAdvanceOf(booking));
    assert keyed.None? by {
      if keyed.Some? { assert KeyedOrder(s, keyed.value, booking, key); }
    }
    assert found.None? by {
      if found.Some? { assert ActiveOrder(s, found.value, booking); }
    }
    NewOrderFits(s, booking, key, orderId);
  }

  lemma NewOrderFits(s: State, booking: nat, key: string, orderId: string)
    requires Sound(s) && booking < |s.bookings|
    requires forall j :: 0 <= j < |s.payments| ==>
               !KeyedOrder(s, j, booking, key) && !ActiveOrder(s, j, booking) && s.payments[j].orderId != Some(orderId)
    ensures CanInsert(s.payments, NewOrder(s.bookings[booking], booking, key, orderId))
  {
    var row := NewOrder(s.bookings[booking], booking, key, orderId);
    forall j | 0 <= j < |s.payments| ensures !Clash(s.payments[j], row) {
      assert !KeyedOrder(s, j, booking, key) && !ActiveOrder(s, j, booking);
    }
  }

  // ----- answers to a refund request -----

  /** A key that was used on the booking answers with its own refund and asks the provider for nothing. */
  lemma KeyedRefundAnswers(s: State, payment: nat, amount: int, key: string, provider: Option<ProviderRefund>, k: nat)
    requires Sound(s) && Refundable(s, payment) && key != "" && k < |s.payments|
    requires s.payments[k].kind.Refund? && s.payments[k].booking == s.payments[payment].booking
    requires s.payments[k].key == key
    ensures CreateRefund(s, payment, amount, key, provider) == Outcome(s, RefundReply(k, false))
  {
    var booking := s.payments[payment].booking;
    assert RefundKeyed(booking, key)(s.payments[k]);
    forall j | 0 <= j < |s.payments| && j != k ensures !RefundKeyed(booking, key)(s.payments[j]) {
      NeighboursDoNotClash(s, k, j);
    }
    assert Latest(s.payments, RefundKeyed(booking, key)) == Some(k);
    assert PaymentSound(s, s.payments[payment]);
  }

  /** Only a paid or refunded payment with a gateway reference can be refunded. */
  ghost predicate Refundable(s: State, payment: nat) {
    && payment < |s.payments| && !s.payments[payment].kind.Refund?
    && (s.payments[payment].status.Success? || s.payments[payment].status.Refunded?)
    && s.payments[payment].paymentId.Some? && s.payments[payment].paymentId != Some("")
  }

  /** Under a new key the provider is asked exactly for a positive amount that is still outstanding, and recorded. */
  lemma NewRefundAnswers(s: State, payment: nat, amount: int, key: string, answer: ProviderRefund)
    requires Sound(s) && payment < |s.payments|
    requires forall j :: 0 <= j < |s.payments| ==> !RefundKeyed(s.payments[payment].booking, key)(s.payments[j])
    requires forall j :: 0 <= j < |s.payments| ==> s.payments[j].refundId != Some(answer.id)
    ensures var o := CreateRefund(s, payment, amount, key, Some(answer));
            && (o.Committed() <==>
                  Refundable(s, payment) && 0 < amount <= s.payments[payment].amount - Outstanding(s, payment))
            && (o.Committed() ==>
                  && o.reply == RefundReply(|s.payments|, true) && |o.state.payments| == |s.payments| + 1
                  && o.state.payments[|s.payments|]
                     == NewRefund(s, payment, answer.id, amount, RefundStatus(answer.status), key))
  {
    var booking := s.payments[payment].booking;
    assert PaymentSound(s, s.payments[payment]);
    assert Latest(s.payments, RefundKeyed(booking, key)).None?;
    var row := NewRefund(s, payment, answer.id, amount, RefundStatus(answer.status), key);
    forall j | 0 <= j < |s.payments| ensures !Clash(s.payments[j], row) {
      assert !RefundKeyed(booking, key)(s.payments[j]);
    }
  }

  /** Only two words of the gateway settle a refund either way; any other leaves it under way. */
  lemma RefundStatusReads(word: string)
    ensures RefundStatus(word).Success? <==> word == "processed"
    ensures RefundStatus(word).Failed? <==> word == "failed"
    ensures RefundStatus(word).Pending? <==> word != "processed" && word != "failed"
  {
  }

  // ----- refund notices -----

  ghost predicate SettledRow(p: Payment) { p.kind.Refund? && p.status.Success? }

  /** Refund rows that are SUCCESS after a step and were not before. */
  ghost function Settlements(before: seq<Payment>, after: seq<Payment>): nat
    requires |before| <= |after|
    decreases |after|
  {
    if |after| == 0 then 0 else
    var last := |after| - 1;
    Settlements(if |before| <= last then before else before[..last], after[..last])
    + (if SettledRow(after[last]) && !(last < |before| && SettledRow(before[last])) then 1 else 0)
  }

  function RefundWeight(): Payment -> int { (p: Payment) => if p.kind.Refund? then 1 else 0 }

  ghost function RefundsAdded(before: seq<Payment>, after: seq<Payment>): int
    requires |before| <= |after|
  {
    Sum(after[|before|..], RefundWeight())
  }

  function OfKind(kind: NoticeKind): Notice -> int { (n: Notice) => if n.kind == kind then 1 else 0 }

  ghost predicate AboutRefunds(n: Notice) { n.kind.RefundInitiatedNotice? || n.kind.RefundCompletedNotice? }

  /** The booking whose refunds the step settles. */
  ghost function SettledBooking(s: State, e: Event): Option<nat> {
    match e
    case Pay(RequestRefund(payment, _, _, _)) =>
      if payment < |s.payments| then Some(s.payments[payment].booking) else None
    case Pay(ReconcileRefund(refund, _)) => if refund < |s.payments| then Some(s.payments[refund].booking) else None
    case Pay(Deliver(RefundChanged(_, sourceId, _, _))) =>
      var source := Latest(s.payments, WithPaymentId(sourceId));
      if source.Some? then Some(s.payments[source.value].booking) else None
    case _ => None
  }

  /** The notices a step adds tell exactly its new refunds and its settled ones, all for the booking it settles. */
  ghost predicate Tells(s: State, s': State, booking: Option<nat>) {
    && |s.payments| <= |s'.payments| && s.notices <= s'.notices
    && var added := s'.notices[|s.notices|..];
       && Sum(added, OfKind(RefundCompletedNotice)) == Settlements(s.payments, s'.payments)
       && Sum(added, OfKind(RefundInitiatedNotice)) == RefundsAdded(s.payments, s'.payments)
       && forall k :: 0 <= k < |added| && AboutRefunds(added[k]) ==> booking == Some(added[k].booking)
  }

  /** Rows up to the old length that settle nothing new. */
  lemma {:induction false} NothingSettled(before: seq<Payment>, after: seq<Payment>)
    requires |before| <= |after|
    requires forall k :: 0 <= k < |after| && SettledRow(after[k]) ==> k < |before| && SettledRow(before[k])
    ensures Settlements(before, after) == 0
  {
    if |after| > 0 {
      var last := |after| - 1;
      NothingSettled(if |before| <= last then before else before[..last], after[..last]);
    }
  }

  /** Only row `i` may settle. */
  lemma {:induction false} OneSettled(before: seq<Payment>, after: seq<Payment>, i: nat)
    requires |before| <= |after| && i < |after|
    requires forall k :: 0 <= k < |after| && k != i && SettledRow(after[k]) ==> k < |before| && SettledRow(before[k])
    ensures Settlements(before, after)
            == if SettledRow(after[i]) && !(i < |before| && SettledRow(before[i])) then 1 else 0
  {
    var last := |after| - 1;
    if i == last {
      NothingSettled(if |before| <= last then before else before[..last], after[..last]);
    } else {
      OneSettled(if |before| <= last then before else before[..last], after[..last], i);
    }
  }

  lemma {:induction false} NoNoticeOf(added: seq<Notice>, kind: NoticeKind)
    requires forall k :: 0 <= k < |added| ==> added[k].kind != kind
    ensures Sum(added, OfKind(kind)) == 0
  {
    SumZero(added, OfKind(kind));
  }

  /** Settling leaves every refund row alone: its source is no refund. */
  lemma SettlingKeepsRefunds(s: State, booking: nat, source: nat)
    requires booking < |s.bookings| && source < |s.payments| && !s.payments[source].kind.Refund?
    ensures var s' := ApplyRefund(s, booking, source);
            && |s'.payments| == |s.payments| && s'.notices == s.notices
            && forall k :: 0 <= k < |s.payments| ==>
                 && s'.payments[k].kind == s.payments[k].kind
                 && (SettledRow(s'.payments[k]) <==> SettledRow(s.payments[k]))
  {
  }

  function Announce(settled: bool, created: bool, booking: nat): seq<Notice> {
    (if created then [Notice(RefundInitiatedNotice, booking)] else [])
    + (if settled then [Notice(RefundCompletedNotice, booking)] else [])
  }

  lemma AnnounceCounts(settled: bool, created: bool, booking: nat)
    ensures Sum(Announce(settled, created, booking), OfKind(RefundCompletedNotice)) == if settled then 1 else 0
    ensures Sum(Announce(settled, created, booking), OfKind(RefundInitiatedNotice)) == if created then 1 else 0
  {
    var first := if created then [Notice(RefundInitiatedNotice, booking)] else [];
    SumAppend([], Notice(RefundInitiatedNotice, booking), OfKind(RefundCompletedNotice));
    SumAppend([], Notice(RefundInitiatedNotice, booking), OfKind(RefundInitiatedNotice));
    SumAppend(first, Notice(RefundCompletedNotice, booking), OfKind(RefundCompletedNotice));
    SumAppend(first, Notice(RefundCompletedNotice, booking), OfKind(RefundInitiatedNotice));
    assert [] + [Notice(RefundInitiatedNotice, booking)] == [Notice(RefundInitiatedNotice, booking)];
    assert Sum<Notice>([], OfKind(RefundCompletedNotice)) == 0 && Sum<Notice>([], OfKind(RefundInitiatedNotice)) == 0;
  }

  lemma StatusSettles(s: State, refund: nat, status: RecordStatus, booking: nat, source: nat)
    requires refund < |s.payments| && s.payments[refund].kind.Refund?
    requires booking < |s.bookings| && source < |s.payments| && !s.payments[source].kind.Refund?
    ensures var s1 := SavePayment(s, refund, s.payments[refund].(status := status));
            var rows := ApplyRefund(s1, booking, source).payments;
            && |rows| == |s.payments|
            && Settlements(s.payments, rows) == if status.Success? && !s.payments[refund].status.Success? then 1 else 0
  {
    var s1 := SavePayment(s, refund, s.payments[refund].(status := status));
    SettlingKeepsRefunds(s1, booking, source);
    OneSettled(s.payments, ApplyRefund(s1, booking, source).payments, refund);
  }

  /** A refund row saved with a new status, its payment settled, and the completion announced if it is new. */
  lemma StatusTells(s: State, s': State, refund: nat, status: RecordStatus, booking: nat, source: nat)
    requires refund < |s.payments| && s.payments[refund].kind.Refund?
    requires booking < |s.bookings| && source < |s.payments| && !s.payments[source].kind.Refund?
    requires var s1 := SavePayment(s, refund, s.payments[refund].(status := status));
             s'.payments == ApplyRefund(s1, booking, source).payments
    requires s'.notices
             == s.notices + Announce(status.Success? && !s.payments[refund].status.Success?, false, booking)
    ensures Tells(s, s', Some(booking))
  {
    StatusSettles(s, refund, status, booking, source);
    SavedTells(s, s', status.Success? && !s.payments[refund].status.Success?, booking);
  }

  lemma SavedTells(s: State, s': State, settled: bool, booking: nat)
    requires |s'.payments| == |s.payments| && Settlements(s.payments, s'.payments) == if settled then 1 else 0
    requires s'.notices == s.notices + Announce(settled, false, booking)
    ensures Tells(s, s', Some(booking))
  {
    AnnounceCounts(settled, false, booking);
    assert s'.notices[|s.notices|..] == Announce(settled, false, booking);
    assert s'.payments[|s.payments|..] == [];
  }

  /** A refund row added, its payment settled, and both announced as they apply. */
  lemma AdditionTells(s: State, s': State, row: Payment, booking: nat, source: nat)
    requires row.kind.Refund? && booking < |s.bookings| && source < |s.payments| && !s.payments[source].kind.Refund?
    requires s'.payments == ApplyRefund(AddPayment(s, row), booking, source).payments
    requires s'.notices == s.notices + Announce(row.status.Success?, true, booking)
    ensures Tells(s, s', Some(booking))
  {
    SettlingKeepsRefunds(AddPayment(s, row), booking, source);
    OneSettled(s.payments, s'.payments, |s.payments|);
    AnnounceCounts(row.status.Success?, true, booking);
    assert s'.notices[|s.notices|..] == Announce(row.status.Success?, true, booking);
    var last := s'.payments[|s.payments|];
    assert s'.payments[|s.payments|..] == [last];
    SumAppend([], last, RefundWeight());
    assert [] + [last] == [last] && Sum<Payment>([], RefundWeight()) == 0;
  }

  lemma SameTells(s: State, booking: Option<nat>)
    ensures Tells(s, s, booking)
  {
    NothingSettled(s.payments, s.payments);
    assert s.notices[|s.notices|..] == [] && s.payments[|s.payments|..] == [];
  }

  lemma RequestTells(s: State, payment: nat, amount: int, key: string, provider: Option<ProviderRefund>)
    requires Sound(s)
    ensures Tells(s, CreateRefund(s, payment, amount, key, provider).state,
                  if payment < |s.payments| then Some(s.payments[payment].booking) else None)
  {
    var o := CreateRefund(s, payment, amount, key, provider);
    if o.reply.RefundReply? && o.reply.sent {
      var row := NewRefund(s, payment, provider.value.id, amount, RefundStatus(provider.value.status), key);
      SettlingKeepsRefunds(AddPayment(s, row), s.payments[payment].booking, payment);
      AdditionTells(s, o.state, row, s.payments[payment].booking, payment);
    } else {
      SameTells(s, if payment < |s.payments| then Some(s.payments[payment].booking) else None);
    }
  }

  lemma ReconcileTells(s: State, refund: nat, answer: Option<string>)
    requires Sound(s)
    ensures Tells(s, Reconcile(s, refund, answer).state,
                  if refund < |s.payments| then Some(s.payments[refund].booking) else None)
  {
    var o := Reconcile(s, refund, answer);
    if o.Committed() {
      var r := s.payments[refund];
      assert PaymentSound(s, r);
      SettlingKeepsRefunds(SavePayment(s, refund, r.(status := RefundStatus(answer.value))), r.booking, r.parent.value);
      StatusTells(s, o.state, refund, RefundStatus(answer.value), r.booking, r.parent.value);
    } else {
      SameTells(s, if refund < |s.payments| then Some(s.payments[refund].booking) else None);
    }
  }

  lemma KnownHookTells(s: State, s': State, known: nat, source: nat, status: RecordStatus)
    requires Sound(s) && known < |s.payments| && source < |s.payments|
    requires s.payments[known].refundId.Some? && s.payments[source].paymentId.Some?
    requires var booking := s.payments[source].booking;
             booking < |s.bookings|
    requires var booking := s.payments[source].booking;
             var s1 := SavePayment(s, known, s.payments[known].(status := status));
             && s'.payments == ApplyRefund(s1, booking, source).payments
             && s'.notices
                == s.notices + Announce(status.Success? && !s.payments[known].status.Success?, false, booking)
    ensures Tells(s, s', Some(s.payments[source].booking))
  {
    assert PaymentSound(s, s.payments[source]) && PaymentSound(s, s.payments[known]);
    StatusTells(s, s', known, status, s.payments[source].booking, source);
  }

  lemma NewHookTells(s: State, s': State, row: Payment, source: nat)
    requires Sound(s) && source < |s.payments| && s.payments[source].paymentId.Some? && row.kind.Refund?
    requires var booking := s.payments[source].booking;
             && booking < |s.bookings|
             && s'.payments == ApplyRefund(AddPayment(s, row), booking, source).payments
             && s'.notices == s.notices + Announce(row.status.Success?, true, booking)
    ensures Tells(s, s', Some(s.payments[source].booking))
  {
    assert PaymentSound(s, s.payments[source]);
    AdditionTells(s, s', row, s.payments[source].booking, source);
  }

  lemma SettlingKeepsNotices(s: State, booking: nat, source: nat)
    requires booking < |s.bookings| && source < |s.payments|
    ensures ApplyRefund(s, booking, source).notices == s.notices
  {
  }

  lemma HookTells(s: State, refundId: string, sourceId: string, status: RecordStatus, amount: nat)
    requires Sound(s)
    ensures var source := Latest(s.payments, WithPaymentId(sourceId));
            Tells(s, RefundWebhook(s, refundId, sourceId, status, amount).state,
                  if source.Some? then Some(s.payments[source.value].booking) else None)
  {
    var o := RefundWebhook(s, refundId, sourceId, status, amount);
    var source, known := Latest(s.payments, WithPaymentId(sourceId)), Latest(s.payments, WithRefundId(refundId));
    if !o.Committed() {
      SameTells(s, if source.Some? then Some(s.payments[source.value].booking) else None);
    } else if known.Some? {
      var s1 := SavePayment(s, known.value, s.payments[known.value].(status := status));
      SettlingKeepsNotices(s1, s.payments[source.value].booking, source.value);
      KnownHookTells(s, o.state, known.value, source.value, status);
    } else {
      var row := NewRefund(s, source.value, refundId, amount, status, "webhook-" + refundId);
      SettlingKeepsNotices(AddPayment(s, row), s.payments[source.value].booking, source.value);
      NewHookTells(s, o.state, row, source.value);
    }
  }

  /** A step that is not about refunds says nothing of them. */
  ghost predicate SilentOnRefunds(s: State, s': State) {
    && s.notices <= s'.notices
    && forall k :: |s.notices| <= k < |s'.notices| ==> !AboutRefunds(s'.notices[k])
  }

  lemma LifeIsSilent(s: State, e: LifeEvent)
    ensures SilentOnRefunds(s, StepLife(s, e).state)
  {
  }

  lemma DeskIsSilent(s: State, e: DeskEvent)
    ensures SilentOnRefunds(s, StepDesk(s, e).state)
  {
  }

  lemma VerifyIsSilent(s: State, orderId: string, paymentId: string, signatureOk: bool, user: Option<nat>)
    ensures SilentOnRefunds(s, Verify(s, orderId, paymentId, signatureOk, user).state)
  {
    VerifyCases(s, orderId, paymentId, signatureOk, user);
  }

  lemma HookIsSilent(s: State, w: Webhook)
    requires !w.RefundChanged?
    ensures SilentOnRefunds(s, Dispatch(s, w).state)
  {
    match w
    case Captured(orderId, paymentId, _) => VerifyIsSilent(s, orderId, paymentId, true, None);
    case _ =>
  }

  lemma PlainStepTells(s: State, s': State)
    requires PaymentsSound(s) && PaymentsSound(s') && PlainRows(s, s') && SilentOnRefunds(s, s')
    ensures Tells(s, s', None)
  {
    forall k | 0 <= k < |s'.payments| && SettledRow(s'.payments[k])
      ensures k < |s.payments| && SettledRow(s.payments[k])
    {
      assert PaymentSound(s', s'.payments[k]);
      if k < |s.payments| {
        assert SameRow(s.payments[k], s'.payments[k]) && PaymentSound(s, s.payments[k]);
      }
    }
    NothingSettled(s.payments, s'.payments);
    var added, rows := s'.notices[|s.notices|..], s'.payments[|s.payments|..];
    NoNoticeOf(added, RefundCompletedNotice);
    NoNoticeOf(added, RefundInitiatedNotice);
    forall k | 0 <= k < |rows| ensures RefundWeight()(rows[k]) == 0 {
      assert PaymentSound(s', s'.payments[|s.payments| + k]);
    }
    SumZero(rows, RefundWeight());
  }

  /**
   * For every step of the machine: it announces exactly one REFUND_COMPLETED for each refund that is SUCCESS after it
   * and was not before, exactly one REFUND_INITIATED for each refund it adds, all for the booking it settles.
   */
  lemma RefundsAreTold(s: State, e: Event)
    requires Sound(s)
    ensures Tells(s, Next(s, e), SettledBooking(s, e))
  {
    match e
    case Pay(RequestRefund(payment, amount, key, provider)) => RequestTells(s, payment, amount, key, provider);
    case Pay(ReconcileRefund(refund, answer)) => ReconcileTells(s, refund, answer);
    case Pay(Deliver(RefundChanged(refundId, sourceId, status, amount))) =>
      HookTells(s, refundId, sourceId, RefundStatus(status), amount);
    case _ =>
      RefundlessRows(s, e);
      StepSound(s, e);
      RefundlessIsSilent(s, e);
      PlainStepTells(s, Next(s, e));
  }

  lemma RefundlessIsSilent(s: State, e: Event)
    requires Refundless(e)
    ensures SilentOnRefunds(s, Next(s, e))
  {
    match e
    case Live(life) => LifeIsSilent(s, life);
    case Desk(desk) => DeskIsSilent(s, desk);
    case Pay(OrderAdvance(_, _, _, _)) =>
    case Pay(VerifyPayment(orderId, paymentId, signatureOk, user)) =>
      VerifyIsSilent(s, orderId, paymentId, signatureOk, user);
    case Pay(Deliver(w)) => HookIsSilent(s, w);
  }
}
