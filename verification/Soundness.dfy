/** What every step of the machine keeps: references, constraints, row shapes, priced orders. */
module Soundness {
  import opened Tables
  import opened Catalogue
  import opened Model
  import opened Payments
  import opened Scheduling
  import opened Bookings
  import opened Technicians
  import opened Operations
  import opened Machine

  /** The deposit lies between nothing and the total. */
  ghost predicate Priced(b: Booking) { 0 <= b.advanceRequired <= b.total }

  /** A booking still awaiting payment is priced, and every booking sits on the date of its slot. */
  ghost predicate BookingSound(s: State, b: Booking) {
    && b.slot < |s.slots|
    && b.serviceDate == s.slots[b.slot].date
    && (b.status in {PendingPayment, PaymentFailed} ==> Priced(b))
  }

  /** Which references each kind of payment row carries; a gateway order costs exactly its booking's deposit. */
  ghost predicate PaymentSound(s: State, p: Payment) {
    && p.booking < |s.bookings| && p.amount >= 0
    && match p.kind
       case BookingAdvance =>
         && p.parent.None? && p.refundId.None?
         && (if p.orderId.Some? then
               p.amount == s.bookings[p.booking].advanceRequired && Priced(s.bookings[p.booking])
             else p.status.Success? && p.paymentId.None?)
       case Balance =>
         p.orderId.None? && p.paymentId.None? && p.refundId.None? && p.parent.None? && p.status.Success?
       case Refund =>
         && p.orderId.None? && p.paymentId.None? && p.refundId.Some?
         && p.parent.Some? && p.parent.value < |s.payments|
         && IsOrderOf(s.payments[p.parent.value], p.booking)
         && !p.status.Created? && !p.status.Refunded?
  }

  ghost predicate IsOrderOf(p: Payment, booking: nat) {
    p.kind.BookingAdvance? && p.orderId.Some? && p.booking == booking
  }

  ghost predicate ServicesClean(s: State) { forall k :: 0 <= k < |s.services| ==> s.services[k].Clean() }

  ghost predicate SlotsValid(s: State) { forall k :: 0 <= k < |s.slots| ==> ValidSlot(s.slots[k]) }

  ghost predicate BookingsSound(s: State) { forall i :: 0 <= i < |s.bookings| ==> BookingSound(s, s.bookings[i]) }

  ghost predicate PaymentsSound(s: State) { forall i :: 0 <= i < |s.payments| ==> PaymentSound(s, s.payments[i]) }

  ghost predicate Sound(s: State) {
    ServicesClean(s) && SlotsValid(s) && BookingsSound(s) && PaymentsSound(s) && NoClash(s.payments)
  }

  lemma InsertKeepsNoClash(payments: seq<Payment>, p: Payment)
    requires NoClash(payments) && CanInsert(payments, p)
    ensures NoClash(payments + [p])
  {
  }

  lemma UpdateKeepsNoClash(payments: seq<Payment>, i: nat, p: Payment)
    requires NoClash(payments) && i < |payments| && CanUpdate(payments, i, p)
    ensures NoClash(payments[i := p])
  {
    var after := payments[i := p];
    forall a, b | 0 <= a < b < |after| ensures !Clash(after[a], after[b]) {
      assert Clash(p, payments[b]) == Clash(payments[b], p);
    }
  }

  /** A row that keeps its references and does not become an active advance cannot collide. */
  lemma QuietUpdate(payments: seq<Payment>, i: nat, p: Payment)
    requires NoClash(payments) && i < |payments|
    requires p == payments[i].(status := p.status)
    requires ActiveAdvance(p) ==> ActiveAdvance(payments[i])
    ensures NoClash(payments[i := p])
  {
    forall j | 0 <= j < |payments| && j != i ensures !Clash(payments[j], p) {
      assert !Clash(payments[j], payments[i]) by {
        if j < i {} else { assert !Clash(payments[i], payments[j]); }
      }
    }
    UpdateKeepsNoClash(payments, i, p);
  }

  /** Fields of a booking that no payment row depends on may change freely. */
  lemma SaveBookingSound(s: State, i: nat, b: Booking)
    requires Sound(s) && i < |s.bookings| && BookingSound(s, b)
    requires b.advanceRequired == s.bookings[i].advanceRequired && b.total == s.bookings[i].total
    ensures Sound(SaveBooking(s, i, b))
  {
    var s' := SaveBooking(s, i, b);
    forall k | 0 <= k < |s'.payments| ensures PaymentSound(s', s'.payments[k]) {
      assert PaymentSound(s, s.payments[k]);
    }
  }

  lemma AddPaymentSound(s: State, p: Payment)
    requires Sound(s) && CanInsert(s.payments, p) && PaymentSound(s, p)
    ensures Sound(AddPayment(s, p))
  {
    var s' := AddPayment(s, p);
    InsertKeepsNoClash(s.payments, p);
    forall k | 0 <= k < |s'.payments| ensures PaymentSound(s', s'.payments[k]) {
      if k < |s.payments| { assert PaymentSound(s, s.payments[k]); }
    }
  }

  lemma SavePaymentSound(s: State, i: nat, p: Payment)
    requires Sound(s) && i < |s.payments| && NoClash(s.payments[i := p]) && PaymentSound(s, p)
    requires p.kind == s.payments[i].kind && p.orderId == s.payments[i].orderId && p.booking == s.payments[i].booking
    ensures Sound(SavePayment(s, i, p))
  {
    var s' := SavePayment(s, i, p);
    forall k | 0 <= k < |s'.payments| ensures PaymentSound(s', s'.payments[k]) {
      assert PaymentSound(s, s.payments[k]);
    }
  }

  lemma ConfirmSound(s: State, booking: nat, amount: int)
    requires Sound(s) && booking < |s.bookings|
    ensures Sound(Confirm(s, booking, amount))
  {
    var b := s.bookings[booking];
    var b' := Confirm(s, booking, amount).bookings[booking];
    assert BookingSound(s, b);
    SaveBookingSound(s, booking, b');
  }

  lemma MarkFailedSound(s: State, payment: nat, paymentId: string)
    requires Sound(s) && payment < |s.payments| && IsOrderOf(s.payments[payment], s.payments[payment].booking)
    requires s.payments[payment].booking < |s.bookings|
    ensures Sound(MarkFailed(s, payment, paymentId).state)
  {
    var o := MarkFailed(s, payment, paymentId);
    if o.Committed() {
      var p := s.payments[payment];
      var p' := FailedRow(p, paymentId);
      UpdateKeepsNoClash(s.payments, payment, p');
      assert PaymentSound(s, p);
      SavePaymentSound(s, payment, p');
      var s1 := SavePayment(s, payment, p');
      var b := s.bookings[p.booking];
      assert BookingSound(s, b);
      if b.status in {PendingPayment, PaymentFailed} {
        SaveBookingSound(s1, p.booking, b.(status := PaymentFailed, payment := PaymentState.Failed));
      }
    }
  }

  lemma VerifySound(s: State, orderId: string, paymentId: string, signatureOk: bool, user: Option<nat>)
    requires Sound(s)
    ensures Sound(Verify(s, orderId, paymentId, signatureOk, user).state)
  {
    var found := OrderRow(s, orderId);
    if found.Some? {
      var p := s.payments[found.value];
      assert PaymentSound(s, p);
      MarkFailedSound(s, found.value, paymentId);
      var paid := PaidRow(p, paymentId);
      if CanUpdate(s.payments, found.value, paid) {
        UpdateKeepsNoClash(s.payments, found.value, paid);
        SavePaymentSound(s, found.value, paid);
        ConfirmSound(SavePayment(s, found.value, paid), p.booking, paid.amount);
      }
    }
  }

  lemma ApplyRefundSound(s: State, booking: nat, source: nat)
    requires Sound(s) && booking < |s.bookings| && source < |s.payments| && IsOrderOf(s.payments[source], booking)
    ensures Sound(ApplyRefund(s, booking, source))
  {
    var b := s.bookings[booking];
    var p := s.payments[source];
    var p' := p.(status := RecordStatus.Refunded);
    assert BookingSound(s, b) && PaymentSound(s, p);
    QuietUpdate(s.payments, source, p');
    SavePaymentSound(s, source, p');
    var s1 := SavePayment(s, source, p');
    SaveBookingSound(s1, booking, b.(payment := PaymentState.Refunded, status := BookingStatus.Refunded));
    SaveBookingSound(s, booking, b.(status := RefundPending));
    SaveBookingSound(s, booking, b.(status := if b.cancelled then Cancelled else Confirmed));
  }

  /** A refund row's new status, then the effect on its booking. */
  lemma RefundStatusSound(s: State, refund: nat, status: RecordStatus, booking: nat, source: nat)
    requires Sound(s) && refund < |s.payments| && s.payments[refund].kind.Refund?
    requires !status.Created? && !status.Refunded?
    requires booking < |s.bookings| && source < |s.payments| && IsOrderOf(s.payments[source], booking)
    ensures source != refund
    ensures Sound(ApplyRefund(SavePayment(s, refund, s.payments[refund].(status := status)), booking, source))
  {
    var r := s.payments[refund];
    assert PaymentSound(s, r);
    QuietUpdate(s.payments, refund, r.(status := status));
    SavePaymentSound(s, refund, r.(status := status));
    ApplyRefundSound(SavePayment(s, refund, r.(status := status)), booking, source);
  }

  lemma NewRefundSound(s: State, source: nat, refundId: string, amount: int, status: RecordStatus, key: string)
    requires Sound(s) && source < |s.payments|
    requires IsOrderOf(s.payments[source], s.payments[source].booking) && !status.Created? && !status.Refunded?
    requires amount >= 0
    requires CanInsert(s.payments, NewRefund(s, source, refundId, amount, status, key))
    ensures s.payments[source].booking < |s.bookings|
    ensures Sound(ApplyRefund(AddPayment(s, NewRefund(s, source, refundId, amount, status, key)),
                              s.payments[source].booking, source))
  {
    var row := NewRefund(s, source, refundId, amount, status, key);
    assert PaymentSound(s, s.payments[source]);
    AddPaymentSound(s, row);
    ApplyRefundSound(AddPayment(s, row), s.payments[source].booking, source);
  }

  lemma CreateRefundSound(s: State, payment: nat, amount: int, key: string, provider: Option<ProviderRefund>)
    requires Sound(s)
    ensures Sound(CreateRefund(s, payment, amount, key, provider).state)
  {
    var o := CreateRefund(s, payment, amount, key, provider);
    if o.reply.RefundReply? && o.reply.sent {
      assert PaymentSound(s, s.payments[payment]);
      NewRefundSound(s, payment, provider.value.id, amount, RefundStatus(provider.value.status), key);
    }
  }

  lemma KnownHookSound(s: State, known: nat, source: nat, status: RecordStatus)
    requires Sound(s) && known < |s.payments| && source < |s.payments| && !status.Created? && !status.Refunded?
    requires s.payments[known].refundId.Some? && s.payments[source].paymentId.Some?
    ensures s.payments[source].booking < |s.bookings|
    ensures var s1 := SavePayment(s, known, s.payments[known].(status := status));
            Sound(ApplyRefund(s1, s.payments[source].booking, source))
  {
    assert PaymentSound(s, s.payments[source]) && PaymentSound(s, s.payments[known]);
    RefundStatusSound(s, known, status, s.payments[source].booking, source);
  }

  lemma NewHookSound(s: State, source: nat, refundId: string, status: RecordStatus, amount: nat)
    requires Sound(s) && source < |s.payments| && !status.Created? && !status.Refunded?
    requires s.payments[source].paymentId.Some?
    requires CanInsert(s.payments, NewRefund(s, source, refundId, amount, status, "webhook-" + refundId))
    ensures s.payments[source].booking < |s.bookings|
    ensures var row := NewRefund(s, source, refundId, amount, status, "webhook-" + refundId);
            Sound(ApplyRefund(AddPayment(s, row), s.payments[source].booking, source))
  {
    assert PaymentSound(s, s.payments[source]);
    NewRefundSound(s, source, refundId, amount, status, "webhook-" + refundId);
  }

  lemma SoundUpToNotices(s: State, s': State)
    requires Sound(s) && s' == s.(notices := s'.notices)
    ensures Sound(s')
  {
    forall i | 0 <= i < |s'.bookings| ensures BookingSound(s', s'.bookings[i]) {
      assert BookingSound(s, s.bookings[i]);
    }
    forall i | 0 <= i < |s'.payments| ensures PaymentSound(s', s'.payments[i]) {
      assert PaymentSound(s, s.payments[i]);
    }
  }

  lemma RefundWebhookSound(s: State, refundId: string, sourcePaymentId: string, status: RecordStatus, amount: nat)
    requires Sound(s) && !status.Created? && !status.Refunded?
    ensures Sound(RefundWebhook(s, refundId, sourcePaymentId, status, amount).state)
  {
    var o := RefundWebhook(s, refundId, sourcePaymentId, status, amount);
    if o.Committed() {
      var source := Latest(s.payments, WithPaymentId(sourcePaymentId)).value;
      var known := Latest(s.payments, WithRefundId(refundId));
      var booking := s.payments[source].booking;
      if known.Some? {
        KnownHookSound(s, known.value, source, status);
        var s1 := SavePayment(s, known.value, s.payments[known.value].(status := status));
        SoundUpToNotices(ApplyRefund(s1, booking, source), o.state);
      } else {
        NewHookSound(s, source, refundId, status, amount);
        var row := NewRefund(s, source, refundId, amount, status, "webhook-" + refundId);
        SoundUpToNotices(ApplyRefund(AddPayment(s, row), booking, source), o.state);
      }
    }
  }

  lemma FailedWebhookSound(s: State, orderId: string, paymentId: string)
    requires Sound(s)
    ensures Sound(Dispatch(s, FailedPayment(orderId, paymentId)).state)
  {
    var found := OrderRow(s, orderId);
    if found.Some? {
      assert PaymentSound(s, s.payments[found.value]);
      MarkFailedSound(s, found.value, paymentId);
    }
  }

  lemma DispatchSound(s: State, w: Webhook)
    requires Sound(s)
    ensures Sound(Dispatch(s, w).state)
  {
    match w
    case Captured(orderId, paymentId, _) => VerifySound(s, orderId, paymentId, true, None);
    case FailedPayment(orderId, paymentId) => FailedWebhookSound(s, orderId, paymentId);
    case RefundChanged(refundId, sourcePaymentId, status, refundAmount) =>
      RefundWebhookSound(s, refundId, sourcePaymentId, RefundStatus(status), refundAmount);
    case OtherEvent(_) =>
  }

  lemma PaySound(s: State, e: PaymentEvent)
    requires Sound(s)
    ensures Sound(StepPay(s, e).state)
  {
    match e
    case OrderAdvance(booking, user, key, gateway) =>
      if booking < |s.bookings| && gateway.Some? {
        var row := NewOrder(s.bookings[booking], booking, key, gateway.value);
        if CreateOrder(s, booking, user, key, gateway).state != s {
          assert BookingSound(s, s.bookings[booking]);
          AddPaymentSound(s, row);
        }
      }
    case VerifyPayment(orderId, paymentId, signatureOk, verifier) =>
      VerifySound(s, orderId, paymentId, signatureOk, verifier);
    case Deliver(webhook) => DispatchSound(s, webhook);
    case RequestRefund(payment, amount, key, provider) => CreateRefundSound(s, payment, amount, key, provider);
    case ReconcileRefund(refund, answer) =>
      if Reconcile(s, refund, answer).Committed() {
        assert PaymentSound(s, s.payments[refund]);
        RefundStatusSound(s, refund, RefundStatus(answer.value), s.payments[refund].booking,
                          s.payments[refund].parent.value);
      }
  }

  lemma AddBookingSound(s: State, b: Booking)
    requires Sound(s) && BookingSound(s, b)
    ensures Sound(s.(bookings := s.bookings + [b]))
  {
    var s' := s.(bookings := s.bookings + [b]);
    forall k | 0 <= k < |s'.payments| ensures PaymentSound(s', s'.payments[k]) {
      assert PaymentSound(s, s.payments[k]);
    }
  }

  lemma CreateBookingSound(s: State, customer: nat, service: nat, slot: nat, quantity: nat, site: Site)
    requires Sound(s)
    ensures Sound(CreateBooking(s, customer, service, slot, quantity, site).state)
  {
    if CreateBooking(s, customer, service, slot, quantity, site).Committed() {
      var price := SnapshotPrice(s.services[service], quantity).value;
      DepositWithinTotal(s.services[service], quantity);
      AddBookingSound(s, NewBooking(customer, service, site.postalCode, slot, s.slots[slot].date, quantity, price));
    }
  }

  lemma CollectBalanceSound(s: State, i: nat, amount: int, key: string)
    requires Sound(s)
    ensures Sound(CollectBalance(s, i, amount, key).state)
  {
    if CollectBalance(s, i, amount, key).Committed() {
      assert BookingSound(s, s.bookings[i]);
      AddPaymentSound(s, BalanceRow(i, amount, key));
      SaveBookingSound(AddPayment(s, BalanceRow(i, amount, key)), i,
                       CollectBalance(s, i, amount, key).state.bookings[i]);
    }
  }

  /** Every other change of an existing booking saves one row, sound if it was, and adds at most a notice. */
  lemma LifeChangesOneRow(s: State, e: LifeEvent)
    requires !e.Book? && !e.RecordBalance? && StepLife(s, e).Committed()
    ensures var s' := StepLife(s, e).state;
            && e.booking < |s.bookings| && e.booking < |s'.bookings|
            && s' == s.(bookings := s.bookings[e.booking := s'.bookings[e.booking]], notices := s'.notices)
            && s'.bookings[e.booking].advanceRequired == s.bookings[e.booking].advanceRequired
            && s'.bookings[e.booking].total == s.bookings[e.booking].total
            && (BookingSound(s, s.bookings[e.booking]) ==> BookingSound(s, s'.bookings[e.booking]))
  {
  }

  lemma LifeSound(s: State, e: LifeEvent)
    requires Sound(s)
    ensures Sound(StepLife(s, e).state)
  {
    if e.Book? {
      CreateBookingSound(s, e.customer, e.service, e.slot, e.quantity, e.site);
    } else if e.RecordBalance? {
      CollectBalanceSound(s, e.booking, e.amount, e.key);
    } else if StepLife(s, e).Committed() {
      assert BookingSound(s, s.bookings[e.booking]);
      LifeChangesOneRow(s, e);
      SaveBookingSound(s, e.booking, StepLife(s, e).state.bookings[e.booking]);
    }
  }

  lemma EditSlotSound(s: State, slot: nat, edit: SlotEdit)
    requires Sound(s)
    ensures Sound(EditSlot(s, slot, edit).state)
  {
    var s' := EditSlot(s, slot, edit).state;
    forall i | 0 <= i < |s'.bookings| ensures BookingSound(s', s'.bookings[i]) {
      assert BookingSound(s, s.bookings[i]);
    }
    forall k | 0 <= k < |s'.payments| ensures PaymentSound(s', s'.payments[k]) {
      assert PaymentSound(s, s.payments[k]);
    }
  }

  lemma ConvertNewSound(s: State, customer: nat, service: nat, slot: nat, site: Site, quote: Option<int>,
                        leadAdvance: Option<int>)
    requires Sound(s)
    ensures Sound(ConvertNew(s, customer, service, slot, site, quote, leadAdvance).state)
  {
    var o := ConvertNew(s, customer, service, slot, site, quote, leadAdvance);
    if o.Committed() {
      AddBookingSound(s, o.state.bookings[|s.bookings|]);
      assert o.state == s.(bookings := s.bookings + [o.state.bookings[|s.bookings|]]);
    }
  }

  /** A step that saves one booking row and nothing else. */
  lemma OneRowSound(s: State, s': State, i: nat)
    requires Sound(s) && i < |s.bookings| && |s'.bookings| == |s.bookings|
    requires s' == SaveBooking(s, i, s'.bookings[i]).(notices := s'.notices)
    requires BookingSound(s, s'.bookings[i])
    requires s'.bookings[i].advanceRequired == s.bookings[i].advanceRequired
    requires s'.bookings[i].total == s.bookings[i].total
    ensures Sound(s')
  {
    SaveBookingSound(s, i, s'.bookings[i]);
  }

  lemma AssignSound(s: State, i: nat, technician: nat)
    requires Sound(s)
    ensures Sound(Assign(s, i, technician).state) && Sound(Remove(s, i).state) && Sound(ConvertExisting(s, i).state)
  {
    if i < |s.bookings| {
      assert BookingSound(s, s.bookings[i]);
      OneRowSound(s, Assign(s, i, technician).state, i);
      OneRowSound(s, Remove(s, i).state, i);
      OneRowSound(s, ConvertExisting(s, i).state, i);
    }
  }

  lemma ManualPaymentSound(s: State, i: nat, amount: int, key: string, linked: bool)
    requires Sound(s)
    ensures Sound(ManualPayment(s, i, amount, key, linked).state)
  {
    var s' := ManualPayment(s, i, amount, key, linked).state;
    if ManualPayment(s, i, amount, key, linked).Committed() {
      AddPaymentSound(s, ManualRow(i, amount, key));
      assert BookingSound(s, s.bookings[i]);
      OneRowSound(AddPayment(s, ManualRow(i, amount, key)), s', i);
    }
  }

  /** Steps on the catalogue, the technicians or a new slot leave bookings and payments alone. */
  lemma DirectorySound(s: State, s': State)
    requires Sound(s) && s'.bookings == s.bookings && s'.payments == s.payments
    requires ServicesClean(s') && SlotsValid(s') && s.slots <= s'.slots
    ensures Sound(s')
  {
    forall i | 0 <= i < |s'.bookings| ensures BookingSound(s', s'.bookings[i]) {
      assert BookingSound(s, s.bookings[i]);
    }
    forall k | 0 <= k < |s'.payments| ensures PaymentSound(s', s'.payments[k]) {
      assert PaymentSound(s, s.payments[k]);
    }
  }

  lemma DeskSound(s: State, e: DeskEvent)
    requires Sound(s)
    ensures Sound(StepDesk(s, e).state)
  {
    match e
    case ChangeSlot(slot, edit) => EditSlotSound(s, slot, edit);
    case ConvertLead(customer, service, slot, site, quote, leadAdvance) =>
      ConvertNewSound(s, customer, service, slot, site, quote, leadAdvance);
    case AssignTechnician(booking, technician) => AssignSound(s, booking, technician);
    case RemoveTechnician(booking) => AssignSound(s, booking, 0);
    case ConvertBooking(booking) => AssignSound(s, booking, 0);
    case RecordManualPayment(booking, amount, key, linked) => ManualPaymentSound(s, booking, amount, key, linked);
    case OpenSlot(row) => DirectorySound(s, AddSlot(s, row).state);
    case SaveService(service, values) => DirectorySound(s, PutService(s, service, values).state);
    case SaveTechnician(technician, profile) => DirectorySound(s, PutTechnician(s, technician, profile).state);
  }

  lemma StepSound(s: State, e: Event)
    requires Sound(s)
    ensures Sound(Next(s, e))
  {
    match e
    case Pay(pay) => PaySound(s, pay);
    case Live(life) => LifeSound(s, life);
    case Desk(desk) => DeskSound(s, desk);
  }

  /** Every reachable state is sound, whatever the run. */
  lemma {:induction false} RunSound(s: State, run: seq<Event>)
    requires Sound(s)
    ensures Sound(Run(s, run))
  {
    if |run| > 0 {
      RunSound(s, run[..|run| - 1]);
      StepSound(Run(s, run[..|run| - 1]), run[|run| - 1]);
    }
  }
}
