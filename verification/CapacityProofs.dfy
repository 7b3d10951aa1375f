/** Slot capacity over whole runs, and the steps that take a place without asking. */
module CapacityProofs {
  import opened Tables
  import opened Model
  import opened Payments
  import opened Scheduling
  import opened Bookings
  import opened Operations
  import opened Machine
  import opened Soundness
  import opened BookingRows

  /** Row by row, the bookings that take a place in the slot after a step and took none before. */
  ghost function Entries(before: seq<Booking>, after: seq<Booking>, slot: nat): nat
    requires |before| == |after|
  {
    if |before| == 0 then 0 else
    var last := |before| - 1;
    Entries(before[..last], after[..last], slot)
    + (if PlaceIn(slot)(after[last]) == 1 && PlaceIn(slot)(before[last]) == 0 then 1 else 0)
  }

  lemma {:induction false} EntriesBoundGrowth(before: seq<Booking>, after: seq<Booking>, slot: nat)
    requires |before| == |after|
    ensures Sum(after, PlaceIn(slot)) <= Sum(before, PlaceIn(slot)) + Entries(before, after, slot)
  {
    if |before| > 0 {
      EntriesBoundGrowth(before[..|before| - 1], after[..|before| - 1], slot);
    }
  }

  lemma {:induction false} NoEntries(before: seq<Booking>, after: seq<Booking>, slot: nat)
    requires |before| == |after|
    requires forall i :: 0 <= i < |before| ==> PlaceIn(slot)(after[i]) <= PlaceIn(slot)(before[i])
    ensures Entries(before, after, slot) == 0
  {
    if |before| > 0 {
      NoEntries(before[..|before| - 1], after[..|before| - 1], slot);
    }
  }

  /** Steps that change a status without locking the slot: payments, refunds and converting a booking. */
  ghost predicate Unguarded(e: Event) { e.Pay? || (e.Desk? && e.desk.ConvertBooking?) }

  /** Re-entries of one step into a slot. */
  ghost function Reentries(s: State, e: Event, slot: nat): nat
    requires Sound(s)
  {
    if !Unguarded(e) then 0 else
    UnguardedKeepsRows(s, e);
    Entries(s.bookings, Next(s, e).bookings, slot)
  }

  ghost function ReentriesIn(s: State, run: seq<Event>, slot: nat): nat
    requires Sound(s)
  {
    if |run| == 0 then 0 else
    var front := run[..|run| - 1];
    RunSound(s, front);
    ReentriesIn(s, front, slot) + Reentries(Run(s, front), run[|run| - 1], slot)
  }

  lemma UnguardedKeepsRows(s: State, e: Event)
    requires Sound(s) && Unguarded(e)
    ensures |Next(s, e).bookings| == |s.bookings| && Next(s, e).slots == s.slots
  {
    if e.Pay? {
      PayBookingRows(s, e.pay);
    }
  }

  /** An unguarded step re-enters only by these three routes. */
  ghost predicate ReentersBy(b: Booking, b': Booking) {
    && !Reserves(b.status) && b'.status.Confirmed? && b'.slot == b.slot
    && (Confirms(b, b') || (b.status.RefundPending? && !b.cancelled) || b' == Converted(b))
  }

  lemma ReentryRoutes(s: State, e: Event, i: nat, slot: nat)
    requires Sound(s) && Unguarded(e) && i < |s.bookings|
    ensures i < |Next(s, e).bookings|
    ensures PlaceIn(slot)(Next(s, e).bookings[i]) == 1 && PlaceIn(slot)(s.bookings[i]) == 0 ==>
              ReentersBy(s.bookings[i], Next(s, e).bookings[i])
  {
    if e.Pay? {
      PayBookingRows(s, e.pay);
      assert PayRowStep(s.bookings[i], Next(s, e).bookings[i]);
    }
  }

  /** Reserved places, measured against capacity plus an allowance; a slot not opened yet has no bookings. */
  ghost predicate Holds(s: State, slot: nat, extra: nat) {
    if slot < |s.slots| then Reserved(s, slot) <= s.slots[slot].capacity + extra else Reserved(s, slot) == 0
  }

  lemma NoBookingsYet(s: State, slot: nat)
    requires BookingsSound(s) && slot >= |s.slots|
    ensures Reserved(s, slot) == 0
  {
    forall i | 0 <= i < |s.bookings| ensures PlaceIn(slot)(s.bookings[i]) == 0 {
      assert BookingSound(s, s.bookings[i]);
    }
    SumZero(s.bookings, PlaceIn(slot));
  }

  /** One booking saved, in a step that lets it keep or leave its place. */
  lemma SavedRowHolds(s: State, i: nat, b: Booking, slot: nat)
    requires i < |s.bookings|
    ensures Reserved(SaveBooking(s, i, b), slot)
            == Reserved(s, slot) - PlaceIn(slot)(s.bookings[i]) + PlaceIn(slot)(b)
  {
    SumUpdate(s.bookings, i, b, PlaceIn(slot));
  }

  lemma BookHolds(s: State, customer: nat, service: nat, at: nat, quantity: nat, site: Site, slot: nat, extra: nat)
    requires Holds(s, slot, extra)
    ensures Holds(CreateBooking(s, customer, service, at, quantity, site).state, slot, extra)
  {
    var s' := CreateBooking(s, customer, service, at, quantity, site).state;
    if |s'.bookings| > |s.bookings| {
      SumAppend(s.bookings, s'.bookings[|s.bookings|], PlaceIn(slot));
    }
  }

  /** Only a reschedule takes a place, in a slot the guard found room in. */
  lemma LifeTakesNoPlace(s: State, e: LifeEvent, slot: nat)
    requires !e.Book? && StepLife(s, e).Committed() && OneRow(s, StepLife(s, e).state, e.booking)
    ensures PlaceIn(slot)(StepLife(s, e).state.bookings[e.booking]) <= PlaceIn(slot)(s.bookings[e.booking])
            || (slot < |s.slots| && AvailableCapacity(s, slot) > 0)
  {
  }

  lemma LifeHolds(s: State, e: LifeEvent, slot: nat, extra: nat)
    requires Sound(s) && Holds(s, slot, extra)
    ensures Holds(StepLife(s, e).state, slot, extra)
  {
    if e.Book? {
      BookHolds(s, e.customer, e.service, e.slot, e.quantity, e.site, slot, extra);
    } else if StepLife(s, e).Committed() {
      LifeSavesOneRow(s, e);
      LifeTakesNoPlace(s, e, slot);
      SavedPlaceHolds(s, StepLife(s, e).state, e.booking, slot, extra);
    }
  }

  lemma SavedPlaceHolds(s: State, s': State, i: nat, slot: nat, extra: nat)
    requires BookingsSound(s) && Holds(s, slot, extra) && OneRow(s, s', i) && s'.slots == s.slots
    requires PlaceIn(slot)(s'.bookings[i]) <= PlaceIn(slot)(s.bookings[i])
             || (slot < |s.slots| && AvailableCapacity(s, slot) > 0)
    ensures Holds(s', slot, extra)
  {
    SumUpdate(s.bookings, i, s'.bookings[i], PlaceIn(slot));
    if slot >= |s.slots| {
      SumNonNegative(s'.bookings, PlaceIn(slot));
    }
  }

  lemma ConvertLeadHolds(s: State, e: DeskEvent, slot: nat, extra: nat)
    requires Sound(s) && Holds(s, slot, extra) && e.ConvertLead?
    ensures Holds(StepDesk(s, e).state, slot, extra)
  {
    if StepDesk(s, e).Committed() {
      var s' := StepDesk(s, e).state;
      assert s'.bookings == s.bookings + [s'.bookings[|s.bookings|]];
      SumAppend(s.bookings, s'.bookings[|s.bookings|], PlaceIn(slot));
    }
  }

  lemma TechnicianStepHolds(s: State, e: DeskEvent, slot: nat, extra: nat)
    requires Holds(s, slot, extra) && (e.AssignTechnician? || e.RemoveTechnician? || e.RecordManualPayment?)
    ensures Holds(StepDesk(s, e).state, slot, extra)
  {
    if StepDesk(s, e).Committed() {
      SavedRowHolds(s, e.booking, StepDesk(s, e).state.bookings[e.booking], slot);
    }
  }

  lemma DeskHolds(s: State, e: DeskEvent, slot: nat, extra: nat)
    requires Sound(s) && Holds(s, slot, extra) && !e.ConvertBooking?
    ensures Holds(StepDesk(s, e).state, slot, extra)
  {
    if e.AssignTechnician? || e.RemoveTechnician? || e.RecordManualPayment? {
      TechnicianStepHolds(s, e, slot, extra);
    } else if e.ConvertLead? {
      ConvertLeadHolds(s, e, slot, extra);
    }
  }

  lemma StepHolds(s: State, e: Event, slot: nat, extra: nat)
    requires Sound(s) && Holds(s, slot, extra)
    ensures Holds(Next(s, e), slot, extra + Reentries(s, e, slot))
  {
    StepSound(s, e);
    if Unguarded(e) {
      UnguardedKeepsRows(s, e);
      if slot < |s.slots| {
        EntriesBoundGrowth(s.bookings, Next(s, e).bookings, slot);
      } else {
        NoBookingsYet(Next(s, e), slot);
      }
    } else {
      match e
      case Live(life) => LifeHolds(s, life, slot, extra);
      case Desk(desk) => DeskHolds(s, desk, slot, extra);
    }
  }

  /** In every run a slot holds at most its capacity plus the unguarded re-entries the run made into it. */
  lemma {:induction false} CapacityHolds(run: seq<Event>, slot: nat)
    ensures Sound(EmptyLedger())
    ensures Holds(Run(EmptyLedger(), run), slot, ReentriesIn(EmptyLedger(), run, slot))
  {
    if |run| > 0 {
      var front := run[..|run| - 1];
      CapacityHolds(front, slot);
      RunSound(EmptyLedger(), front);
      StepHolds(Run(EmptyLedger(), front), run[|run| - 1], slot, ReentriesIn(EmptyLedger(), front, slot));
    }
  }

  /** Without payment, refund and conversion steps that is the capacity itself, edits of it included. */
  lemma {:induction false} GuardedStepsNeverOverfill(s: State, run: seq<Event>, slot: nat)
    requires Sound(s) && Holds(s, slot, 0)
    requires forall k :: 0 <= k < |run| ==> !Unguarded(run[k])
    ensures Holds(Run(s, run), slot, 0)
  {
    if |run| > 0 {
      var front := run[..|run| - 1];
      GuardedStepsNeverOverfill(s, front, slot);
      RunSound(s, front);
      assert !Unguarded(run[|run| - 1]);
      StepHolds(Run(s, front), run[|run| - 1], slot, 0);
    }
  }

  // ----- exactly which steps overfill -----

  // The guards of the source's functions, as a caller could check them.

  /** `verify_razorpay_payment` with a good signature goes through. */
  ghost predicate MayPay(s: State, orderId: string, paymentId: string, user: Option<nat>) {
    var k := OrderRow(s, orderId);
    && k.Some? && s.payments[k.value].booking < |s.bookings|
    && var p := s.payments[k.value];
       && (user.Some? ==> s.bookings[p.booking].customer == user.value)
       && p.amount == s.bookings[p.booking].advanceRequired
       && (p.status.Success? || CanUpdate(s.payments, k.value, PaidRow(p, paymentId)))
  }

  ghost predicate MayCapture(s: State, orderId: string, paymentId: string, amount: int) {
    && orderId != "" && paymentId != "" && MayPay(s, orderId, paymentId, None)
    && s.payments[OrderRow(s, orderId).value].amount == amount
  }

  /** `create_refund` reaches the provider and records its answer. */
  ghost predicate MaySend(s: State, payment: nat, amount: int, key: string, provider: Option<ProviderRefund>) {
    && payment < |s.payments| && s.payments[payment].booking < |s.bookings|
    && !s.payments[payment].kind.Refund? && s.payments[payment].status in {Success, RecordStatus.Refunded}
    && s.payments[payment].paymentId !in {None, Some("")}
    && Latest(s.payments, RefundKeyed(s.payments[payment].booking, key)).None?
    && 0 < amount <= s.payments[payment].amount - Sum(s.payments, OpenRefundOf(payment))
    && provider.Some?
    && CanInsert(s.payments, NewRefund(s, payment, provider.value.id, amount, RefundStatus(provider.value.status), key))
  }

  /** `reconcile_refund` gets an answer for a refund whose references are complete. */
  ghost predicate MayReconcile(s: State, refund: nat, answer: Option<string>) {
    && refund < |s.payments| && s.payments[refund].kind.Refund? && s.payments[refund].booking < |s.bookings|
    && s.payments[refund].refundId !in {None, Some("")}
    && s.payments[refund].parent.Some? && s.payments[refund].parent.value < |s.payments|
    && answer.Some?
  }

  /** `_process_refund_webhook` finds the payment, and the refund or room for it. */
  ghost predicate MayReport(s: State, refundId: string, sourceId: string, status: RecordStatus, amount: nat) {
    var source := Latest(s.payments, WithPaymentId(sourceId));
    && refundId != "" && sourceId != ""
    && source.Some? && s.payments[source.value].booking < |s.bookings|
    && (Latest(s.payments, WithRefundId(refundId)).Some?
        || CanInsert(s.payments, NewRefund(s, source.value, refundId, amount, status, "webhook-" + refundId)))
  }

  /** The booking that a payment for this order brings back: the order is unpaid, the booking holds no place. */
  ghost function PaidEntry(s: State, orderId: string): Option<nat> {
    var k := OrderRow(s, orderId);
    if k.None? || s.payments[k.value].status.Success? || s.payments[k.value].booking >= |s.bookings| then None else
    var i := s.payments[k.value].booking;
    if Reserves(s.bookings[i].status) then None else Some(i)
  }

  /**
   * The booking that a settlement restores, given the payment rows it settles: it waits for a refund, was not
   * cancelled, the settled refunds do not cover the payment and none is waiting.
   */
  ghost function RestoredEntry(s: State, rows: seq<Payment>, booking: nat, source: nat): Option<nat> {
    if booking < |s.bookings| && source < |rows|
       && s.bookings[booking].status.RefundPending? && !s.bookings[booking].cancelled
       && Sum(rows, SettledRefundOf(source)) < rows[source].amount && !HasWaitingRefund(rows, source)
    then Some(booking) else None
  }

  ghost function RequestEntry(s: State, payment: nat, amount: int, key: string,
                              provider: Option<ProviderRefund>): Option<nat> {
    if !MaySend(s, payment, amount, key, provider) then None else
    var row := NewRefund(s, payment, provider.value.id, amount, RefundStatus(provider.value.status), key);
    RestoredEntry(s, s.payments + [row], s.payments[payment].booking, payment)
  }

  ghost function ReconcileEntry(s: State, refund: nat, answer: Option<string>): Option<nat> {
    if !MayReconcile(s, refund, answer) then None else
    var r := s.payments[refund];
    RestoredEntry(s, s.payments[refund := r.(status := RefundStatus(answer.value))], r.booking, r.parent.value)
  }

  ghost function HookEntry(s: State, refundId: string, sourceId: string, status: RecordStatus,
                           amount: nat): Option<nat> {
    if !MayReport(s, refundId, sourceId, status, amount) then None else
    var source := Latest(s.payments, WithPaymentId(sourceId)).value;
    var known := Latest(s.payments, WithRefundId(refundId));
    var rows :=
      if known.Some? then s.payments[known.value := s.payments[known.value].(status := status)]
      else s.payments + [NewRefund(s, source, refundId, amount, status, "webhook-" + refundId)];
    RestoredEntry(s, rows, s.payments[source].booking, source)
  }

  /** The booking, if any, that a step brings back into its slot without asking for a place. */
  ghost function Reentry(s: State, e: Event): Option<nat> {
    match e
    case Pay(VerifyPayment(orderId, paymentId, signatureOk, user)) =>
      if signatureOk && MayPay(s, orderId, paymentId, user) then PaidEntry(s, orderId) else None
    case Pay(Deliver(Captured(orderId, paymentId, amount))) =>
      if MayCapture(s, orderId, paymentId, amount) then PaidEntry(s, orderId) else None
    case Pay(Deliver(RefundChanged(refundId, sourceId, status, amount))) =>
      HookEntry(s, refundId, sourceId, RefundStatus(status), amount)
    case Pay(RequestRefund(payment, amount, key, provider)) => RequestEntry(s, payment, amount, key, provider)
    case Pay(ReconcileRefund(refund, answer)) => ReconcileEntry(s, refund, answer)
    case Desk(ConvertBooking(i)) => if i < |s.bookings| && !Reserves(s.bookings[i].status) then Some(i) else None
    case _ => None
  }

  /** Exactly this booking, or none, takes a place it did not hold; no other row takes one. */
  ghost predicate EntersAs(s: State, s': State, entry: Option<nat>) {
    && s'.slots == s.slots && |s'.bookings| == |s.bookings|
    && match entry
       case Some(i) =>
         && OneRow(s, s', i) && s'.bookings[i].slot == s.bookings[i].slot
         && !Reserves(s.bookings[i].status) && Reserves(s'.bookings[i].status)
       case None =>
         forall k :: 0 <= k < |s.bookings| && Reserves(s'.bookings[k].status) ==>
           Reserves(s.bookings[k].status) && s'.bookings[k].slot == s.bookings[k].slot
  }

  lemma ConfirmEnters(s: State, i: nat, amount: int)
    requires i < |s.bookings|
    ensures EntersAs(s, Confirm(s, i, amount), if Reserves(s.bookings[i].status) then None else Some(i))
  {
  }

  lemma MarkFailedEnters(s: State, payment: nat, paymentId: string)
    requires payment < |s.payments| && s.payments[payment].booking < |s.bookings|
    ensures EntersAs(s, MarkFailed(s, payment, paymentId).state, None)
  {
  }

  lemma VerifyEnters(s: State, orderId: string, paymentId: string, signatureOk: bool, user: Option<nat>)
    ensures var o := Verify(s, orderId, paymentId, signatureOk, user);
            var entry := if signatureOk && MayPay(s, orderId, paymentId, user) then PaidEntry(s, orderId) else None;
            EntersAs(s, o.state, entry)
  {
    var found := OrderRow(s, orderId);
    if found.Some? && s.payments[found.value].booking < |s.bookings| {
      var p := s.payments[found.value];
      MarkFailedEnters(s, found.value, paymentId);
      ConfirmEnters(SavePayment(s, found.value, PaidRow(p, paymentId)), p.booking, p.amount);
    }
  }

  lemma FailedHookEnters(s: State, orderId: string, paymentId: string)
    ensures EntersAs(s, Dispatch(s, FailedPayment(orderId, paymentId)).state, None)
  {
    var found := OrderRow(s, orderId);
    if found.Some? && s.payments[found.value].booking < |s.bookings| {
      MarkFailedEnters(s, found.value, paymentId);
    }
  }

  lemma ApplyRefundEnters(s: State, rows: seq<Payment>, booking: nat, source: nat)
    requires booking < |s.bookings| && source < |rows|
    ensures EntersAs(s, ApplyRefund(s.(payments := rows), booking, source), RestoredEntry(s, rows, booking, source))
  {
  }

  lemma RequestEnters(s: State, payment: nat, amount: int, key: string, provider: Option<ProviderRefund>)
    ensures EntersAs(s, CreateRefund(s, payment, amount, key, provider).state,
                     RequestEntry(s, payment, amount, key, provider))
  {
    var o := CreateRefund(s, payment, amount, key, provider);
    if o.reply.RefundReply? && o.reply.sent {
      var row := NewRefund(s, payment, provider.value.id, amount, RefundStatus(provider.value.status), key);
      ApplyRefundEnters(s, s.payments + [row], s.payments[payment].booking, payment);
    }
  }

  lemma ReconcileEnters(s: State, refund: nat, answer: Option<string>)
    ensures EntersAs(s, Reconcile(s, refund, answer).state, ReconcileEntry(s, refund, answer))
  {
    if Reconcile(s, refund, answer).Committed() {
      var r := s.payments[refund];
      ApplyRefundEnters(s, s.payments[refund := r.(status := RefundStatus(answer.value))], r.booking, r.parent.value);
    }
  }

  lemma HookEnters(s: State, refundId: string, sourceId: string, status: RecordStatus, amount: nat)
    ensures EntersAs(s, RefundWebhook(s, refundId, sourceId, status, amount).state,
                     HookEntry(s, refundId, sourceId, status, amount))
  {
    if RefundWebhook(s, refundId, sourceId, status, amount).Committed() {
      var source := Latest(s.payments, WithPaymentId(sourceId)).value;
      var known := Latest(s.payments, WithRefundId(refundId));
      var rows :=
        if known.Some? then s.payments[known.value := s.payments[known.value].(status := status)]
        else s.payments + [NewRefund(s, source, refundId, amount, status, "webhook-" + refundId)];
      ApplyRefundEnters(s, rows, s.payments[source].booking, source);
    }
  }

  lemma DispatchEnters(s: State, w: Webhook)
    ensures EntersAs(s, Dispatch(s, w).state, Reentry(s, Pay(Deliver(w))))
  {
    match w
    case Captured(orderId, paymentId, _) => VerifyEnters(s, orderId, paymentId, true, None);
    case FailedPayment(orderId, paymentId) => FailedHookEnters(s, orderId, paymentId);
    case RefundChanged(refundId, sourceId, status, amount) =>
      HookEnters(s, refundId, sourceId, RefundStatus(status), amount);
    case OtherEvent(_) =>
  }

  lemma PayEnters(s: State, e: PaymentEvent)
    ensures EntersAs(s, StepPay(s, e).state, Reentry(s, Pay(e)))
  {
    match e
    case OrderAdvance(_, _, _, _) =>
    case VerifyPayment(orderId, paymentId, signatureOk, user) => VerifyEnters(s, orderId, paymentId, signatureOk, user);
    case RequestRefund(payment, amount, key, provider) => RequestEnters(s, payment, amount, key, provider);
    case ReconcileRefund(refund, answer) => ReconcileEnters(s, refund, answer);
    case Deliver(w) => DispatchEnters(s, w);
  }

  lemma ConversionEnters(s: State, i: nat)
    ensures EntersAs(s, ConvertExisting(s, i).state, Reentry(s, Desk(ConvertBooking(i))))
  {
  }

  /** Taking a place unasked overfills the slot exactly when none was free. */
  lemma EntryOverfillsIff(s: State, s': State, entry: Option<nat>, slot: nat)
    requires EntersAs(s, s', entry) && slot < |s.slots| && Holds(s, slot, 0)
    ensures Holds(s', slot, 0)
            <==> entry.None? || s.bookings[entry.value].slot != slot || AvailableCapacity(s, slot) > 0
  {
    match entry
    case Some(i) => SavedRowHolds(s, i, s'.bookings[i], slot);
    case None =>
      EntriesBoundGrowth(s.bookings, s'.bookings, slot);
      NoEntries(s.bookings, s'.bookings, slot);
  }

  /**
   * For every step: a slot within its capacity stays so exactly when the step brings no booking back into it, or the
   * slot has a place free. All other steps ask for a place or take none.
   */
  lemma StepOverfillsIff(s: State, e: Event, slot: nat)
    requires Sound(s) && slot < |s.slots| && Holds(s, slot, 0)
    ensures Reentry(s, e).Some? ==> Reentry(s, e).value < |s.bookings|
    ensures Holds(Next(s, e), slot, 0)
            <==> Reentry(s, e).None? || s.bookings[Reentry(s, e).value].slot != slot || AvailableCapacity(s, slot) > 0
  {
    match e
    case Pay(p) =>
      PayEnters(s, p);
      EntryOverfillsIff(s, StepPay(s, p).state, Reentry(s, e), slot);
    case Desk(ConvertBooking(i)) =>
      ConversionEnters(s, i);
      EntryOverfillsIff(s, ConvertExisting(s, i).state, Reentry(s, e), slot);
    case _ => StepHolds(s, e, slot, 0);
  }

  /**
   * A good signature for an unpaid order, the gateway's or a customer's, keeps the slot within capacity exactly then.
   */
  lemma PaymentOverfillsIff(s: State, k: nat, orderId: string, paymentId: string, user: Option<nat>, slot: nat)
    requires Sound(s) && k < |s.payments| && OrderRow(s, orderId) == Some(k) && !s.payments[k].status.Success?
    requires s.payments[k].booking < |s.bookings| && s.bookings[s.payments[k].booking].slot == slot
    requires slot < |s.slots| && Holds(s, slot, 0)
    requires MayPay(s, orderId, paymentId, user)
    ensures Holds(Verify(s, orderId, paymentId, true, user).state, slot, 0)
            <==> Reserves(s.bookings[s.payments[k].booking].status) || AvailableCapacity(s, slot) > 0
  {
    VerifyEnters(s, orderId, paymentId, true, user);
    EntryOverfillsIff(s, Verify(s, orderId, paymentId, true, user).state, PaidEntry(s, orderId), slot);
  }
}
