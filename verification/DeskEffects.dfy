/** What the back office's steps accept and do: assignments, slots, leads and manual payments. */
module DeskEffects {
  import opened Tables
  import opened Catalogue
  import opened Model
  import opened Payments
  import opened Scheduling
  import opened Bookings
  import opened Technicians
  import opened Operations
  import opened Machine
  import opened BookingRows
  import opened PointerProofs
  import opened BookingEffects

  // ----- the assignment log -----

  /** Assigning is accepted exactly for a confirmed or assigned booking and a technician without objections. */
  lemma AssignAcceptedIff(s: State, i: nat, technician: nat)
    requires i < |s.bookings| && s.bookings[i].slot < |s.slots|
    ensures var o, b := Assign(s, i, technician), s.bookings[i];
            && (o.Committed() <==>
                  && (b.status.Confirmed? || b.status.TechnicianAssigned?) && technician < |s.technicians|
                  && EligibilityErrors(s, s.technicians[technician], i) == [])
            && (o.reply.Rejected? && o.reply.error.NotEligible? ==>
                  && technician < |s.technicians|
                  && o.reply.error.errors == EligibilityErrors(s, s.technicians[technician], i))
  {
  }

  /** Afterwards the booking names the technician, and only the newest row of its log is open. */
  lemma AssignedRow(s: State, i: nat, technician: nat)
    requires Assign(s, i, technician).Committed() && i < |s.bookings| && Agrees(s, s.bookings[i])
    ensures technician < |s.technicians|
    ensures var s', b := Assign(s, i, technician).state, s.bookings[i];
            && OneRow(s, s', i)
            && s' == s.(bookings := s'.bookings, notices := s.notices + [Notice(TechnicianAssignedNotice, i)])
            && var b' := s'.bookings[i];
               && b' == b.(status := TechnicianAssigned, technician := Some(s.technicians[technician].user),
                           history := b.history + [Hop(Some(b.status), TechnicianAssigned)],
                           assignments := b'.assignments)
               && LogAfter(b.assignments, b'.assignments, technician)
  {
    OpenIsTheOnly(s, s.bookings[i]);
  }

  /** The log as it was if the technician's row is open; else every old row ended and one new row opened. */
  ghost predicate LogAfter(rows: seq<Assignment>, rows': seq<Assignment>, technician: nat) {
    if Assignment(technician, true) in rows then rows' == rows
    else
      && |rows'| == |rows| + 1 && rows'[|rows|] == Assignment(technician, true)
      && forall k :: 0 <= k < |rows| ==> rows'[k] == Assignment(rows[k].technician, false)
  }

  /** Removing is accepted exactly when a row is open; it ends it and an assigned booking is confirmed again. */
  lemma RemoveAcceptedIff(s: State, i: nat)
    requires i < |s.bookings| && Agrees(s, s.bookings[i])
    ensures var o, b := Remove(s, i), s.bookings[i];
            && (o.Committed() <==> exists k :: 0 <= k < |b.assignments| && b.assignments[k].open)
            && (o.Committed() ==>
                  && OneRow(s, o.state, i) && o.state == s.(bookings := o.state.bookings)
                  && var b' := o.state.bookings[i];
                     && (b'.status == if b.status.TechnicianAssigned? then Confirmed else b.status)
                     && b' == b.(status := b'.status, technician := None, assignments := b'.assignments,
                                 history := b.history + [Hop(Some(b.status), b'.status)])
                     && |b'.assignments| == |b.assignments|
                     && forall k :: 0 <= k < |b.assignments| ==>
                          b'.assignments[k] == Assignment(b.assignments[k].technician, false))
  {
    OpenIsTheOnly(s, s.bookings[i]);
    var open := OpenAssignment(s.bookings[i].assignments);
    if open.None? {
      forall k | 0 <= k < |s.bookings[i].assignments| ensures !s.bookings[i].assignments[k].open {
        assert !IsOpen()(s.bookings[i].assignments[k]);
      }
    } else {
      assert IsOpen()(s.bookings[i].assignments[open.value]);
    }
  }

  // ----- slots -----

  ghost predicate OneSlotPerWindow(s: State) {
    forall j, k :: 0 <= j < k < |s.slots| ==> !SameWindow(s.slots[j], s.slots[k])
  }

  lemma StepKeepsWindows(s: State, e: Event)
    requires OneSlotPerWindow(s) && e.Desk? && (e.desk.OpenSlot? || e.desk.ChangeSlot?)
    ensures OneSlotPerWindow(Next(s, e))
  {
    if e.desk.OpenSlot? {
      var row := e.desk.row;
      forall j | 0 <= j < |s.slots| && AddSlot(s, row).Committed() ensures !SameWindow(s.slots[j], row) {}
    } else if EditSlot(s, e.desk.slot, e.desk.edit).Committed() {
      var row' := Edited(s.slots[e.desk.slot], e.desk.edit);
      forall j | 0 <= j < |s.slots| && j != e.desk.slot ensures !SameWindow(s.slots[j], row') {}
    }
  }

  lemma OtherStepsKeepSlots(s: State, e: Event)
    requires !(e.Desk? && (e.desk.OpenSlot? || e.desk.ChangeSlot?))
    ensures Next(s, e).slots == s.slots
  {
    match e
    case Pay(p) => PayKeepsSlots(s, p);
    case _ =>
  }

  lemma VerifyKeepsSlots(s: State, orderId: string, paymentId: string, signatureOk: bool, user: Option<nat>)
    ensures Verify(s, orderId, paymentId, signatureOk, user).state.slots == s.slots
  {
    VerifyCases(s, orderId, paymentId, signatureOk, user);
  }

  lemma RequestKeepsSlots(s: State, payment: nat, amount: int, key: string, provider: Option<ProviderRefund>)
    ensures CreateRefund(s, payment, amount, key, provider).state.slots == s.slots
  {
  }

  lemma ReconcileKeepsSlots(s: State, refund: nat, answer: Option<string>)
    ensures Reconcile(s, refund, answer).state.slots == s.slots
  {
  }

  lemma HookKeepsSlots(s: State, refundId: string, sourceId: string, status: RecordStatus, amount: nat)
    ensures RefundWebhook(s, refundId, sourceId, status, amount).state.slots == s.slots
  {
  }

  lemma DispatchKeepsSlots(s: State, w: Webhook)
    ensures Dispatch(s, w).state.slots == s.slots
  {
    match w
    case Captured(orderId, paymentId, _) => VerifyKeepsSlots(s, orderId, paymentId, true, None);
    case RefundChanged(refundId, sourceId, status, amount) =>
      HookKeepsSlots(s, refundId, sourceId, RefundStatus(status), amount);
    case _ =>
  }

  lemma PayKeepsSlots(s: State, e: PaymentEvent)
    ensures StepPay(s, e).state.slots == s.slots
  {
    match e
    case OrderAdvance(_, _, _, _) =>
    case VerifyPayment(orderId, paymentId, signatureOk, user) =>
      VerifyKeepsSlots(s, orderId, paymentId, signatureOk, user);
    case Deliver(w) => DispatchKeepsSlots(s, w);
    case RequestRefund(payment, amount, key, provider) => RequestKeepsSlots(s, payment, amount, key, provider);
    case ReconcileRefund(refund, answer) => ReconcileKeepsSlots(s, refund, answer);
  }

  /** In every run no two slots of an area share a day and a window. */
  lemma {:induction false} WindowsAreUnique(run: seq<Event>)
    ensures OneSlotPerWindow(Run(EmptyLedger(), run))
  {
    if |run| > 0 {
      var front, last := run[..|run| - 1], run[|run| - 1];
      WindowsAreUnique(front);
      if last.Desk? && (last.desk.OpenSlot? || last.desk.ChangeSlot?) {
        StepKeepsWindows(Run(EmptyLedger(), front), last);
      } else {
        OtherStepsKeepSlots(Run(EmptyLedger(), front), last);
      }
    }
  }

  /** A slot is opened exactly when it has room and some length, and no slot has its window. */
  lemma OpenAcceptedIff(s: State, row: Slot)
    ensures var o := AddSlot(s, row);
            && (o.Committed() <==>
                  && row.capacity > 0 && row.start < row.end
                  && forall j :: 0 <= j < |s.slots| ==> !SameWindow(s.slots[j], row))
            && (o.Committed() ==> o.state == s.(slots := s.slots + [row]))
  {
  }

  /** The row after an edit: what the edit carries, and the rest as it was. */
  ghost predicate Applied(row: Slot, edit: SlotEdit, row': Slot) {
    && row'.area == row.area
    && (edit.date.Some? ==> row'.date == edit.date.value) && (edit.date.None? ==> row'.date == row.date)
    && (edit.start.Some? ==> row'.start == edit.start.value) && (edit.start.None? ==> row'.start == row.start)
    && (edit.end.Some? ==> row'.end == edit.end.value) && (edit.end.None? ==> row'.end == row.end)
    && (edit.capacity.Some? ==> row'.capacity == edit.capacity.value)
    && (edit.capacity.None? ==> row'.capacity == row.capacity)
    && (edit.active.Some? ==> row'.active == edit.active.value) && (edit.active.None? ==> row'.active == row.active)
  }

  /**
   * An edit is accepted exactly when the new row makes sense, is alone in its window, has room for those who hold a
   * place, and leaves day and times alone if any booking, of whatever status, names the slot.
   */
  lemma EditAcceptedIff(s: State, slot: nat, edit: SlotEdit)
    requires slot < |s.slots|
    ensures var o, row, row' := EditSlot(s, slot, edit), s.slots[slot], Edited(s.slots[slot], edit);
            && Applied(row, edit, row')
            && (o.Committed() ==> o.state == s.(slots := s.slots[slot := row']))
            && (o.Committed() <==>
                  && row'.capacity > 0 && row'.start < row'.end && |Holders(s, slot)| <= row'.capacity
                  && (forall j :: 0 <= j < |s.slots| && j != slot ==> !SameWindow(s.slots[j], row'))
                  && ((row'.date == row.date && row'.start == row.start && row'.end == row.end)
                      || forall i :: 0 <= i < |s.bookings| ==> s.bookings[i].slot != slot))
  {
    HoldersCount(s, slot);
  }

  // ----- leads and manual payments -----

  /** The amounts of a work order made from a lead that was quoted: quote and one training fee. */
  ghost predicate Quoted(service: Service, quote: int, leadAdvance: Option<int>, b: Booking) {
    && b.subtotal == quote && b.discount == 0 && b.training == service.trainingFee
    && b.total == quote + service.trainingFee && b.balanceDue == b.total
    && (match leadAdvance
        case Some(a) => b.advanceRequired in {a, b.total} && b.advanceRequired <= a && b.advanceRequired <= b.total
        case None => DepositOn(service, UnitPrice(service) + Fees(service, 1), b.advanceRequired))
    && b.quantity == 1 && b.advancePaid == 0 && b.balanceCollected == 0
  }

  /** A lead becomes a work order exactly when its booking is accepted: confirmed unpaid, priced or as quoted. */
  lemma LeadAcceptedIff(s: State, customer: nat, service: nat, slot: nat, site: Site, quote: Option<int>,
                        leadAdvance: Option<int>)
    requires slot < |s.slots| ==> 0 <= s.slots[slot].start < 86400
    ensures var o := ConvertNew(s, customer, service, slot, site, quote, leadAdvance);
            && (o.Committed() <==> MayBook(s, service, slot, site))
            && (o.Committed() ==>
                  && o.reply == BookingReply(|s.bookings|) && |o.state.bookings| == |s.bookings| + 1
                  && o.state == s.(bookings := s.bookings + [o.state.bookings[|s.bookings|]])
                  && service < |s.services|
                  && var b := o.state.bookings[|s.bookings|];
                     && b.customer == customer && b.service == service && b.slot == slot && b.manual && !b.cancelled
                     && b.status.Confirmed? && b.payment.Unpaid? && b.technician.None?
                     && b.history == [Hop(None, PendingPayment), Hop(Some(PendingPayment), Confirmed)]
                     && (quote.None? ==> Costs(s.services[service], 1, b))
                     && (quote.Some? ==> Quoted(s.services[service], quote.value, leadAdvance, b)))
  {
    BookingAcceptedIff(s, customer, service, slot, 1, site);
    var created := CreateBooking(s, customer, service, slot, 1, site);
    if created.Committed() {
      LeadRow(s, created.state, customer, service, slot, site, quote, leadAdvance);
    }
  }

  lemma LeadRow(s: State, s1: State, customer: nat, service: nat, slot: nat, site: Site, quote: Option<int>,
                leadAdvance: Option<int>)
    requires |s1.bookings| == |s.bookings| + 1 && s1 == s.(bookings := s.bookings + [s1.bookings[|s.bookings|]])
    requires IsNewBooking(s, s1.bookings[|s.bookings|], customer, service, slot, 1, site)
    requires CreateBooking(s, customer, service, slot, 1, site) == Outcome(s1, BookingReply(|s.bookings|))
    ensures var o := ConvertNew(s, customer, service, slot, site, quote, leadAdvance);
            && o.reply == BookingReply(|s.bookings|) && |o.state.bookings| == |s.bookings| + 1
            && o.state == s.(bookings := s.bookings + [o.state.bookings[|s.bookings|]])
            && var b := o.state.bookings[|s.bookings|];
               && b.customer == customer && b.service == service && b.slot == slot && b.manual && !b.cancelled
               && b.status.Confirmed? && b.payment.Unpaid? && b.technician.None?
               && b.history == [Hop(None, PendingPayment), Hop(Some(PendingPayment), Confirmed)]
               && (quote.None? ==> Costs(s.services[service], 1, b))
               && (quote.Some? ==> Quoted(s.services[service], quote.value, leadAdvance, b))
  {
  }

  /** Converting an existing booking confirms it, writing an entry unless it was, and touches nothing else. */
  lemma ConversionRow(s: State, i: nat)
    requires i < |s.bookings|
    ensures var o, b := ConvertExisting(s, i), s.bookings[i];
            && o.reply == BookingReply(i) && OneRow(s, o.state, i) && o.state == s.(bookings := o.state.bookings)
            && o.state.bookings[i].manual && o.state.bookings[i].status.Confirmed?
            && o.state.bookings[i] == b.(manual := true, status := Confirmed, history := o.state.bookings[i].history)
            && o.state.bookings[i].history
               == (if b.status.Confirmed? then b.history else b.history + [Hop(Some(b.status), Confirmed)])
  {
  }

  /** A manual payment is taken for a linked booking, once per key, unless the booking has an active advance. */
  ghost predicate MayPayManually(s: State, i: nat, amount: int, key: string, linked: bool) {
    && amount > 0 && linked && i < |s.bookings|
    && forall j :: 0 <= j < |s.payments| && s.payments[j].booking == i && s.payments[j].kind.BookingAdvance? ==>
         !ActiveAdvance(s.payments[j]) && (key == "" || s.payments[j].key != key)
  }

  /** It counts as an advance in full; the booking is PAID exactly once its total is covered. */
  lemma ManualPaymentAcceptedIff(s: State, i: nat, amount: int, key: string, linked: bool)
    ensures var o := ManualPayment(s, i, amount, key, linked);
            && (o.Committed() <==> MayPayManually(s, i, amount, key, linked))
            && (o.Committed() ==>
                  && o.reply == PaymentReply(|s.payments|)
                  && |o.state.payments| == |s.payments| + 1 && OneRow(s, o.state, i)
                  && o.state == s.(bookings := o.state.bookings,
                                   payments := s.payments + [o.state.payments[|s.payments|]])
                  && var p, b, b' := o.state.payments[|s.payments|], s.bookings[i], o.state.bookings[i];
                     && p.booking == i && p.amount == amount && p.key == key && p.provider.Offline?
                     && p.kind.BookingAdvance? && p.status.Success? && p.signatureVerified
                     && p.orderId.None? && p.paymentId.None? && p.refundId.None? && p.parent.None?
                     && b'.advancePaid - b.advancePaid == amount
                     && b'.payment == (if b'.advancePaid >= b.total then Paid else PartiallyPaid)
                     && b'.balanceDue == (if b'.advancePaid >= b.total then 0 else b.total - b'.advancePaid)
                     && b' == b.(advancePaid := b'.advancePaid, balanceDue := b'.balanceDue, payment := b'.payment))
  {
    if i < |s.bookings| {
      var row := ManualRow(i, amount, key);
      forall j | 0 <= j < |s.payments|
        ensures Clash(s.payments[j], row) <==>
                  && s.payments[j].booking == i && s.payments[j].kind.BookingAdvance?
                  && (ActiveAdvance(s.payments[j]) || (key != "" && s.payments[j].key == key))
      {
      }
    }
  }
}
