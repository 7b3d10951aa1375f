/** What the booking steps accept and do, in the terms of the rows, the clock and the service's own fields. */
module BookingEffects {
  import opened Tables
  import opened Money
  import opened Catalogue
  import opened Model
  import opened Payments
  import opened Scheduling
  import opened Bookings
  import opened Operations
  import opened Machine
  import opened Soundness
  import opened BookingRows

  // ----- what a booking costs -----

  /** The selling price, when there is one, replaces the base price. */
  ghost function UnitPrice(service: Service): int {
    match service.sellingPrice
    case Some(price) => price
    case None => service.basePrice
  }

  ghost function Fees(service: Service, quantity: nat): int {
    if service.trainingFeePerUnit then quantity * service.trainingFee else service.trainingFee
  }

  /** `value` hundredths of a percent of the total, to the nearest paisa, ties to the even one. */
  ghost predicate IsPercentageOf(deposit: int, value: int, total: int) {
    && -10000 <= 2 * (total * value - 10000 * deposit) <= 10000
    && (2 * (total * value - 10000 * deposit) in {-10000, 10000} ==> deposit % 2 == 0)
  }

  ghost predicate DepositOn(service: Service, total: int, deposit: int) {
    match service.advanceType
    case Percentage => service.advanceValue.Some? && IsPercentageOf(deposit, service.advanceValue.value, total)
    case Fixed => deposit in {service.advanceAmount, total} && deposit <= service.advanceAmount && deposit <= total
  }

  lemma DepositIsOn(service: Service, total: int)
    ensures service.Deposit(total).Some? ==> DepositOn(service, total, service.Deposit(total).value)
    ensures service.Deposit(total).None? <==> service.advanceType.Percentage? && service.advanceValue.None?
  {
    if service.advanceType.Percentage? && service.advanceValue.Some? {
      var d := service.Deposit(total).value;
      assert d * 10000 == 10000 * d;
    }
  }

  /** The amounts a booking of this service owes, when nothing was paid yet. */
  ghost predicate Costs(service: Service, quantity: nat, b: Booking) {
    && b.quantity == quantity
    && b.subtotal == quantity * service.basePrice
    && b.discount == quantity * service.basePrice - quantity * UnitPrice(service)
    && b.training == Fees(service, quantity)
    && b.total == quantity * UnitPrice(service) + Fees(service, quantity)
    && DepositOn(service, b.total, b.advanceRequired)
    && b.advancePaid == 0 && b.balanceDue == b.total && b.balanceCollected == 0
  }

  lemma SnapshotCosts(service: Service, quantity: nat)
    ensures SnapshotPrice(service, quantity).Some? <==> !(service.advanceType.Percentage? && service.advanceValue.None?)
    ensures SnapshotPrice(service, quantity).Some? ==>
              var p := SnapshotPrice(service, quantity).value;
              && p.subtotal == quantity * service.basePrice
              && p.discount == quantity * service.basePrice - quantity * UnitPrice(service)
              && p.training == Fees(service, quantity)
              && p.total == quantity * UnitPrice(service) + Fees(service, quantity)
              && DepositOn(service, p.total, p.advance)
  {
    var subtotal, effective := service.basePrice * quantity, service.EffectivePrice() * quantity;
    assert subtotal == quantity * service.basePrice && effective == quantity * UnitPrice(service);
    assert service.TrainingFor(quantity) == Fees(service, quantity);
    var total := subtotal - (subtotal - effective) + service.TrainingFor(quantity) + 0;
    DepositIsOn(service, total);
  }

  // ----- what a new booking is, and when there is one -----

  /** The instant a slot opens, in seconds. */
  function Opens(slot: Slot): int { slot.date * 86400 + slot.start }

  /** Bookings of a slot that hold a place: awaiting payment, confirmed, assigned, on the way or under way. */
  ghost function Holders(s: State, slot: nat): set<nat> {
    set i: nat | i < |s.bookings| && s.bookings[i].slot == slot && s.bookings[i].status in
      {PendingPayment, Confirmed, TechnicianAssigned, TechnicianEnRoute, InProgress}
  }

  /** One booking more holds a place or does not. */
  lemma HoldersStep(s: State, front: State, slot: nat)
    requires |s.bookings| > 0 && front.bookings == s.bookings[..|s.bookings| - 1]
    ensures var last: nat := |s.bookings| - 1;
            && Holders(s, slot) == Holders(front, slot) + (if PlaceIn(slot)(s.bookings[last]) == 1 then {last} else {})
            && last !in Holders(front, slot)
  {
  }

  lemma {:induction false} HoldersCount(s: State, slot: nat)
    ensures |Holders(s, slot)| == Reserved(s, slot)
    decreases |s.bookings|
  {
    if |s.bookings| == 0 {
      assert Holders(s, slot) == {};
    } else {
      var front := s.(bookings := s.bookings[..|s.bookings| - 1]);
      HoldersCount(front, slot);
      HoldersStep(s, front, slot);
    }
  }

  /** The free places of a slot: its capacity less its holders, and never below nothing. */
  lemma AvailableAreTheRest(s: State, slot: nat)
    requires slot < |s.slots|
    ensures AvailableCapacity(s, slot) == Max(0, s.slots[slot].capacity - |Holders(s, slot)|)
  {
    HoldersCount(s, slot);
  }

  /** A closure shuts an area on a day it covers, or every area if it names none. */
  ghost predicate Shut(closures: seq<Closure>, area: nat, date: int) {
    exists k :: 0 <= k < |closures| && closures[k].active
                && closures[k].startDate <= date && date <= closures[k].endDate
                && (closures[k].area == None || closures[k].area == Some(area))
  }

  /** An open slot with a free place that has not begun. */
  ghost predicate Vacant(s: State, slot: nat, site: Site) {
    && slot < |s.slots| && s.slots[slot].active && site.slotAreaActive
    && !Shut(site.closures, s.slots[slot].area, s.slots[slot].date)
    && site.now < Opens(s.slots[slot])
    && |Holders(s, slot)| < s.slots[slot].capacity
  }

  lemma ShutIsClosed(closures: seq<Closure>, area: nat, date: int)
    ensures Shut(closures, area, date) <==> IsServiceAreaClosed(closures, area, date)
  {
    if Shut(closures, area, date) {
      var k :| 0 <= k < |closures| && closures[k].active && closures[k].startDate <= date && date <= closures[k].endDate
               && (closures[k].area == None || closures[k].area == Some(area));
      assert ClosedBy(closures[k], area, date);
    }
    if IsServiceAreaClosed(closures, area, date) {
      var k :| 0 <= k < |closures| && ClosedBy(closures[k], area, date);
      assert closures[k].active && closures[k].startDate <= date && date <= closures[k].endDate;
    }
  }

  /** A slot whose start is a time of day has expired exactly when it has begun. */
  lemma ExpiredIffBegun(slot: Slot, now: int)
    requires 0 <= slot.start < 86400
    ensures IsSlotExpired(slot, now) <==> Opens(slot) <= now
  {
    var today, clock := now / 86400, now % 86400;
    assert now == 86400 * today + clock;
  }

  lemma BookableIffVacant(s: State, slot: nat, site: Site)
    requires slot < |s.slots| && 0 <= s.slots[slot].start < 86400
    ensures IsSlotBookable(s, slot, site) <==> Vacant(s, slot, site)
  {
    HoldersCount(s, slot);
    ShutIsClosed(site.closures, s.slots[slot].area, s.slots[slot].date);
    ExpiredIffBegun(s.slots[slot], site.now);
  }

  /** Everything a booking request must find. */
  ghost predicate MayBook(s: State, service: nat, slot: nat, site: Site) {
    && service < |s.services| && s.services[service].active && s.services[service].categoryActive
    && !(s.services[service].advanceType.Percentage? && s.services[service].advanceValue.None?)
    && site.addressOk && site.supportsService
    && Vacant(s, slot, site) && site.area == Some(s.slots[slot].area)
  }

  /** The row a committed request adds: the customer's, in that slot on its date, priced, waiting for its deposit. */
  ghost predicate IsNewBooking(s: State, b: Booking, customer: nat, service: nat, slot: nat, quantity: nat,
                               site: Site) {
    && service < |s.services| && slot < |s.slots|
    && b.customer == customer && b.service == service && b.slot == slot && b.serviceDate == s.slots[slot].date
    && b.postalCode == site.postalCode && Costs(s.services[service], quantity, b)
    && b.status.PendingPayment? && b.payment.Unpaid? && b.technician.None? && b.assignments == []
    && !b.cancelled && !b.manual && b.history == [Hop(None, PendingPayment)]
  }

  /** A booking request is accepted exactly then; it adds that row, answers with it, and changes nothing else. */
  lemma BookingAcceptedIff(s: State, customer: nat, service: nat, slot: nat, quantity: nat, site: Site)
    requires slot < |s.slots| ==> 0 <= s.slots[slot].start < 86400
    ensures var o := CreateBooking(s, customer, service, slot, quantity, site);
            && (o.Committed() <==> MayBook(s, service, slot, site))
            && (o.Committed() ==>
                  && o.reply == BookingReply(|s.bookings|) && |o.state.bookings| == |s.bookings| + 1
                  && o.state == s.(bookings := s.bookings + [o.state.bookings[|s.bookings|]])
                  && IsNewBooking(s, o.state.bookings[|s.bookings|], customer, service, slot, quantity, site))
  {
    if slot < |s.slots| { BookableIffVacant(s, slot, site); }
    if service < |s.services| { SnapshotCosts(s.services[service], quantity); }
  }

  // ----- cancelling and rescheduling -----

  /** The service begins no sooner than that many hours from now. */
  ghost predicate InTime(s: State, b: Booking, now: int, hours: int)
    requires b.slot < |s.slots|
  {
    now + hours * 3600 <= Opens(s.slots[b.slot])
  }

  lemma InTimeIff(s: State, b: Booking, now: int, hours: int)
    requires BookingSound(s, b)
    ensures InTime(s, b, now, hours) <==> !InsideWindow(s, b, now, hours)
  {
  }

  /** An administrator may cancel until the job is done; a customer before it is on its way, and in time. */
  lemma CancelAcceptedIff(s: State, i: nat, actor: Actor, now: int, hours: int)
    requires Sound(s) && i < |s.bookings|
    ensures var b := s.bookings[i];
            s.bookings[i].slot < |s.slots| &&
            (Cancel(s, i, actor, now, hours).Committed() <==>
               match actor
               case Admin =>
                 !b.status.Completed? && !b.status.Closed? && !b.status.Cancelled?
                 && !b.status.RefundPending? && !b.status.Refunded?
               case Customer =>
                 b.status in {PendingPayment, Confirmed, TechnicianAssigned} && InTime(s, b, now, hours))
  {
    assert BookingSound(s, s.bookings[i]);
    InTimeIff(s, s.bookings[i], now, hours);
  }

  /** A committed cancellation: the status, the flag and one entry, and nothing else on the booking. */
  lemma CancelledRow(s: State, i: nat, actor: Actor, now: int, hours: int)
    requires Cancel(s, i, actor, now, hours).Committed()
    ensures i < |s.bookings|
    ensures var s', b := Cancel(s, i, actor, now, hours).state, s.bookings[i];
            && OneRow(s, s', i)
            && s' == s.(bookings := s'.bookings, notices := s.notices + [Notice(BookingCancelledNotice, i)])
            && s'.bookings[i] == b.(status := Cancelled, cancelled := true,
                                    history := b.history + [Hop(Some(b.status), Cancelled)])
  {
  }

  /** The customer moves a confirmed or assigned booking in time into a vacant slot of the address's area. */
  lemma RescheduleAcceptedIff(s: State, i: nat, slot: nat, user: nat, site: Site, hours: int)
    requires Sound(s) && i < |s.bookings| && (slot < |s.slots| ==> 0 <= s.slots[slot].start < 86400)
    ensures var o, b := Reschedule(s, i, slot, user, site, hours), s.bookings[i];
            && b.slot < |s.slots|
            && (o.Committed() <==>
                  && b.customer == user && b.status in {Confirmed, TechnicianAssigned} && InTime(s, b, site.now, hours)
                  && site.supportsService && Vacant(s, slot, site) && site.area == Some(s.slots[slot].area))
            && (o.Committed() ==>
                  && OneRow(s, o.state, i)
                  && o.state == s.(bookings := o.state.bookings,
                                   notices := s.notices + [Notice(BookingRescheduledNotice, i)])
                  && o.state.bookings[i] == b.(slot := slot, serviceDate := s.slots[slot].date,
                                               history := b.history + [Hop(Some(b.status), b.status)]))
  {
    assert BookingSound(s, s.bookings[i]);
    if slot < |s.slots| { BookableIffVacant(s, slot, site); }
  }

  // ----- the work on a booking -----

  /** Booking `i` moves to a status, writes one entry and sends these notices; nothing else changes. */
  ghost predicate MovesTo(s: State, o: Outcome, i: nat, to: BookingStatus, kinds: seq<NoticeKind>)
    requires i < |s.bookings|
  {
    var b := s.bookings[i];
    && o.reply.Done?
    && o.state.bookings == s.bookings[i := b.(status := to, history := b.history + [Hop(Some(b.status), to)])]
    && o.state == s.(bookings := o.state.bookings,
                     notices := s.notices + seq(|kinds|, k requires 0 <= k < |kinds| => Notice(kinds[k], i)))
  }

  /** Driving, starting, completing and closing: each is accepted exactly from its stage, and moves to the next. */
  lemma WorkSteps(s: State, i: nat, requireBalance: bool)
    requires i < |s.bookings|
    ensures var b, o := s.bookings[i], MarkEnRoute(s, i);
            if b.status.TechnicianAssigned? then MovesTo(s, o, i, TechnicianEnRoute, [EnRouteNotice])
            else o == Refuse(s, WrongStatus)
    ensures var b, o := s.bookings[i], Start(s, i);
            if !b.status.TechnicianAssigned? && !b.status.TechnicianEnRoute? then o == Refuse(s, WrongStatus)
            else if b.technician == None then o == Refuse(s, NoTechnician)
            else MovesTo(s, o, i, InProgress, [])
    ensures var b, o := s.bookings[i], Complete(s, i, requireBalance);
            if !b.status.InProgress? then o == Refuse(s, WrongStatus)
            else if b.technician == None then o == Refuse(s, NoTechnician)
            else if requireBalance && b.balanceDue > b.balanceCollected then o == Refuse(s, BalanceOutstanding)
            else MovesTo(s, o, i, Completed, [ServiceCompletedNotice])
    ensures var b, o := s.bookings[i], Close(s, i);
            if b.status.Completed? then MovesTo(s, o, i, Closed, []) else o == Refuse(s, WrongStatus)
  {
  }

  /** A balance is taken on an assigned or running job, up to what is left, once per key. */
  ghost predicate MayCollect(s: State, i: nat, amount: int, key: string) {
    && i < |s.bookings|
    && (s.bookings[i].status.InProgress? || s.bookings[i].status.TechnicianAssigned?)
    && 0 < amount <= s.bookings[i].balanceDue - s.bookings[i].balanceCollected
    && (key == "" || forall j :: 0 <= j < |s.payments| ==>
          !(s.payments[j].booking == i && s.payments[j].kind.Balance? && s.payments[j].key == key))
  }

  /** It is recorded as a paid offline payment; the booking is PAID exactly once nothing is left. */
  lemma CollectAcceptedIff(s: State, i: nat, amount: int, key: string)
    ensures var o := CollectBalance(s, i, amount, key);
            && (o.Committed() <==> MayCollect(s, i, amount, key))
            && (o.Committed() ==>
                  && o.reply == PaymentReply(|s.payments|)
                  && |o.state.payments| == |s.payments| + 1 && OneRow(s, o.state, i)
                  && o.state == s.(bookings := o.state.bookings,
                                   payments := s.payments + [o.state.payments[|s.payments|]])
                  && var p, b, b' := o.state.payments[|s.payments|], s.bookings[i], o.state.bookings[i];
                     && p.booking == i && p.amount == amount && p.key == key && p.provider.Offline?
                     && p.kind.Balance? && p.status.Success? && p.signatureVerified
                     && p.orderId.None? && p.paymentId.None? && p.refundId.None? && p.parent.None?
                     && b'.balanceCollected - b.balanceCollected == amount
                     && b'.payment == (if b'.balanceCollected == b.balanceDue then Paid else b.payment)
                     && b' == b.(balanceCollected := b'.balanceCollected, payment := b'.payment,
                                 history := b.history + [Hop(Some(b.status), b.status)]))
  {
    if i < |s.bookings| {
      var row := BalanceRow(i, amount, key);
      forall j | 0 <= j < |s.payments|
        ensures Clash(s.payments[j], row) <==>
                  key != "" && s.payments[j].booking == i && s.payments[j].kind.Balance? && s.payments[j].key == key
      {
      }
    }
  }

  // ----- a cancelled booking stays cancelled -----

  ghost predicate WasCancelled(history: seq<Hop>) {
    exists k :: 0 <= k < |history| && history[k].to == Cancelled
  }

  ghost predicate FlagTells(b: Booking) {
    (b.cancelled <==> WasCancelled(b.history)) && (b.status.Cancelled? ==> b.cancelled)
  }

  ghost predicate AllFlagsTell(s: State) { forall i :: 0 <= i < |s.bookings| ==> FlagTells(s.bookings[i]) }

  /** The history grows by entries that are not cancellations and the flag stays, or it is a cancellation. */
  ghost predicate KeepsFlag(b: Booking, b': Booking) {
    && (b'.status.Cancelled? ==> b'.cancelled)
    && KeepsRecord(b, b')
  }

  ghost predicate KeepsRecord(b: Booking, b': Booking) {
    || (b'.cancelled == b.cancelled && b'.history == b.history)
    || (|b'.history| == |b.history| + 1 && b.history <= b'.history
        && (if b'.history[|b.history|].to == Cancelled then b'.cancelled else b'.cancelled == b.cancelled))
  }

  lemma FlagKept(b: Booking, b': Booking)
    requires FlagTells(b) && KeepsFlag(b, b')
    ensures FlagTells(b')
  {
    if WasCancelled(b.history) {
      var k :| 0 <= k < |b.history| && b.history[k].to == Cancelled;
      assert b'.history[k].to == Cancelled;
    }
    if b'.history != b.history && b'.history[|b.history|].to == Cancelled {
      assert WasCancelled(b'.history);
    } else if WasCancelled(b'.history) {
      var k :| 0 <= k < |b'.history| && b'.history[k].to == Cancelled;
      assert k < |b.history| && b.history[k].to == Cancelled;
    }
  }

  lemma FlagsKept(s: State, s': State)
    requires AllFlagsTell(s) && |s.bookings| <= |s'.bookings|
    requires forall i :: 0 <= i < |s.bookings| ==> KeepsFlag(s.bookings[i], s'.bookings[i])
    requires forall i :: |s.bookings| <= i < |s'.bookings| ==> FlagTells(s'.bookings[i])
    ensures AllFlagsTell(s')
  {
    forall i | 0 <= i < |s.bookings| ensures FlagTells(s'.bookings[i]) {
      FlagKept(s.bookings[i], s'.bookings[i]);
    }
  }

  lemma PayKeepsFlag(b: Booking, b': Booking)
    requires PayRowStep(b, b') && (b.status.Cancelled? ==> b.cancelled)
    ensures KeepsFlag(b, b')
  {
    if b'.history != b.history {
      assert b'.history == b.history + [Hop(Some(b.status), Confirmed)];
    }
  }

  lemma LifeKeepsFlag(s: State, e: LifeEvent, i: nat)
    requires i < |s.bookings| && (s.bookings[i].status.Cancelled? ==> s.bookings[i].cancelled)
    ensures i < |StepLife(s, e).state.bookings|
    ensures KeepsFlag(s.bookings[i], StepLife(s, e).state.bookings[i])
  {
    var b, b' := s.bookings[i], StepLife(s, e).state.bookings[i];
    if b'.history != b.history {
      assert b'.history == b.history + [Hop(Some(b.status), b'.status)];
    }
  }

  lemma DeskKeepsFlag(s: State, e: DeskEvent, i: nat)
    requires i < |s.bookings| && (s.bookings[i].status.Cancelled? ==> s.bookings[i].cancelled)
    ensures i < |StepDesk(s, e).state.bookings|
    ensures KeepsFlag(s.bookings[i], StepDesk(s, e).state.bookings[i])
  {
    var b, b' := s.bookings[i], StepDesk(s, e).state.bookings[i];
    if b'.history != b.history {
      assert b'.history == b.history + [Hop(Some(b.status), b'.status)];
    }
  }

  /** A booking that is new after a step has not been cancelled. */
  lemma NewBookingTells(s: State, e: LifeEvent, i: nat)
    requires |s.bookings| <= i < |StepLife(s, e).state.bookings|
    ensures FlagTells(StepLife(s, e).state.bookings[i])
  {
    assert StepLife(s, e).state.bookings[i].history == [Hop(None, PendingPayment)];
  }

  lemma NewLeadTells(s: State, e: DeskEvent, i: nat)
    requires |s.bookings| <= i < |StepDesk(s, e).state.bookings|
    ensures FlagTells(StepDesk(s, e).state.bookings[i])
  {
    ConvertedLeadTells(s, e.customer, e.service, e.slot, e.site, e.quote, e.leadAdvance);
  }

  lemma ConvertedLeadTells(s: State, customer: nat, service: nat, slot: nat, site: Site, quote: Option<int>,
                           leadAdvance: Option<int>)
    ensures var bookings := ConvertNew(s, customer, service, slot, site, quote, leadAdvance).state.bookings;
            |bookings| > |s.bookings| ==> |bookings| == |s.bookings| + 1 && FlagTells(bookings[|s.bookings|])
  {
    var bookings := ConvertNew(s, customer, service, slot, site, quote, leadAdvance).state.bookings;
    if |bookings| > |s.bookings| {
      assert bookings[|s.bookings|].history == [Hop(None, PendingPayment), Hop(Some(PendingPayment), Confirmed)];
    }
  }

  lemma StepKeepsFlags(s: State, e: Event)
    requires Sound(s) && AllFlagsTell(s)
    ensures AllFlagsTell(Next(s, e))
  {
    var s' := Next(s, e);
    match e {
      case Pay(p) =>
        PayBookingRows(s, p);
        forall i | 0 <= i < |s.bookings| ensures KeepsFlag(s.bookings[i], s'.bookings[i]) {
          assert FlagTells(s.bookings[i]);
          PayKeepsFlag(s.bookings[i], s'.bookings[i]);
        }
      case Live(l) =>
        LifeNeverDrops(s, l);
        forall i | 0 <= i < |s.bookings| ensures KeepsFlag(s.bookings[i], s'.bookings[i]) {
          assert FlagTells(s.bookings[i]);
          LifeKeepsFlag(s, l, i);
        }
        forall i | |s.bookings| <= i < |s'.bookings| ensures FlagTells(s'.bookings[i]) { NewBookingTells(s, l, i); }
      case Desk(d) =>
        DeskNeverDrops(s, d);
        forall i | 0 <= i < |s.bookings| ensures KeepsFlag(s.bookings[i], s'.bookings[i]) {
          assert FlagTells(s.bookings[i]);
          DeskKeepsFlag(s, d, i);
        }
        forall i | |s.bookings| <= i < |s'.bookings| ensures FlagTells(s'.bookings[i]) { NewLeadTells(s, d, i); }
    }
    FlagsKept(s, s');
  }

  lemma LifeNeverDrops(s: State, e: LifeEvent)
    ensures |s.bookings| <= |StepLife(s, e).state.bookings|
  {
  }

  lemma DeskNeverDrops(s: State, e: DeskEvent)
    ensures |s.bookings| <= |StepDesk(s, e).state.bookings|
  {
  }

  /** In every run a booking is marked cancelled exactly when its history records a cancellation. */
  lemma {:induction false} CancelledIsRecorded(run: seq<Event>)
    ensures AllFlagsTell(Run(EmptyLedger(), run))
  {
    if |run| > 0 {
      CancelledIsRecorded(run[..|run| - 1]);
      RunSound(EmptyLedger(), run[..|run| - 1]);
      StepKeepsFlags(Run(EmptyLedger(), run[..|run| - 1]), run[|run| - 1]);
    }
  }

  ghost predicate RefundStep(e: Event) {
    e.Pay? && (e.pay.RequestRefund? || e.pay.ReconcileRefund? || (e.pay.Deliver? && e.pay.webhook.RefundChanged?))
  }

  /** So no refund step, in any run, brings a booking that was ever cancelled back to CONFIRMED. */
  lemma RefundsNeverReviveCancelled(run: seq<Event>, e: Event, i: nat)
    requires RefundStep(e) && i < |Run(EmptyLedger(), run).bookings|
    requires WasCancelled(Run(EmptyLedger(), run).bookings[i].history)
    ensures i < |Next(Run(EmptyLedger(), run), e).bookings|
    ensures Next(Run(EmptyLedger(), run), e).bookings[i].status.Confirmed? ==>
              Run(EmptyLedger(), run).bookings[i].status.Confirmed?
  {
    var s := Run(EmptyLedger(), run);
    CancelledIsRecorded(run);
    assert FlagTells(s.bookings[i]);
    RunSound(EmptyLedger(), run);
    PayBookingRows(s, e.pay);
    RefundStepRows(s, e.pay, i);
  }

  /** A refund step keeps a booking row or moves it as its refunds say. */
  lemma RefundStepRows(s: State, e: PaymentEvent, i: nat)
    requires RefundStep(Pay(e)) && i < |s.bookings|
    ensures i < |StepPay(s, e).state.bookings|
    ensures StepPay(s, e).state.bookings[i] == s.bookings[i] || Refunds(s.bookings[i], StepPay(s, e).state.bookings[i])
  {
    match e
    case RequestRefund(payment, amount, key, provider) =>
      var o := CreateRefund(s, payment, amount, key, provider);
      if o.reply.RefundReply? && o.reply.sent {
        var row := NewRefund(s, payment, provider.value.id, amount, RefundStatus(provider.value.status), key);
        SettledRow(AddPayment(s, row), s.payments[payment].booking, payment, i);
      }
    case ReconcileRefund(refund, answer) =>
      if Reconcile(s, refund, answer).Committed() {
        var r := s.payments[refund];
        SettledRow(SavePayment(s, refund, r.(status := RefundStatus(answer.value))), r.booking, r.parent.value, i);
      }
    case Deliver(w) => HookRow(s, w.refundId, w.sourcePaymentId, RefundStatus(w.status), w.refundAmount, i);
  }

  lemma SettledRow(s: State, booking: nat, source: nat, i: nat)
    requires booking < |s.bookings| && source < |s.payments| && i < |s.bookings|
    ensures i < |ApplyRefund(s, booking, source).bookings|
    ensures var b' := ApplyRefund(s, booking, source).bookings[i]; b' == s.bookings[i] || Refunds(s.bookings[i], b')
  {
  }

  lemma HookRow(s: State, refundId: string, sourceId: string, status: RecordStatus, amount: nat, i: nat)
    requires i < |s.bookings|
    ensures i < |RefundWebhook(s, refundId, sourceId, status, amount).state.bookings|
    ensures var b' := RefundWebhook(s, refundId, sourceId, status, amount).state.bookings[i];
            b' == s.bookings[i] || Refunds(s.bookings[i], b')
  {
    if RefundWebhook(s, refundId, sourceId, status, amount).Committed() {
      var source := Latest(s.payments, WithPaymentId(sourceId)).value;
      var known := Latest(s.payments, WithRefundId(refundId));
      var s1 :=
        if known.Some? then SavePayment(s, known.value, s.payments[known.value].(status := status))
        else AddPayment(s, NewRefund(s, source, refundId, amount, status, "webhook-" + refundId));
      SettledRow(s1, s.payments[source].booking, source, i);
    }
  }
}
