/** Runs from the empty ledger in which the unrestricted properties fail: the conditions elsewhere are needed. */
module Escapes {
  import opened Tables
  import opened Catalogue
  import opened Model
  import opened Payments
  import opened Scheduling
  import opened Bookings
  import opened Technicians
  import opened Operations
  import opened Machine
  import opened Soundness
  import opened OrderProofs
  import opened BalanceProofs
  import opened PendingProofs
  import opened RefundProofs
  import opened TechnicianProofs
  import opened WebhookProtocol

  /** A service for 1000 paise with a deposit of 200. */
  function Cleaning(): Service { Service(1000, None, Fixed, None, 200, 0, false, true, true) }

  function Window(start: int, capacity: int): Slot { Slot(0, 10, start, start + 7200, capacity, true) }

  function Home(): Site { Site(0, true, "", Some(0), true, true, []) }

  /** A new booking of that service in slot `at`. */
  function Booked(customer: nat, at: nat): Booking {
    NewBooking(customer, 0, "", at, 10, 1, Price(1000, 0, 0, 1000, 200))
  }

  function Ledger(slots: seq<Slot>, bookings: seq<Booking>, payments: seq<Payment>, notices: seq<Notice>): State {
    State([Cleaning()], [], slots, bookings, payments, notices)
  }

  lemma OpenStep()
    ensures Next(EmptyLedger(), Desk(SaveService(0, Cleaning()))) == Ledger([], [], [], [])
  {
  }

  lemma SlotStep(capacity: int)
    requires capacity > 0
    ensures Next(Ledger([], [], [], []), Desk(OpenSlot(Window(36000, capacity))))
            == Ledger([Window(36000, capacity)], [], [], [])
  {
  }

  ghost predicate HasPlace(s: State, at: nat) {
    && at < |s.slots| && s.slots[at].area == 0 && s.slots[at].date == 10 && s.slots[at].active
    && Reserved(s, at) < s.slots[at].capacity
  }

  lemma PlaceIsFree(s: State, at: nat)
    requires HasPlace(s, at)
    ensures SlotRefusal(s, at, Home()).None?
  {
    assert |Home().closures| == 0 && !IsSlotExpired(s.slots[at], 0);
    SumNonNegative(s.bookings, PlaceIn(at));
    assert IsSlotBookable(s, at, Home());
  }

  /** Booking goes through while a place is free. */
  lemma BookingSucceeds(s: State, customer: nat, at: nat)
    requires |s.services| > 0 && s.services[0] == Cleaning() && HasPlace(s, at)
    ensures CreateBooking(s, customer, 0, at, 1, Home())
            == Outcome(s.(bookings := s.bookings + [Booked(customer, at)]), BookingReply(|s.bookings|))
  {
    PlaceIsFree(s, at);
    assert SnapshotPrice(Cleaning(), 1) == Some(Price(1000, 0, 0, 1000, 200));
  }

  lemma BookStep(s: State, customer: nat, at: nat)
    requires |s.services| > 0 && s.services[0] == Cleaning() && HasPlace(s, at)
    ensures Next(s, Live(Book(customer, 0, at, 1, Home()))) == s.(bookings := s.bookings + [Booked(customer, at)])
  {
    BookingSucceeds(s, customer, at);
  }

  /** An order for the deposit of a booking that has none yet. */
  lemma OrderStep(s: State, i: nat, key: string, orderId: string)
    requires i < |s.bookings| && s.bookings[i].status.PendingPayment?
    requires forall k :: 0 <= k < |s.payments| ==> s.payments[k].booking != i && s.payments[k].orderId != Some(orderId)
    ensures Next(s, Pay(OrderAdvance(i, s.bookings[i].customer, key, Some(orderId))))
            == AddPayment(s, NewOrder(s.bookings[i], i, key, orderId))
  {
    var row := NewOrder(s.bookings[i], i, key, orderId);
    assert Latest(s.payments, AdvanceKeyed(i, key)).None?;
    assert Latest(s.payments, ActiveAdvanceOf(i)).None?;
    forall k | 0 <= k < |s.payments| ensures !Clash(s.payments[k], row) {}
  }

  /** The failure webhook of an order that was just created. */
  lemma FailStep(s: State, k: nat, orderId: string, paymentId: string)
    requires k < |s.payments| && s.payments[k].orderId == Some(orderId) && s.payments[k].status.Created?
    requires orderId != "" && paymentId != ""
    requires forall j :: 0 <= j < |s.payments| && j != k ==> s.payments[j].orderId != Some(orderId)
    requires forall j :: 0 <= j < |s.payments| && j != k ==>
               !Clash(s.payments[j], s.payments[k]) && s.payments[j].paymentId != Some(paymentId)
    requires s.payments[k].booking < |s.bookings| && s.bookings[s.payments[k].booking].status.PendingPayment?
    ensures var s' := Next(s, Pay(Deliver(FailedPayment(orderId, paymentId))));
            && s'.payments
                == s.payments[k := s.payments[k].(status := RecordStatus.Failed, paymentId := Some(paymentId))]
            && s'.bookings == s.bookings[s.payments[k].booking :=
                 s.bookings[s.payments[k].booking].(status := PaymentFailed, payment := PaymentState.Failed)]
            && s'.slots == s.slots && s'.services == s.services && s'.technicians == s.technicians
  {
    OnlyOrder(s, k, orderId);
  }

  /** A capture of an unpaid order pays it and confirms its booking. */
  lemma CaptureStep(s: State, k: nat, orderId: string, paymentId: string)
    requires k < |s.payments| && s.payments[k].orderId == Some(orderId) && !s.payments[k].status.Success?
    requires orderId != "" && paymentId != ""
    requires forall j :: 0 <= j < |s.payments| && j != k ==> s.payments[j].orderId != Some(orderId)
    requires s.payments[k].booking < |s.bookings|
    requires s.payments[k].amount == s.bookings[s.payments[k].booking].advanceRequired
    requires CanUpdate(s.payments, k, PaidRow(s.payments[k], paymentId))
    ensures var s' := Next(s, Pay(Deliver(Captured(orderId, paymentId, s.payments[k].amount))));
            s' == Confirm(SavePayment(s, k, PaidRow(s.payments[k], paymentId)), s.payments[k].booking,
                          s.payments[k].amount)
  {
    OnlyOrder(s, k, orderId);
  }

  lemma OnlyOrder(s: State, k: nat, orderId: string)
    requires k < |s.payments| && s.payments[k].orderId == Some(orderId)
    requires forall j :: 0 <= j < |s.payments| && j != k ==> s.payments[j].orderId != Some(orderId)
    ensures OrderRow(s, orderId) == Some(k)
  {
    assert WithOrder(orderId)(s.payments[k]);
  }

  // ----- a late payment overfills a slot -----

  /** One place: booked, failed, booked by somebody else, and then the first payment is captured after all. */
  function LatePayment(orderId: string, paymentId: string): seq<Event> {
    [Desk(SaveService(0, Cleaning()))] + [Desk(OpenSlot(Window(36000, 1)))]
    + [Live(Book(1, 0, 0, 1, Home()))] + [Pay(OrderAdvance(0, 1, "advance-1", Some(orderId)))]
    + [Pay(Deliver(FailedPayment(orderId, paymentId)))] + [Live(Book(2, 0, 0, 1, Home()))]
    + [Pay(Deliver(Captured(orderId, paymentId, 200)))]
  }

  lemma LatePaymentOverfills(orderId: string, paymentId: string)
    requires orderId != "" && paymentId != ""
    ensures var s := Run(EmptyLedger(), LatePayment(orderId, paymentId));
            |s.slots| == 1 && s.slots[0].capacity == 1 && Reserved(s, 0) == 2
  {
    var s0 := EmptyLedger();
    var e1, e2 := Desk(SaveService(0, Cleaning())), Desk(OpenSlot(Window(36000, 1)));
    var e3 := Live(Book(1, 0, 0, 1, Home()));
    var e4, e5 := Pay(OrderAdvance(0, 1, "advance-1", Some(orderId))), Pay(Deliver(FailedPayment(orderId, paymentId)));
    var e6, e7 := Live(Book(2, 0, 0, 1, Home())), Pay(Deliver(Captured(orderId, paymentId, 200)));
    OneEventRun(s0, e1);
    RunOneMore(s0, [e1], e2);
    RunOneMore(s0, [e1] + [e2], e3);
    RunOneMore(s0, [e1] + [e2] + [e3], e4);
    RunOneMore(s0, [e1] + [e2] + [e3] + [e4], e5);
    RunOneMore(s0, [e1] + [e2] + [e3] + [e4] + [e5], e6);
    RunOneMore(s0, [e1] + [e2] + [e3] + [e4] + [e5] + [e6], e7);
    OpenStep();
    SlotStep(1);
    LatePaymentOrdered(orderId);
    LatePaymentSteps(orderId, paymentId);
  }

  function Ordered(orderId: string): State {
    Ledger([Window(36000, 1)], [Booked(1, 0)], [NewOrder(Booked(1, 0), 0, "advance-1", orderId)], [])
  }

  lemma LatePaymentOrdered(orderId: string)
    ensures Next(Next(Ledger([Window(36000, 1)], [], [], []), Live(Book(1, 0, 0, 1, Home()))),
                 Pay(OrderAdvance(0, 1, "advance-1", Some(orderId)))) == Ordered(orderId)
  {
    var s2 := Ledger([Window(36000, 1)], [], [], []);
    BookStep(s2, 1, 0);
    OrderStep(s2.(bookings := [Booked(1, 0)]), 0, "advance-1", orderId);
  }

  lemma LatePaymentRebooked(orderId: string, paymentId: string)
    requires orderId != "" && paymentId != ""
    ensures var s5 := Next(Ordered(orderId), Pay(Deliver(FailedPayment(orderId, paymentId))));
            Next(s5, Live(Book(2, 0, 0, 1, Home()))) == s5.(bookings := s5.bookings + [Booked(2, 0)])
  {
    FailStep(Ordered(orderId), 0, orderId, paymentId);
    var s5 := Next(Ordered(orderId), Pay(Deliver(FailedPayment(orderId, paymentId))));
    SumZero(s5.bookings, PlaceIn(0));
    BookStep(s5, 2, 0);
  }

  /** Capturing the only order confirms the first of two bookings, whatever its status was. */
  lemma CaptureTakesPlace(s: State, orderId: string, paymentId: string)
    requires orderId != "" && paymentId != "" && |s.payments| == 1 && |s.bookings| == 2
    requires s.payments[0].orderId == Some(orderId) && !s.payments[0].status.Success? && s.payments[0].booking == 0
    requires s.payments[0].amount == 200 == s.bookings[0].advanceRequired
    requires s.bookings[0].slot == 0 && PlaceIn(0)(s.bookings[1]) == 1
    ensures var s' := Next(s, Pay(Deliver(Captured(orderId, paymentId, 200))));
            s'.slots == s.slots && Reserved(s', 0) == 2
  {
    CaptureStep(s, 0, orderId, paymentId);
    var s' := Next(s, Pay(Deliver(Captured(orderId, paymentId, 200))));
    assert s'.bookings == [s'.bookings[0]] + [s.bookings[1]];
    SumAppend([s'.bookings[0]], s.bookings[1], PlaceIn(0));
    SumOnly([s'.bookings[0]], 0, PlaceIn(0));
  }

  lemma LatePaymentSteps(orderId: string, paymentId: string)
    requires orderId != "" && paymentId != ""
    ensures var s5 := Next(Ordered(orderId), Pay(Deliver(FailedPayment(orderId, paymentId))));
            var s7 := Next(Next(s5, Live(Book(2, 0, 0, 1, Home()))), Pay(Deliver(Captured(orderId, paymentId, 200))));
            |s7.slots| == 1 && s7.slots[0].capacity == 1 && Reserved(s7, 0) == 2
  {
    FailStep(Ordered(orderId), 0, orderId, paymentId);
    LatePaymentRebooked(orderId, paymentId);
    var s5 := Next(Ordered(orderId), Pay(Deliver(FailedPayment(orderId, paymentId))));
    CaptureTakesPlace(Next(s5, Live(Book(2, 0, 0, 1, Home()))), orderId, paymentId);
  }

  // ----- a webhook strands a REFUND_PENDING booking -----

  /** Two paid bookings; the first one's refund is reported with the payment of the second. */
  function CrossedRefund(order1: string, order2: string, paid1: string, paid2: string, refund: string): seq<Event> {
    OrderedTwice(order1, order2)
    + [Pay(Deliver(Captured(order1, paid1, 200)))] + [Pay(Deliver(Captured(order2, paid2, 200)))]
    + [AskRefund("refund-1", refund, "pending")]
  }

  function Report(paid2: string, refund: string): Event { Pay(Deliver(RefundChanged(refund, paid2, "processed", 200))) }

  ghost predicate Ids(order1: string, order2: string, paid1: string, paid2: string, refund: string) {
    order1 != "" && order2 != "" && paid1 != "" && paid2 != "" && refund != "" && order1 != order2 && paid1 != paid2
  }

  function TwoOrders(order1: string, order2: string): State {
    Ledger([Window(36000, 2)], [Booked(1, 0), Booked(2, 0)],
           [NewOrder(Booked(1, 0), 0, "advance-1", order1), NewOrder(Booked(2, 0), 1, "advance-2", order2)], [])
  }

  function TwoBookings(): State { Ledger([Window(36000, 2)], [Booked(1, 0), Booked(2, 0)], [], []) }

  function OneBooking(): State { Ledger([Window(36000, 2)], [Booked(1, 0)], [], []) }

  lemma FirstBooked()
    ensures Next(Ledger([Window(36000, 2)], [], [], []), Live(Book(1, 0, 0, 1, Home()))) == OneBooking()
  {
    BookStep(Ledger([Window(36000, 2)], [], [], []), 1, 0);
  }

  lemma SecondBooked()
    ensures Next(OneBooking(), Live(Book(2, 0, 0, 1, Home()))) == TwoBookings()
  {
    SumOnly(OneBooking().bookings, 0, PlaceIn(0));
    BookStep(OneBooking(), 2, 0);
  }

  lemma TwoBookingsReached()
    ensures Next(Next(Ledger([Window(36000, 2)], [], [], []), Live(Book(1, 0, 0, 1, Home()))),
                 Live(Book(2, 0, 0, 1, Home())))
            == TwoBookings()
  {
    FirstBooked();
    SecondBooked();
  }

  lemma TwoOrdersReached(order1: string, order2: string)
    requires order1 != order2
    ensures Next(Next(TwoBookings(), Pay(OrderAdvance(0, 1, "advance-1", Some(order1)))),
                 Pay(OrderAdvance(1, 2, "advance-2", Some(order2)))) == TwoOrders(order1, order2)
  {
    OrderStep(TwoBookings(), 0, "advance-1", order1);
    OrderStep(AddPayment(TwoBookings(), NewOrder(Booked(1, 0), 0, "advance-1", order1)), 1, "advance-2", order2);
  }

  /** Both deposits are in. */
  ghost predicate BothPaid(s: State, order1: string, order2: string, paid1: string, paid2: string) {
    && |s.bookings| == 2 && s.bookings[0].status.Confirmed? && s.bookings[1].status.Confirmed?
    && s.payments == [PaidRow(NewOrder(Booked(1, 0), 0, "advance-1", order1), paid1),
                      PaidRow(NewOrder(Booked(2, 0), 1, "advance-2", order2), paid2)]
  }

  lemma BothPaidReached(order1: string, order2: string, paid1: string, paid2: string)
    requires Ids(order1, order2, paid1, paid2, "refund")
    ensures BothPaid(Next(Next(TwoOrders(order1, order2), Pay(Deliver(Captured(order1, paid1, 200)))),
                          Pay(Deliver(Captured(order2, paid2, 200)))), order1, order2, paid1, paid2)
  {
    var s := TwoOrders(order1, order2);
    CaptureStep(s, 0, order1, paid1);
    CaptureStep(Next(s, Pay(Deliver(Captured(order1, paid1, 200)))), 1, order2, paid2);
  }

  lemma RefundPendingReached(s: State, order1: string, order2: string, paid1: string, paid2: string, refund: string)
    requires Ids(order1, order2, paid1, paid2, refund) && BothPaid(s, order1, order2, paid1, paid2)
    ensures var s' := Next(s, AskRefund("refund-1", refund, "pending"));
            Backed(s') && Strands(s', Report(paid2, refund))
  {
    var row := NewRefund(s, 0, refund, 200, Pending, "refund-1");
    SumZero(s.payments, OpenRefundOf(0));
    SumZero(s.payments, SettledRefundOf(0));
    AskRefundStep(s, "refund-1", refund, "pending");
    SumAppend(s.payments, row, SettledRefundOf(0));
    ReportStrands(s, Next(s, AskRefund("refund-1", refund, "pending")), row, paid2, refund);
  }

  /** The first booking waits for the last row, the only pending refund; the second payment is named beside it. */
  lemma ReportStrands(s: State, s': State, row: Payment, paid2: string, refund: string)
    requires |s.payments| == 2 && |s.bookings| == 2 && s.bookings[1].status.Confirmed? && refund != "" && paid2 != ""
    requires s.payments[0].kind.BookingAdvance? && s.payments[0].booking == 0
    requires s.payments[1].kind.BookingAdvance? && s.payments[1].booking == 1 && s.payments[1].paymentId == Some(paid2)
    requires s'.payments == s.payments + [row] && s'.bookings == ApplyRefund(AddPayment(s, row), 0, 0).bookings
    requires row == NewRefund(s, 0, refund, 200, Pending, "refund-1")
    requires Sum(s.payments + [row], SettledRefundOf(0)) < s.payments[0].amount
    ensures Backed(s') && Strands(s', Report(paid2, refund))
  {
    var rows := s'.payments;
    assert WaitsFor(rows[2], 0) && WaitingRefund(rows[2], 0);
    assert s'.bookings == s.bookings[0 := s.bookings[0].(status := RefundPending)];
    assert WithPaymentId(paid2)(rows[1]) && WithRefundId(refund)(rows[2]);
    assert Latest(rows, WithPaymentId(paid2)) == Some(1) && Latest(rows, WithRefundId(refund)) == Some(2);
  }

  /** Before the report the booking's pending refund stands behind it; after it, nothing does. */
  lemma CrossedRefundStrands(order1: string, order2: string, paid1: string, paid2: string, refund: string)
    requires Ids(order1, order2, paid1, paid2, refund)
    ensures var run := CrossedRefund(order1, order2, paid1, paid2, refund);
            Backed(Run(EmptyLedger(), run)) && !Backed(Run(EmptyLedger(), run + [Report(paid2, refund)]))
  {
    var s0 := EmptyLedger();
    var run := CrossedRefund(order1, order2, paid1, paid2, refund);
    var ordered := OrderedTwice(order1, order2);
    var paid := ordered + [Pay(Deliver(Captured(order1, paid1, 200)))] + [Pay(Deliver(Captured(order2, paid2, 200)))];
    var requested := AskRefund("refund-1", refund, "pending");
    assert run == paid + [requested];
    TwoOrdersRun(order1, order2);
    TwoMore(s0, ordered, Pay(Deliver(Captured(order1, paid1, 200))), Pay(Deliver(Captured(order2, paid2, 200))));
    BothPaidReached(order1, order2, paid1, paid2);
    RunOneMore(s0, paid, requested);
    RefundPendingReached(Run(s0, paid), order1, order2, paid1, paid2, refund);
    RunOneMore(s0, run, Report(paid2, refund));
    RunSound(s0, run);
    StepBacksIff(Run(s0, run), Report(paid2, refund));
  }

  lemma TwoMore(s: State, run: seq<Event>, d: Event, e: Event)
    ensures Run(s, run + [d] + [e]) == Next(Next(Run(s, run), d), e)
  {
    RunOneMore(s, run, d);
    RunOneMore(s, run + [d], e);
  }

  lemma OpenedReached(capacity: int)
    requires capacity > 0
    ensures Run(EmptyLedger(), [Desk(SaveService(0, Cleaning()))] + [Desk(OpenSlot(Window(36000, capacity)))])
            == Ledger([Window(36000, capacity)], [], [], [])
  {
    OneEventRun(EmptyLedger(), Desk(SaveService(0, Cleaning())));
    RunOneMore(EmptyLedger(), [Desk(SaveService(0, Cleaning()))], Desk(OpenSlot(Window(36000, capacity))));
    OpenStep();
    SlotStep(capacity);
  }

  // ----- a reschedule double-books a technician -----

  /** A technician who takes every job anywhere at any hour. */
  function Anyone(): Technician { Technician(9, true, Verified, true, Availability.Available, {}, {}, "", [], []) }

  function TwoWindows(): seq<Slot> { [Window(36000, 2), Window(43200, 2)] }

  function Staffed(bookings: seq<Booking>, notices: seq<Notice>): State {
    State([Cleaning()], [Anyone()], TwoWindows(), bookings, [], notices)
  }

  function TwoJobs(): seq<Event> {
    [Desk(SaveService(0, Cleaning()))] + [Desk(OpenSlot(Window(36000, 2)))]
    + [Desk(OpenSlot(Window(43200, 2)))] + [Desk(SaveTechnician(0, Anyone()))]
    + [Live(Book(1, 0, 0, 1, Home()))] + [Live(Book(2, 0, 1, 1, Home()))]
    + [Desk(ConvertBooking(0))] + [Desk(ConvertBooking(1))]
    + [Desk(AssignTechnician(0, 0))] + [Desk(AssignTechnician(1, 0))]
  }

  function Move(): LifeEvent { RescheduleBooking(1, 0, 2, Home(), 0) }

  lemma StaffedReached()
    ensures Next(Next(Ledger([Window(36000, 2)], [], [], []), Desk(OpenSlot(Window(43200, 2)))),
                 Desk(SaveTechnician(0, Anyone())))
            == Staffed([], [])
  {
    assert !SameWindow(Window(36000, 2), Window(43200, 2));
  }

  lemma FirstJobBooked()
    ensures Next(Staffed([], []), Live(Book(1, 0, 0, 1, Home()))) == Staffed([Booked(1, 0)], [])
  {
    BookStep(Staffed([], []), 1, 0);
  }

  lemma SecondJobBooked()
    ensures Next(Staffed([Booked(1, 0)], []), Live(Book(2, 0, 1, 1, Home())))
            == Staffed([Booked(1, 0), Booked(2, 1)], [])
  {
    SumZero([Booked(1, 0)], PlaceIn(1));
    BookStep(Staffed([Booked(1, 0)], []), 2, 1);
  }

  lemma TwoJobsBooked()
    ensures Next(Next(Staffed([], []), Live(Book(1, 0, 0, 1, Home()))), Live(Book(2, 0, 1, 1, Home())))
            == Staffed([Booked(1, 0), Booked(2, 1)], [])
  {
    FirstJobBooked();
    SecondJobBooked();
  }

  lemma TwoJobsConverted()
    ensures Next(Next(Staffed([Booked(1, 0), Booked(2, 1)], []), Desk(ConvertBooking(0))), Desk(ConvertBooking(1)))
            == Staffed([Converted(Booked(1, 0)), Converted(Booked(2, 1))], [])
  {
  }

  function Assigned(b: Booking): Booking {
    b.(assignments := b.assignments + [Assignment(0, true)], technician := Some(9), status := TechnicianAssigned,
       history := b.history + [Hop(Some(b.status), TechnicianAssigned)])
  }

  lemma AssignStep(bookings: seq<Booking>, notices: seq<Notice>, i: nat)
    requires i < |bookings| && bookings[i].slot < 2 && bookings[i].status.Confirmed? && bookings[i].assignments == []
    requires !HasOverlap(Staffed(bookings, notices), 9, i, TwoWindows()[bookings[i].slot])
    ensures Next(Staffed(bookings, notices), Desk(AssignTechnician(i, 0)))
            == Staffed(bookings[i := Assigned(bookings[i])], notices + [Notice(TechnicianAssignedNotice, i)])
  {
    EmptyErrorsIff(Staffed(bookings, notices), Anyone(), i);
    AssignSucceeds(Staffed(bookings, notices), i, 0);
  }

  lemma AssignSucceeds(s: State, i: nat, technician: nat)
    requires i < |s.bookings| && s.bookings[i].slot < |s.slots| && s.bookings[i].status.Confirmed?
    requires technician < |s.technicians| && s.bookings[i].assignments == []
    requires EligibilityErrors(s, s.technicians[technician], i) == []
    ensures var b := s.bookings[i];
            var b' := b.(assignments := b.assignments + [Assignment(technician, true)],
                         technician := Some(s.technicians[technician].user), status := TechnicianAssigned,
                         history := b.history + [Hop(Some(b.status), TechnicianAssigned)]);
            Assign(s, i, technician).state == Emit(SaveBooking(s, i, b'), TechnicianAssignedNotice, i)
  {
  }

  function BothAssigned(): State {
    Staffed([Assigned(Converted(Booked(1, 0))), Assigned(Converted(Booked(2, 1)))],
            [Notice(TechnicianAssignedNotice, 0), Notice(TechnicianAssignedNotice, 1)])
  }

  function OneAssigned(): State {
    Staffed([Assigned(Converted(Booked(1, 0))), Converted(Booked(2, 1))], [Notice(TechnicianAssignedNotice, 0)])
  }

  lemma FirstAssigned()
    ensures Next(Staffed([Converted(Booked(1, 0)), Converted(Booked(2, 1))], []), Desk(AssignTechnician(0, 0)))
            == OneAssigned()
  {
    AssignStep([Converted(Booked(1, 0)), Converted(Booked(2, 1))], [], 0);
  }

  lemma SecondAssigned()
    ensures Next(OneAssigned(), Desk(AssignTechnician(1, 0))) == BothAssigned()
  {
    AssignStep([Assigned(Converted(Booked(1, 0))), Converted(Booked(2, 1))], [Notice(TechnicianAssignedNotice, 0)], 1);
  }

  lemma TwoJobsAssigned()
    ensures Next(Next(Staffed([Converted(Booked(1, 0)), Converted(Booked(2, 1))], []), Desk(AssignTechnician(0, 0))),
                 Desk(AssignTechnician(1, 0))) == BothAssigned()
  {
    FirstAssigned();
    SecondAssigned();
  }

  lemma TheMoveOverlaps()
    ensures NobodyDoubleBooked(BothAssigned()) && StepLife(BothAssigned(), Move()).Committed()
    ensures !MovesIntoFreeWindow(BothAssigned(), Live(Move()))
  {
    var s := BothAssigned();
    assert Overlapping(s, 0, 9, s.slots[0]);
    SumOnly(s.bookings, 0, PlaceIn(0));
    assert AvailableCapacity(s, 0) > 0 && |Home().closures| == 0 && !IsSlotExpired(s.slots[0], 0);
    assert IsSlotBookable(s, 0, Home());
  }

  /** The technician's two jobs are apart until one of them is moved into the other's window. */
  lemma RescheduleDoubleBooks()
    ensures NobodyDoubleBooked(Run(EmptyLedger(), TwoJobs()))
    ensures !NobodyDoubleBooked(Run(EmptyLedger(), TwoJobs() + [Live(Move())]))
  {
    var s0 := EmptyLedger();
    var opening := [Desk(SaveService(0, Cleaning()))] + [Desk(OpenSlot(Window(36000, 2)))];
    var staffed := opening + [Desk(OpenSlot(Window(43200, 2)))] + [Desk(SaveTechnician(0, Anyone()))];
    var booked := staffed + [Live(Book(1, 0, 0, 1, Home()))] + [Live(Book(2, 0, 1, 1, Home()))];
    var converted := booked + [Desk(ConvertBooking(0))] + [Desk(ConvertBooking(1))];
    OpenedReached(2);
    TwoMore(s0, opening, Desk(OpenSlot(Window(43200, 2))), Desk(SaveTechnician(0, Anyone())));
    StaffedReached();
    TwoMore(s0, staffed, Live(Book(1, 0, 0, 1, Home())), Live(Book(2, 0, 1, 1, Home())));
    TwoJobsBooked();
    TwoMore(s0, booked, Desk(ConvertBooking(0)), Desk(ConvertBooking(1)));
    TwoJobsConverted();
    TwoMore(s0, converted, Desk(AssignTechnician(0, 0)), Desk(AssignTechnician(1, 0)));
    TwoJobsAssigned();
    RunSound(s0, TwoJobs());
    TheMoveOverlaps();
    RunOneMore(s0, TwoJobs(), Live(Move()));
    RescheduleKeepsFreeIff(BothAssigned(), Move());
  }

  // ----- a quote below nothing -----

  function Underquoted(): DeskEvent { ConvertLead(1, 0, 0, Home(), Some(-1), None) }

  lemma UnderquotedCommits(s: State)
    requires s == Ledger([Window(36000, 1)], [], [], [])
    ensures ConvertNew(s, 1, 0, 0, Home(), Some(-1), None).Committed() && Balanced(s)
    ensures !QuotesHold(s, Desk(Underquoted()))
  {
    BookingSucceeds(s, 1, 0);
  }

  lemma UnderquotedUnbalances(s: State)
    requires Sound(s) && Balanced(s) && !QuotesHold(s, Desk(Underquoted()))
    requires ConvertNew(s, 1, 0, 0, Home(), Some(-1), None).Committed()
    ensures !Balanced(Next(s, Desk(Underquoted())))
  {
    QuoteDecidesBalance(s, 1, 0, 0, Home(), Some(-1), None);
  }

  /** A lead quoted at one paisa below nothing owes less than nothing once converted. */
  lemma NegativeQuoteUnbalances()
    ensures !Balanced(Run(EmptyLedger(), [Desk(SaveService(0, Cleaning()))] + [Desk(OpenSlot(Window(36000, 1)))]
                          + [Desk(Underquoted())]))
  {
    var opening := [Desk(SaveService(0, Cleaning()))] + [Desk(OpenSlot(Window(36000, 1)))];
    OpenedReached(1);
    RunSound(EmptyLedger(), opening);
    RunOneMore(EmptyLedger(), opening, Desk(Underquoted()));
    UnderquotedCommits(Run(EmptyLedger(), opening));
    UnderquotedUnbalances(Run(EmptyLedger(), opening));
  }

  // ----- a payment id stored on the wrong order blocks a payment -----

  /** The customer of the first booking has a bad signature refused, under the second order's payment id. */
  function BadSignature(order1: string, paid2: string): Event { Pay(VerifyPayment(order1, paid2, false, Some(1))) }

  function BorrowedId(order1: string, order2: string, paid2: string): seq<Event> {
    OrderedTwice(order1, order2) + [BadSignature(order1, paid2)]
  }

  lemma BadSignatureStores(order1: string, order2: string, paid2: string)
    requires order1 != order2 && paid2 != ""
    ensures var s := TwoOrders(order1, order2);
            var s' := Next(s, BadSignature(order1, paid2));
            s'.payments == [FailedRow(s.payments[0], paid2), s.payments[1]] && |s'.bookings| == 2
            && s'.bookings[1] == s.bookings[1]
  {
    OnlyOrder(TwoOrders(order1, order2), 0, order1);
  }

  /** From then on no capture of the second order, by client or webhook, changes anything. */
  lemma BorrowedIdBlocksPayment(order1: string, order2: string, paid2: string, e: Event)
    requires order1 != order2 && paid2 != "" && About(e, order2) && GatewayId(e) == paid2 && ValidCapture(e, 2, 200)
    ensures var s := Run(EmptyLedger(), BorrowedId(order1, order2, paid2));
            && Run(EmptyLedger(), BorrowedId(order1, order2, paid2) + [e]) == s
            && |s.payments| == 2 && s.payments[1].status.Created?
            && |s.bookings| == 2 && s.bookings[1].status.PendingPayment?
  {
    var s0, run := EmptyLedger(), BorrowedId(order1, order2, paid2);
    TwoOrdersRun(order1, order2);
    RunOneMore(s0, OrderedTwice(order1, order2), BadSignature(order1, paid2));
    BadSignatureStores(order1, order2, paid2);
    RunSound(s0, run);
    RunOneMore(s0, run, e);
    assert !OwnId(Run(s0, run), 1, e) by {
      assert Run(s0, run).payments[0].paymentId == Some(paid2);
    }
    CaptureSucceedsIff(Run(s0, run), 1, order2, e);
  }

  function OrderedTwice(order1: string, order2: string): seq<Event> {
    [Desk(SaveService(0, Cleaning()))] + [Desk(OpenSlot(Window(36000, 2)))]
    + [Live(Book(1, 0, 0, 1, Home()))] + [Live(Book(2, 0, 0, 1, Home()))]
    + [Pay(OrderAdvance(0, 1, "advance-1", Some(order1)))] + [Pay(OrderAdvance(1, 2, "advance-2", Some(order2)))]
  }

  lemma TwoOrdersRun(order1: string, order2: string)
    requires order1 != order2
    ensures Run(EmptyLedger(), OrderedTwice(order1, order2)) == TwoOrders(order1, order2)
  {
    var s0 := EmptyLedger();
    var opening := [Desk(SaveService(0, Cleaning()))] + [Desk(OpenSlot(Window(36000, 2)))];
    var booked := opening + [Live(Book(1, 0, 0, 1, Home()))] + [Live(Book(2, 0, 0, 1, Home()))];
    OpenedReached(2);
    TwoMore(s0, opening, Live(Book(1, 0, 0, 1, Home())), Live(Book(2, 0, 0, 1, Home())));
    TwoBookingsReached();
    TwoMore(s0, booked, Pay(OrderAdvance(0, 1, "advance-1", Some(order1))),
            Pay(OrderAdvance(1, 2, "advance-2", Some(order2))));
    TwoOrdersReached(order1, order2);
  }

  // ----- a revived refund exceeds its payment -----

  /** One paid booking in a slot with one place. */
  function PaidOnce(orderId: string, paid: string): seq<Event> {
    [Desk(SaveService(0, Cleaning()))] + [Desk(OpenSlot(Window(36000, 1)))]
    + [Live(Book(1, 0, 0, 1, Home()))] + [Pay(OrderAdvance(0, 1, "advance-1", Some(orderId)))]
    + [Pay(Deliver(Captured(orderId, paid, 200)))]
  }

  ghost predicate OnePaid(s: State, orderId: string, paid: string) {
    && s.services == [Cleaning()] && s.slots == [Window(36000, 1)]
    && |s.bookings| == 1 && s.bookings[0].status.Confirmed? && s.bookings[0].slot == 0 && !s.bookings[0].cancelled
    && s.payments == [PaidRow(NewOrder(Booked(1, 0), 0, "advance-1", orderId), paid)]
  }

  lemma OnePaidRun(orderId: string, paid: string)
    requires orderId != "" && paid != ""
    ensures OnePaid(Run(EmptyLedger(), PaidOnce(orderId, paid)), orderId, paid)
  {
    var s0 := EmptyLedger();
    var opening := [Desk(SaveService(0, Cleaning()))] + [Desk(OpenSlot(Window(36000, 1)))];
    var ordered := opening + [Live(Book(1, 0, 0, 1, Home()))] + [Pay(OrderAdvance(0, 1, "advance-1", Some(orderId)))];
    OpenedReached(1);
    TwoMore(s0, opening, Live(Book(1, 0, 0, 1, Home())), Pay(OrderAdvance(0, 1, "advance-1", Some(orderId))));
    LatePaymentOrdered(orderId);
    RunOneMore(s0, ordered, Pay(Deliver(Captured(orderId, paid, 200))));
    CaptureStep(Ordered(orderId), 0, orderId, paid);
  }

  function AskRefund(key: string, refund: string, text: string): Event {
    Pay(RequestRefund(0, 200, key, Some(ProviderRefund(refund, text))))
  }

  /** A refund of the whole payment, pending or failed at once, is recorded while nothing is outstanding. */
  lemma AskRefundStep(s: State, key: string, refund: string, text: string)
    requires |s.payments| > 0 && s.payments[0].kind.BookingAdvance? && s.payments[0].status.Success?
    requires s.payments[0].amount == 200
    requires s.payments[0].booking == 0 && |s.bookings| > 0 && s.payments[0].paymentId !in {None, Some("")}
    requires Sum(s.payments, OpenRefundOf(0)) == 0 && Sum(s.payments, SettledRefundOf(0)) == 0
    requires forall j :: 0 <= j < |s.payments| ==> !RefundKeyed(0, key)(s.payments[j])
    requires CanInsert(s.payments, NewRefund(s, 0, refund, 200, RefundStatus(text), key)) && text != "processed"
    ensures var s' := Next(s, AskRefund(key, refund, text));
            var row := NewRefund(s, 0, refund, 200, RefundStatus(text), key);
            && s'.payments == s.payments + [row]
            && s'.bookings == ApplyRefund(AddPayment(s, row), 0, 0).bookings
            && s'.slots == s.slots && s'.services == s.services
  {
    var row := NewRefund(s, 0, refund, 200, RefundStatus(text), key);
    assert Latest(s.payments, RefundKeyed(0, key)).None?;
    SumAppend(s.payments, row, SettledRefundOf(0));
  }

  /** The first refund fails, the second is under way, and then the provider reports the first as processed. */
  function TwoRefunds(orderId: string, paid: string, refund1: string, refund2: string): seq<Event> {
    PaidOnce(orderId, paid) + [AskRefund("refund-1", refund1, "failed")] + [AskRefund("refund-2", refund2, "pending")]
  }

  ghost predicate TwiceAsked(s: State, refund1: string) {
    && |s.payments| == 3 && s.payments[0].amount == 200 && Outstanding(s, 0) == 200
    && FailedRefundOf(s, 1, 0) && s.payments[1].amount == 200 && s.payments[1].refundId == Some(refund1)
  }

  lemma FirstRefundFails(s: State, orderId: string, paid: string, refund1: string)
    requires OnePaid(s, orderId, paid) && paid != ""
    ensures var s' := Next(s, AskRefund("refund-1", refund1, "failed"));
            s'.payments == s.payments + [NewRefund(s, 0, refund1, 200, RecordStatus.Failed, "refund-1")]
                && |s'.bookings| == 1
  {
    SumZero(s.payments, OpenRefundOf(0));
    SumZero(s.payments, SettledRefundOf(0));
    AskRefundStep(s, "refund-1", refund1, "failed");
  }

  lemma SecondRefundPends(s: State, s0: State, orderId: string, paid: string, refund1: string, refund2: string)
    requires OnePaid(s0, orderId, paid) && paid != "" && refund1 != refund2 && |s.bookings| == 1
    requires s.payments == s0.payments + [NewRefund(s0, 0, refund1, 200, RecordStatus.Failed, "refund-1")]
    ensures TwiceAsked(Next(s, AskRefund("refund-2", refund2, "pending")), refund1)
  {
    SumZero(s.payments, OpenRefundOf(0));
    SumZero(s.payments, SettledRefundOf(0));
    AskRefundStep(s, "refund-2", refund2, "pending");
    SumAppend(s.payments, NewRefund(s, 0, refund2, 200, Pending, "refund-2"), OpenRefundOf(0));
  }

  lemma RevivedRefundExceedsPayment(orderId: string, paid: string, refund1: string, refund2: string)
    requires orderId != "" && paid != "" && refund1 != "" && refund1 != refund2
    ensures var run := TwoRefunds(orderId, paid, refund1, refund2);
            && WithinBudget(Run(EmptyLedger(), run), 0, 0)
            && !WithinBudget(Run(EmptyLedger(), run + [Pay(ReconcileRefund(1, Some("processed")))]), 0, 0)
  {
    var s0, run := EmptyLedger(), TwoRefunds(orderId, paid, refund1, refund2);
    OnePaidRun(orderId, paid);
    TwoMore(s0, PaidOnce(orderId, paid), AskRefund("refund-1", refund1, "failed"),
            AskRefund("refund-2", refund2, "pending"));
    var s := Run(s0, PaidOnce(orderId, paid));
    FirstRefundFails(s, orderId, paid, refund1);
    SecondRefundPends(Next(s, AskRefund("refund-1", refund1, "failed")), s, orderId, paid, refund1, refund2);
    RunSound(s0, run);
    RunOneMore(s0, run, Pay(ReconcileRefund(1, Some("processed"))));
    ReconcileIsTheStep(Run(s0, run), 1, "processed");
    RevivalFitsIff(Run(s0, run), 1, "processed", 0);
  }

  lemma ReconcileIsTheStep(s: State, refund: nat, text: string)
    ensures Next(s, Pay(ReconcileRefund(refund, Some(text)))) == Reconcile(s, refund, Some(text)).state
  {
  }

  // ----- the other two ways to overfill a slot -----

  /** Two bookings reserve the only place of the only slot. */
  ghost predicate Overfilled(s: State) { |s.slots| == 1 && s.slots[0].capacity == 1 && Reserved(s, 0) == 2 }

  lemma BothReserve(s: State)
    requires s.slots == [Window(36000, 1)] && |s.bookings| == 2
    requires PlaceIn(0)(s.bookings[0]) == 1 && PlaceIn(0)(s.bookings[1]) == 1
    ensures Overfilled(s)
  {
    assert s.bookings == [s.bookings[0]] + [s.bookings[1]];
    SumAppend([s.bookings[0]], s.bookings[1], PlaceIn(0));
    SumOnly([s.bookings[0]], 0, PlaceIn(0));
  }

  /** The only booking has given its place up; somebody else takes it. */
  lemma PlaceTakenOver(s: State)
    requires s.services == [Cleaning()] && s.slots == [Window(36000, 1)] && |s.bookings| == 1
    requires !Reserves(s.bookings[0].status)
    ensures Next(s, Live(Book(2, 0, 0, 1, Home()))) == s.(bookings := s.bookings + [Booked(2, 0)])
  {
    SumZero(s.bookings, PlaceIn(0));
    BookStep(s, 2, 0);
  }

  /** A cancelled booking's place is booked by somebody else, and the first booking becomes a work order after all. */
  function LateConversion(): seq<Event> {
    [Desk(SaveService(0, Cleaning()))] + [Desk(OpenSlot(Window(36000, 1)))]
    + [Live(Book(1, 0, 0, 1, Home()))] + [Live(CancelBooking(0, Admin, 0, 0))]
    + [Live(Book(2, 0, 0, 1, Home()))] + [Desk(ConvertBooking(0))]
  }

  lemma BookedAndCancelled()
    ensures var s := Next(Next(Ledger([Window(36000, 1)], [], [], []), Live(Book(1, 0, 0, 1, Home()))),
                          Live(CancelBooking(0, Admin, 0, 0)));
            && s.services == [Cleaning()] && s.slots == [Window(36000, 1)]
            && |s.bookings| == 1 && s.bookings[0].status.Cancelled? && s.bookings[0].slot == 0
  {
    BookStep(Ledger([Window(36000, 1)], [], [], []), 1, 0);
  }

  lemma ConversionTakesPlace(s: State)
    requires s.slots == [Window(36000, 1)] && |s.bookings| == 2
    requires s.bookings[0].slot == 0 && PlaceIn(0)(s.bookings[1]) == 1
    ensures Overfilled(Next(s, Desk(ConvertBooking(0))))
  {
    BothReserve(Next(s, Desk(ConvertBooking(0))));
  }

  lemma ConversionOverfills()
    ensures Overfilled(Run(EmptyLedger(), LateConversion()))
  {
    var s0 := EmptyLedger();
    var opening := [Desk(SaveService(0, Cleaning()))] + [Desk(OpenSlot(Window(36000, 1)))];
    var cancelled := opening + [Live(Book(1, 0, 0, 1, Home()))] + [Live(CancelBooking(0, Admin, 0, 0))];
    OpenedReached(1);
    TwoMore(s0, opening, Live(Book(1, 0, 0, 1, Home())), Live(CancelBooking(0, Admin, 0, 0)));
    BookedAndCancelled();
    TwoMore(s0, cancelled, Live(Book(2, 0, 0, 1, Home())), Desk(ConvertBooking(0)));
    PlaceTakenOver(Run(s0, cancelled));
    ConversionTakesPlace(Next(Run(s0, cancelled), Live(Book(2, 0, 0, 1, Home()))));
  }

  /** While a refund is pending somebody else books the place; then the refund fails. */
  function FailedRefund(orderId: string, paid: string, refund: string): seq<Event> {
    PaidOnce(orderId, paid) + [AskRefund("refund-1", refund, "pending")]
    + [Live(Book(2, 0, 0, 1, Home()))] + [Pay(ReconcileRefund(1, Some("failed")))]
  }

  lemma RefundPends(s: State, orderId: string, paid: string, refund: string)
    requires OnePaid(s, orderId, paid) && paid != ""
    ensures var s' := Next(s, AskRefund("refund-1", refund, "pending"));
            && s'.payments == s.payments + [NewRefund(s, 0, refund, 200, Pending, "refund-1")]
            && s'.bookings == [s.bookings[0].(status := RefundPending)]
            && s'.slots == s.slots && s'.services == s.services
  {
    var row := NewRefund(s, 0, refund, 200, Pending, "refund-1");
    SumZero(s.payments, OpenRefundOf(0));
    SumZero(s.payments, SettledRefundOf(0));
    AskRefundStep(s, "refund-1", refund, "pending");
    SumAppend(s.payments, row, SettledRefundOf(0));
    assert WaitsFor((s.payments + [row])[1], 0);
  }

  lemma RefundFails(s: State, refund: string)
    requires |s.payments| == 2 && s.payments[0].amount == 200 && s.payments[0].parent.None?
    requires s.payments[1].kind.Refund? && s.payments[1].parent == Some(0)
    requires s.payments[1].refundId == Some(refund) && refund != ""
    requires s.payments[1].booking == 0 && |s.bookings| == 2 && s.bookings[0].status.RefundPending?
    requires !s.bookings[0].cancelled
    ensures var s' := Next(s, Pay(ReconcileRefund(1, Some("failed"))));
            && s'.bookings == [s.bookings[0].(status := Confirmed), s.bookings[1]]
            && s'.slots == s.slots
  {
    var rows := s.payments[1 := s.payments[1].(status := RecordStatus.Failed)];
    SumZero(rows, SettledRefundOf(0));
    assert !HasWaitingRefund(rows, 0);
  }

  lemma FailedRefundOverfills(orderId: string, paid: string, refund: string)
    requires orderId != "" && paid != "" && refund != ""
    ensures Overfilled(Run(EmptyLedger(), FailedRefund(orderId, paid, refund)))
  {
    var s0 := EmptyLedger();
    var pending := PaidOnce(orderId, paid) + [AskRefund("refund-1", refund, "pending")];
    OnePaidRun(orderId, paid);
    RunOneMore(s0, PaidOnce(orderId, paid), AskRefund("refund-1", refund, "pending"));
    RefundPends(Run(s0, PaidOnce(orderId, paid)), orderId, paid, refund);
    TwoMore(s0, pending, Live(Book(2, 0, 0, 1, Home())), Pay(ReconcileRefund(1, Some("failed"))));
    PlaceTakenOver(Run(s0, pending));
    RefundFails(Next(Run(s0, pending), Live(Book(2, 0, 0, 1, Home()))), refund);
    BothReserve(Run(s0, FailedRefund(orderId, paid, refund)));
  }

  // ----- a late exception overwrites PROCESSED -----

  /**
   * The capture arrives before the order is recorded: the first worker raises, the second succeeds, the first reports.
   */
  lemma EarlyCaptureLosesProcessed(now: int, orderId: string, paid: string)
    requires orderId != "" && paid != ""
    ensures var i := NewInbox(now, Run(EmptyLedger(), OneBooked()));
            var moves := Overtaken(Pay(OrderAdvance(0, 1, "advance-1", Some(orderId))));
            var w := Captured(orderId, paid, 200);
            && IsProcessed(WebhookProtocol.Play(i, moves, w))
            && !IsProcessed(WebhookProtocol.Play(i, moves + [Finish(0)], w))
  {
    var s := Ledger([Window(36000, 1)], [Booked(1, 0)], [], []);
    OneBookedRun();
    assert OrderRow(s, orderId).None?;
    OrderStep(s, 0, "advance-1", orderId);
    CaptureCommits(Ordered(orderId), orderId, paid);
    LateExceptionOverwrites(now, s, Pay(OrderAdvance(0, 1, "advance-1", Some(orderId))), Captured(orderId, paid, 200));
  }

  lemma CaptureCommits(s: State, orderId: string, paid: string)
    requires s == Ordered(orderId) && orderId != "" && paid != ""
    ensures Dispatch(s, Captured(orderId, paid, 200)).Committed()
  {
    OnlyOrder(s, 0, orderId);
  }

  function OneBooked(): seq<Event> {
    [Desk(SaveService(0, Cleaning()))] + [Desk(OpenSlot(Window(36000, 1)))] + [Live(Book(1, 0, 0, 1, Home()))]
  }

  lemma OneBookedRun()
    ensures Run(EmptyLedger(), OneBooked()) == Ledger([Window(36000, 1)], [Booked(1, 0)], [], [])
  {
    var opening := [Desk(SaveService(0, Cleaning()))] + [Desk(OpenSlot(Window(36000, 1)))];
    OpenedReached(1);
    RunOneMore(EmptyLedger(), opening, Live(Book(1, 0, 0, 1, Home())));
    BookStep(Ledger([Window(36000, 1)], [], [], []), 1, 0);
  }

  // ----- a refunded payment is paid again, or fails -----

  /** A paid booking whose whole deposit was refunded at once. */
  function RefundedOnce(orderId: string, paid: string, refund: string): seq<Event> {
    PaidOnce(orderId, paid) + [AskRefund("refund-1", refund, "processed")]
  }

  ghost predicate WholeRefund(s: State, orderId: string, paid: string) {
    && |s.payments| == 2 && IsRefunded(s, 0) && s.payments[0].amount == 200 && s.payments[0].booking == 0
    && s.payments[0].orderId == Some(orderId) && s.payments[0].paymentId == Some(paid)
    && s.payments[1].kind.Refund? && s.payments[1].paymentId.None?
    && |s.bookings| == 1 && s.bookings[0].status.Refunded?
  }

  lemma WholeRefundStep(s: State, orderId: string, paid: string, refund: string)
    requires OnePaid(s, orderId, paid) && paid != ""
    ensures WholeRefund(Next(s, AskRefund("refund-1", refund, "processed")), orderId, paid)
  {
    var row := NewRefund(s, 0, refund, 200, Success, "refund-1");
    SumZero(s.payments, OpenRefundOf(0));
    SumZero(s.payments, SettledRefundOf(0));
    assert Latest(s.payments, RefundKeyed(0, "refund-1")).None?;
    SumAppend(s.payments, row, SettledRefundOf(0));
  }

  lemma WholeRefundRun(orderId: string, paid: string, refund: string)
    requires orderId != "" && paid != ""
    ensures WholeRefund(Run(EmptyLedger(), RefundedOnce(orderId, paid, refund)), orderId, paid)
    ensures Sound(Run(EmptyLedger(), RefundedOnce(orderId, paid, refund)))
  {
    OnePaidRun(orderId, paid);
    RunOneMore(EmptyLedger(), PaidOnce(orderId, paid), AskRefund("refund-1", refund, "processed"));
    WholeRefundStep(Run(EmptyLedger(), PaidOnce(orderId, paid)), orderId, paid, refund);
    RunSound(EmptyLedger(), RefundedOnce(orderId, paid, refund));
  }

  /** The capture webhook is delivered again after the refund: the payment is SUCCESS, the booking CONFIRMED. */
  lemma RefundedIsPaidAgain(orderId: string, paid: string, refund: string)
    requires orderId != "" && paid != ""
    ensures IsRefunded(Run(EmptyLedger(), RefundedOnce(orderId, paid, refund)), 0)
    ensures var run := RefundedOnce(orderId, paid, refund) + [Pay(Deliver(Captured(orderId, paid, 200)))];
            var s := Run(EmptyLedger(), run);
            && |s.payments| > 0 && s.payments[0].status.Success?
            && |s.bookings| > 0 && s.bookings[0].status.Confirmed?
  {
    var run, again := RefundedOnce(orderId, paid, refund), Pay(Deliver(Captured(orderId, paid, 200)));
    WholeRefundRun(orderId, paid, refund);
    RunOneMore(EmptyLedger(), run, again);
    assert PaysAgain(Run(EmptyLedger(), run), again, 0);
    RefundedStaysIff(Run(EmptyLedger(), run), again, 0);
  }

  /** A failure webhook arrives after the refund: the payment is FAILED. */
  lemma RefundedFailsAgain(orderId: string, paid: string, refund: string)
    requires orderId != "" && paid != ""
    ensures IsRefunded(Run(EmptyLedger(), RefundedOnce(orderId, paid, refund)), 0)
    ensures var run := RefundedOnce(orderId, paid, refund) + [Pay(Deliver(FailedPayment(orderId, paid)))];
            var s := Run(EmptyLedger(), run);
            |s.payments| > 0 && s.payments[0].status.Failed?
  {
    var run, failure := RefundedOnce(orderId, paid, refund), Pay(Deliver(FailedPayment(orderId, paid)));
    WholeRefundRun(orderId, paid, refund);
    RunOneMore(EmptyLedger(), run, failure);
    assert FailsAgain(Run(EmptyLedger(), run), failure, 0);
    RefundedStaysIff(Run(EmptyLedger(), run), failure, 0);
  }
}
