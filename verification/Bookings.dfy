/** apps/bookings/services.py: creating a booking and moving it through its life. */
module Bookings {
  import opened Tables
  import opened Catalogue
  import opened Model
  import opened Scheduling

  /** `create_booking`: the service, the address and the slot are checked in this order. */
  function CreateBooking(s: State, customer: nat, service: nat, slot: nat, quantity: nat, site: Site): Outcome {
    if service >= |s.services| || !s.services[service].Available() then Refuse(s, ServiceUnavailable) else
    if !site.addressOk then Refuse(s, AddressUnknown) else
    var refusal := SlotRefusal(s, slot, site);
    if refusal.Some? then Refuse(s, refusal.value) else
    var price := SnapshotPrice(s.services[service], quantity);
    if price.None? then Refuse(s, NotPriceable) else
    var b := NewBooking(customer, service, site.postalCode, slot, s.slots[slot].date, quantity, price.value);
    Outcome(s.(bookings := s.bookings + [b]), BookingReply(|s.bookings|))
  }

  function NewBooking(customer: nat, service: nat, postalCode: string, slot: nat, date: int, quantity: nat,
                      price: Price): Booking {
    Booking(customer, service, postalCode, slot, date, quantity, price.subtotal, price.discount, price.training,
            price.total, price.advance, 0, price.total, 0, PendingPayment, Unpaid, None, false, false,
            [Hop(None, PendingPayment)], [])
  }

  /** `_transition_booking`: a new status and the history row that records it. */
  function Moved(b: Booking, to: BookingStatus): Booking {
    b.(status := to, history := b.history + [Hop(Some(b.status), to)])
  }

  function Start(s: State, i: nat): Outcome {
    if i >= |s.bookings| then Refuse(s, NotFound) else
    var b := s.bookings[i];
    if b.status !in {TechnicianAssigned, TechnicianEnRoute} then Refuse(s, WrongStatus) else
    if b.technician.None? then Refuse(s, NoTechnician) else
    Outcome(SaveBooking(s, i, Moved(b, InProgress)), Done)
  }

  function MarkEnRoute(s: State, i: nat): Outcome {
    if i >= |s.bookings| then Refuse(s, NotFound) else
    var b := s.bookings[i];
    if b.status != TechnicianAssigned then Refuse(s, WrongStatus) else
    Outcome(Emit(SaveBooking(s, i, Moved(b, TechnicianEnRoute)), EnRouteNotice, i), Done)
  }

  /** `requireBalance` is the setting BOOKING_REQUIRE_BALANCE_BEFORE_COMPLETION. */
  function Complete(s: State, i: nat, requireBalance: bool): Outcome {
    if i >= |s.bookings| then Refuse(s, NotFound) else
    var b := s.bookings[i];
    if b.status != InProgress then Refuse(s, WrongStatus) else
    if b.technician.None? then Refuse(s, NoTechnician) else
    if requireBalance && b.balanceCollected < b.balanceDue then Refuse(s, BalanceOutstanding) else
    Outcome(Emit(SaveBooking(s, i, Moved(b, Completed)), ServiceCompletedNotice, i), Done)
  }

  function Close(s: State, i: nat): Outcome {
    if i >= |s.bookings| then Refuse(s, NotFound) else
    var b := s.bookings[i];
    if b.status != Completed then Refuse(s, WrongStatus) else
    Outcome(SaveBooking(s, i, Moved(b, Closed)), Done)
  }

  datatype Actor = Admin | Customer

  predicate Cancellable(status: BookingStatus, actor: Actor) {
    match actor
    case Admin =>
      status in {PendingPayment, PaymentFailed, Confirmed, TechnicianAssigned, TechnicianEnRoute, InProgress}
    case Customer => status in {PendingPayment, Confirmed, TechnicianAssigned}
  }

  /** `_validate_policy_window` refuses once the service starts in less than `minHours`. */
  predicate InsideWindow(s: State, b: Booking, now: int, minHours: int)
    requires b.slot < |s.slots|
  {
    b.serviceDate * SECONDS_PER_DAY + s.slots[b.slot].start - now < minHours * 3600
  }

  function Cancel(s: State, i: nat, actor: Actor, now: int, minHours: int): Outcome {
    if i >= |s.bookings| || s.bookings[i].slot >= |s.slots| then Refuse(s, NotFound) else
    var b := s.bookings[i];
    if !Cancellable(b.status, actor) then Refuse(s, WrongStatus) else
    if actor.Customer? && InsideWindow(s, b, now, minHours) then Refuse(s, TooLate) else
    Outcome(Emit(SaveBooking(s, i, Moved(b, Cancelled).(cancelled := true)), BookingCancelledNotice, i), Done)
  }

  function Reschedule(s: State, i: nat, slot: nat, user: nat, site: Site, minHours: int): Outcome {
    if i >= |s.bookings| || s.bookings[i].slot >= |s.slots| then Refuse(s, NotFound) else
    var b := s.bookings[i];
    if b.customer != user then Refuse(s, WrongCustomer) else
    if b.status !in {Confirmed, TechnicianAssigned} then Refuse(s, WrongStatus) else
    if InsideWindow(s, b, site.now, minHours) then Refuse(s, TooLate) else
    var refusal := SlotRefusal(s, slot, site);
    if refusal.Some? then Refuse(s, refusal.value) else
    var b' := Moved(b, b.status).(slot := slot, serviceDate := s.slots[slot].date);
    Outcome(Emit(SaveBooking(s, i, b'), BookingRescheduledNotice, i), Done)
  }

  function BalanceRow(booking: nat, amount: int, key: string): Payment {
    Payment(booking, Provider.Offline, None, None, None, None, amount, Balance, Success, true, key)
  }

  function CollectBalance(s: State, i: nat, amount: int, key: string): Outcome {
    if i >= |s.bookings| then Refuse(s, NotFound) else
    var b := s.bookings[i];
    if b.status !in {InProgress, TechnicianAssigned} then Refuse(s, WrongStatus) else
    if amount <= 0 then Refuse(s, BadAmount) else
    if amount > b.balanceDue - b.balanceCollected then Refuse(s, BadAmount) else
    var row := BalanceRow(i, amount, key);
    if !CanInsert(s.payments, row) then Refuse(s, IntegrityError) else
    var collected := b.balanceCollected + amount;
    var b' := Moved(b, b.status).(balanceCollected := collected,
                                  payment := if collected >= b.balanceDue then Paid else b.payment);
    Outcome(SaveBooking(AddPayment(s, row), i, b'), PaymentReply(|s.payments|))
  }
}
