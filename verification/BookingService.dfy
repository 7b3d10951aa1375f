/** The booking service functions, in place on the tables; each does what its step function in Bookings says. */
module BookingService {
  import opened Tables
  import opened Catalogue
  import opened Model
  import opened Scheduling
  import opened Bookings
  import opened Database

  method LockAndValidateSlot(db: Store, slot: nat, site: Site) returns (refusal: Option<Refusal>)
    ensures refusal == SlotRefusal(db.Rows(), slot, site)
  {
    if site.area.None? { return Some(OutsideArea); }
    if !site.supportsService { return Some(UnsupportedInArea); }
    if slot >= |db.slots| { return Some(NotFound); }
    var rows := db.Savepoint();
    if !IsSlotBookable(rows, slot, site) { return Some(SlotUnavailable); }
    if site.area != Some(db.slots[slot].area) { return Some(SlotOutsideArea); }
    refusal := None;
  }

  method BookSlot(db: Store, customer: nat, id: nat, slot: nat, quantity: nat, site: Site) returns (r: Reply)
    modifies db`bookings
    ensures Outcome(db.Rows(), r) == CreateBooking(old(db.Rows()), customer, id, slot, quantity, site)
  {
    if id >= |db.services| || !db.services[id].Available() { return Rejected(ServiceUnavailable); }
    if !site.addressOk { return Rejected(AddressUnknown); }
    var refusal := LockAndValidateSlot(db, slot, site);
    if refusal.Some? { return Rejected(refusal.value); }

    var service := db.services[id];
    var subtotal := service.basePrice * quantity;
    var effectiveItemTotal := service.EffectivePrice() * quantity;
    var discount := subtotal - effectiveItemTotal;
    var trainingFee := if service.trainingFeePerUnit then service.trainingFee * quantity else service.trainingFee;
    var tax := 0;
    var total := subtotal - discount + trainingFee + tax;
    var advance := service.Deposit(total);
    if advance.None? { return Rejected(NotPriceable); }
    var booking := NewBooking(customer, id, site.postalCode, slot, db.slots[slot].date, quantity,
                              Price(subtotal, discount, trainingFee, total, advance.value));
    db.bookings := db.bookings + [booking];
    r := BookingReply(|db.bookings| - 1);
  }

  /** `_transition_booking`: the status first, then the history row. */
  method TransitionBooking(db: Store, i: nat, to: BookingStatus)
    requires i < |db.bookings|
    modifies db`bookings
    ensures db.bookings == old(db.bookings)[i := Moved(old(db.bookings)[i], to)]
  {
    var booking := db.bookings[i];
    var previous := booking.status;
    booking := booking.(status := to);
    db.SaveBookingRow(i, booking);
    WriteStatusHistory(db, i, previous, to);
  }

  method WriteStatusHistory(db: Store, i: nat, from: BookingStatus, to: BookingStatus)
    requires i < |db.bookings|
    modifies db`bookings
    ensures var b := old(db.bookings)[i];
            db.bookings == old(db.bookings)[i := b.(history := b.history + [Hop(Some(from), to)])]
  {
    var booking := db.bookings[i];
    db.SaveBookingRow(i, booking.(history := booking.history + [Hop(Some(from), to)]));
  }

  method StartBooking(db: Store, i: nat) returns (r: Reply)
    modifies db`bookings
    ensures Outcome(db.Rows(), r) == Start(old(db.Rows()), i)
  {
    if i >= |db.bookings| { return Rejected(NotFound); }
    if db.bookings[i].status !in {TechnicianAssigned, TechnicianEnRoute} { return Rejected(WrongStatus); }
    if db.bookings[i].technician.None? { return Rejected(NoTechnician); }
    TransitionBooking(db, i, InProgress);
    r := Done;
  }

  method MarkTechnicianEnRoute(db: Store, i: nat) returns (r: Reply)
    modifies db`bookings, db`notices
    ensures Outcome(db.Rows(), r) == MarkEnRoute(old(db.Rows()), i)
  {
    if i >= |db.bookings| { return Rejected(NotFound); }
    if !db.bookings[i].status.TechnicianAssigned? { return Rejected(WrongStatus); }
    TransitionBooking(db, i, TechnicianEnRoute);
    db.EmitEvent(EnRouteNotice, i);
    r := Done;
  }

  method CompleteBooking(db: Store, i: nat, requireBalance: bool) returns (r: Reply)
    modifies db`bookings, db`notices
    ensures Outcome(db.Rows(), r) == Complete(old(db.Rows()), i, requireBalance)
  {
    if i >= |db.bookings| { return Rejected(NotFound); }
    var booking := db.bookings[i];
    if !booking.status.InProgress? { return Rejected(WrongStatus); }
    if booking.technician.None? { return Rejected(NoTechnician); }
    if requireBalance && booking.balanceCollected < booking.balanceDue { return Rejected(BalanceOutstanding); }
    var previous := booking.status;
    booking := booking.(status := Completed);
    db.SaveBookingRow(i, booking);
    WriteStatusHistory(db, i, previous, Completed);
    db.EmitEvent(ServiceCompletedNotice, i);
    r := Done;
  }

  method CloseBooking(db: Store, i: nat) returns (r: Reply)
    modifies db`bookings
    ensures Outcome(db.Rows(), r) == Close(old(db.Rows()), i)
  {
    if i >= |db.bookings| { return Rejected(NotFound); }
    if !db.bookings[i].status.Completed? { return Rejected(WrongStatus); }
    TransitionBooking(db, i, Closed);
    r := Done;
  }

  method CancelBooking(db: Store, i: nat, actor: Actor, now: int, minHours: int) returns (r: Reply)
    modifies db`bookings, db`notices
    ensures Outcome(db.Rows(), r) == Cancel(old(db.Rows()), i, actor, now, minHours)
  {
    if i >= |db.bookings| || db.bookings[i].slot >= |db.slots| { return Rejected(NotFound); }
    var booking := db.bookings[i];
    if !Cancellable(booking.status, actor) { return Rejected(WrongStatus); }
    if actor.Customer? {
      var rows := db.Savepoint();
      if InsideWindow(rows, booking, now, minHours) { return Rejected(TooLate); }
    }
    var previous := booking.status;
    booking := booking.(status := Cancelled);
    booking := booking.(cancelled := true);
    db.SaveBookingRow(i, booking);
    WriteStatusHistory(db, i, previous, Cancelled);
    db.EmitEvent(BookingCancelledNotice, i);
    r := Done;
  }

  method RescheduleBooking(db: Store, i: nat, slot: nat, user: nat, site: Site, minHours: int) returns (r: Reply)
    modifies db`bookings, db`notices
    ensures Outcome(db.Rows(), r) == Reschedule(old(db.Rows()), i, slot, user, site, minHours)
  {
    if i >= |db.bookings| || db.bookings[i].slot >= |db.slots| { return Rejected(NotFound); }
    var booking := db.bookings[i];
    if booking.customer != user { return Rejected(WrongCustomer); }
    if booking.status !in {Confirmed, TechnicianAssigned} { return Rejected(WrongStatus); }
    var rows := db.Savepoint();
    if InsideWindow(rows, booking, site.now, minHours) { return Rejected(TooLate); }
    var refusal := LockAndValidateSlot(db, slot, site);
    if refusal.Some? { return Rejected(refusal.value); }
    booking := booking.(slot := slot);
    booking := booking.(serviceDate := db.slots[slot].date);
    db.SaveBookingRow(i, booking);
    WriteStatusHistory(db, i, booking.status, booking.status);
    db.EmitEvent(BookingRescheduledNotice, i);
    r := Done;
  }

  method RecordBalanceCollection(db: Store, i: nat, amount: int, key: string) returns (r: Reply)
    modifies db`bookings, db`payments
    ensures Outcome(db.Rows(), r) == CollectBalance(old(db.Rows()), i, amount, key)
  {
    if i >= |db.bookings| { return Rejected(NotFound); }
    var booking := db.bookings[i];
    if booking.status !in {InProgress, TechnicianAssigned} { return Rejected(WrongStatus); }
    var remaining := booking.balanceDue - booking.balanceCollected;
    if amount <= 0 { return Rejected(BadAmount); }
    if amount > remaining { return Rejected(BadAmount); }
    var inserted := db.InsertPayment(BalanceRow(i, amount, key));
    if !inserted { return Rejected(IntegrityError); }
    booking := booking.(balanceCollected := booking.balanceCollected + amount);
    if booking.balanceCollected >= booking.balanceDue {
      booking := booking.(payment := Paid);
    }
    db.SaveBookingRow(i, booking);
    WriteStatusHistory(db, i, booking.status, booking.status);
    r := PaymentReply(|db.payments| - 1);
  }
}
