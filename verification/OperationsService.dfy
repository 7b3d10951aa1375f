/** Lead conversion and manual payments, in place on the tables, for their effect on the ledger. */
module OperationsService {
  import opened Tables
  import opened Money
  import opened Model
  import opened Scheduling
  import opened Operations
  import opened Database
  import opened BookingService

  method ConvertExistingBooking(db: Store, i: nat) returns (r: Reply)
    modifies db`bookings
    ensures Outcome(db.Rows(), r) == ConvertExisting(old(db.Rows()), i)
  {
    if i >= |db.bookings| { return Rejected(NotFound); }
    ConfirmWorkOrder(db, i);
    r := BookingReply(i);
  }

  method ConfirmWorkOrder(db: Store, i: nat)
    requires i < |db.bookings|
    modifies db`bookings
    ensures db.bookings == old(db.bookings)[i := Converted(old(db.bookings)[i])]
  {
    var booking := db.bookings[i];
    var previous := booking.status;
    booking := booking.(manual := true);
    booking := booking.(status := Confirmed);
    db.SaveBookingRow(i, booking);
    if !previous.Confirmed? {
      WriteStatusHistory(db, i, previous, Confirmed);
    }
  }

  /** The lead's own quote replaces the amounts the booking was created with. */
  method Requote(db: Store, i: nat, quote: int, leadAdvance: Option<int>, trainingFee: int)
    requires i < |db.bookings|
    modifies db`bookings
    ensures db.bookings == old(db.bookings)[i := Requoted(old(db.bookings)[i], quote, leadAdvance, trainingFee)]
  {
    var booking := db.bookings[i];
    booking := booking.(subtotal := quote);
    booking := booking.(discount := 0);
    booking := booking.(training := trainingFee);
    booking := booking.(total := booking.subtotal + booking.training);
    if leadAdvance.Some? {
      booking := booking.(advanceRequired := Min(leadAdvance.value, booking.total));
    }
    booking := booking.(balanceDue := booking.total);
    db.SaveBookingRow(i, booking);
  }

  method ConvertLeadToWorkOrder(db: Store, customer: nat, service: nat, slot: nat, site: Site,
                                quote: Option<int>, leadAdvance: Option<int>) returns (r: Reply)
    modifies db`bookings
    ensures Outcome(db.Rows(), r) == ConvertNew(old(db.Rows()), customer, service, slot, site, quote, leadAdvance)
  {
    r := BookSlot(db, customer, service, slot, 1, site);
    if !r.BookingReply? { return; }
    if quote.Some? {
      Requote(db, r.booking, quote.value, leadAdvance, db.services[service].trainingFee);
    }
    ConfirmWorkOrder(db, r.booking);
  }

  method RecordManualLeadPayment(db: Store, i: nat, amount: int, key: string, linked: bool) returns (r: Reply)
    modifies db`bookings, db`payments
    ensures Outcome(db.Rows(), r) == ManualPayment(old(db.Rows()), i, amount, key, linked)
  {
    if amount <= 0 { return Rejected(BadAmount); }
    if !linked { return Rejected(NotLinked); }
    if i >= |db.bookings| { return Rejected(NotFound); }
    var booking := db.bookings[i];
    var inserted := db.InsertPayment(ManualRow(i, amount, key));
    if !inserted { return Rejected(IntegrityError); }
    booking := booking.(advancePaid := booking.advancePaid + amount);
    booking := booking.(balanceDue := Max(0, booking.total - booking.advancePaid));
    booking := booking.(payment := if booking.balanceDue == 0 then Paid else PartiallyPaid);
    db.SaveBookingRow(i, booking);
    r := PaymentReply(|db.payments| - 1);
  }
}
