/** apps/operations/services.py: the two lead steps that write bookings and payments. */
module Operations {
  import opened Tables
  import opened Money
  import opened Model
  import opened Scheduling
  import opened Bookings

  /** The part of `convert_lead_to_work_order` after the booking exists. */
  function Converted(b: Booking): Booking {
    var b' := b.(manual := true, status := Confirmed);
    if b.status.Confirmed? then b' else b'.(history := b.history + [Hop(Some(b.status), Confirmed)])
  }

  /** The amounts a lead's own quote replaces on the booking made from it. */
  function Requoted(b: Booking, quote: int, leadAdvance: Option<int>, trainingFee: int): Booking {
    var total := quote + trainingFee;
    b.(subtotal := quote, discount := 0, training := trainingFee, total := total,
       advanceRequired := if leadAdvance.Some? then Min(leadAdvance.value, total) else b.advanceRequired,
       balanceDue := total)
  }

  function ConvertExisting(s: State, i: nat): Outcome {
    if i >= |s.bookings| then Refuse(s, NotFound) else
    Outcome(SaveBooking(s, i, Converted(s.bookings[i])), BookingReply(i))
  }

  function ConvertNew(s: State, customer: nat, service: nat, slot: nat, site: Site,
                      quote: Option<int>, leadAdvance: Option<int>): Outcome {
    var created := CreateBooking(s, customer, service, slot, 1, site);
    if !created.reply.BookingReply? then created else
    var i := created.reply.booking;
    if i >= |created.state.bookings| || service >= |s.services| then Refuse(s, NotFound) else
    var b := created.state.bookings[i];
    var b' := if quote.Some? then Requoted(b, quote.value, leadAdvance, s.services[service].trainingFee) else b;
    Outcome(SaveBooking(created.state, i, Converted(b')), created.reply)
  }

  function ManualRow(booking: nat, amount: int, key: string): Payment {
    Payment(booking, Provider.Offline, None, None, None, None, amount, BookingAdvance, Success, true, key)
  }

  /** `linked`: the lead points at this booking as its converted booking. */
  function ManualPayment(s: State, i: nat, amount: int, key: string, linked: bool): Outcome {
    if amount <= 0 then Refuse(s, BadAmount) else
    if !linked then Refuse(s, NotLinked) else
    if i >= |s.bookings| then Refuse(s, NotFound) else
    var row := ManualRow(i, amount, key);
    if !CanInsert(s.payments, row) then Refuse(s, IntegrityError) else
    var b := s.bookings[i];
    var paid := b.advancePaid + amount;
    var due := Max(0, b.total - paid);
    var b' := b.(advancePaid := paid, balanceDue := due, payment := if due == 0 then Paid else PartiallyPaid);
    Outcome(SaveBooking(AddPayment(s, row), i, b'), PaymentReply(|s.payments|))
  }
}
