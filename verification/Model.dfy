/** The rows of the booking and payment ledger and the database constraints on them. */
module Model {
  import opened Tables
  import opened Catalogue

  datatype BookingStatus =
    | PendingPayment | PaymentFailed | Confirmed | TechnicianAssigned | TechnicianEnRoute | InProgress
    | Completed | Closed | Cancelled | RefundPending | Refunded

  datatype PaymentState = Unpaid | PartiallyPaid | Paid | Failed | Refunded

  /** One append-only BookingStatusHistory row; `from` is None for the blank status of a new booking. */
  datatype Hop = Hop(from: Option<BookingStatus>, to: BookingStatus)

  /** One TechnicianAssignment row; open while `unassigned_at` is null. */
  datatype Assignment = Assignment(technician: nat, open: bool)

  /** A booking row together with its own history and assignment rows, oldest first. */
  datatype Booking = Booking(
    customer: nat,
    service: nat,
    postalCode: string,
    slot: nat,
    serviceDate: int,
    quantity: nat,
    subtotal: int,
    discount: int,
    training: int,
    total: int,
    advanceRequired: int,
    advancePaid: int,
    balanceDue: int,
    balanceCollected: int,
    status: BookingStatus,
    payment: PaymentState,
    technician: Option<nat>,   // the assigned technician's user
    cancelled: bool,           // cancelled_at is set
    manual: bool,
    history: seq<Hop>,
    assignments: seq<Assignment>
  )

  datatype Provider = Razorpay | Offline
  datatype PaymentType = BookingAdvance | Balance | Refund
  datatype RecordStatus = Created | Pending | Success | Failed | Refunded

  datatype Payment = Payment(
    booking: nat,
    provider: Provider,
    orderId: Option<string>,
    paymentId: Option<string>,
    refundId: Option<string>,
    parent: Option<nat>,
    amount: int,
    kind: PaymentType,
    status: RecordStatus,
    signatureVerified: bool,
    key: string
  )

  /** A time slot: `date` counts days (day 1 is a Monday), times are seconds of that day. */
  datatype Slot = Slot(area: nat, date: int, start: int, end: int, capacity: int, active: bool)

  datatype Verification = VerificationPending | UnderReview | Verified | VerificationRejected | VerificationSuspended
  datatype Availability = Available | Busy | OnLeave | Offline | AvailabilitySuspended

  datatype WorkingHours = WorkingHours(weekday: int, start: int, end: int, active: bool)
  datatype Leave = Leave(startAt: int, endAt: int, active: bool)

  datatype Technician = Technician(
    user: nat,
    active: bool,
    verification: Verification,
    isAvailable: bool,
    availability: Availability,
    supportedServices: set<nat>,
    serviceAreas: set<nat>,
    pincode: string,
    workingHours: seq<WorkingHours>,
    leaves: seq<Leave>
  )

  datatype NoticeKind =
    | PaymentSuccessfulNotice | PaymentFailedNotice | BookingConfirmedNotice | BookingRescheduledNotice
    | TechnicianAssignedNotice | EnRouteNotice | BookingCancelledNotice | ServiceCompletedNotice
    | RefundInitiatedNotice | RefundCompletedNotice

  /** A notification event emitted by a committed transaction. */
  datatype Notice = Notice(kind: NoticeKind, booking: nat)

  datatype State = State(
    services: seq<Service>,
    technicians: seq<Technician>,
    slots: seq<Slot>,
    bookings: seq<Booking>,
    payments: seq<Payment>,
    notices: seq<Notice>
  )

  datatype Refusal =
    | NotFound | WrongCustomer | WrongStatus | AmountMismatch | AlreadyProcessed | KeyOfFailedAttempt
    | ProviderFailed | IntegrityError | NotRefundable | NoProviderReference | BadAmount | NoTechnician
    | BalanceOutstanding | TooLate | ServiceUnavailable | AddressUnknown | OutsideArea | UnsupportedInArea
    | SlotUnavailable | SlotOutsideArea | NotPriceable | NotEligible(errors: seq<EligibilityError>)
    | NoAssignment | SlotInUse | CapacityTooLow | Invalid | Incomplete | NotLinked

  datatype EligibilityError =
    | Inactive | NotVerified | NotAvailable | ServiceNotSupported | AreaNotCovered | PincodeMismatch
    | NotWorking | AwayOnLeave | OverlappingBooking

  /** What a service function gives its caller: a value, or an exception. */
  datatype Reply =
    | Rejected(error: Refusal)   // raised inside the transaction, which is rolled back
    | VerificationFailed         // raised after the transaction committed
    | Done
    | Ignored
    | BookingReply(booking: nat)
    | PaymentReply(payment: nat)
    | RefundReply(refund: nat, sent: bool)  // sent: the provider was asked for a new refund

  datatype Outcome = Outcome(state: State, reply: Reply) {
    predicate Committed() { !reply.Rejected? }
  }

  function Refuse(s: State, error: Refusal): Outcome { Outcome(s, Rejected(error)) }

  function SaveBooking(s: State, i: nat, b: Booking): State
    requires i < |s.bookings|
  {
    s.(bookings := s.bookings[i := b])
  }

  function SavePayment(s: State, i: nat, p: Payment): State
    requires i < |s.payments|
  {
    s.(payments := s.payments[i := p])
  }

  function AddPayment(s: State, p: Payment): State { s.(payments := s.payments + [p]) }

  function Emit(s: State, kind: NoticeKind, booking: nat): State {
    s.(notices := s.notices + [Notice(kind, booking)])
  }

  // ----- unique constraints on payments -----

  /** CREATED, PENDING or SUCCESS advances: at most one per booking. */
  predicate ActiveAdvance(p: Payment) {
    p.kind.BookingAdvance? && (p.status.Created? || p.status.Pending? || p.status.Success?)
  }

  /** Two rows that one of the table's unique constraints forbids side by side. */
  predicate Clash(p: Payment, q: Payment) {
    || (ActiveAdvance(p) && ActiveAdvance(q) && p.booking == q.booking)
    || (p.booking == q.booking && p.kind == q.kind && p.key == q.key && p.key != "")
    || (p.orderId.Some? && p.orderId == q.orderId)
    || (p.paymentId.Some? && p.paymentId == q.paymentId)
    || (p.refundId.Some? && p.refundId == q.refundId)
  }

  predicate CanInsert(payments: seq<Payment>, p: Payment) {
    forall j :: 0 <= j < |payments| ==> !Clash(payments[j], p)
  }

  predicate CanUpdate(payments: seq<Payment>, i: nat, p: Payment) {
    forall j :: 0 <= j < |payments| && j != i ==> !Clash(payments[j], p)
  }

  predicate NoClash(payments: seq<Payment>) {
    forall i, j :: 0 <= i < j < |payments| ==> !Clash(payments[i], payments[j])
  }
}
