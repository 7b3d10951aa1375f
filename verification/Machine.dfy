/** The ledger as one state machine: every committed service call is a step. */
module Machine {
  import opened Tables
  import opened Catalogue
  import opened Model
  import opened Payments
  import opened Scheduling
  import opened Bookings
  import opened Technicians
  import opened Operations

  datatype PaymentEvent =
    | OrderAdvance(booking: nat, user: nat, key: string, gateway: Option<string>)
    | VerifyPayment(orderId: string, paymentId: string, signatureOk: bool, verifier: Option<nat>)
    | Deliver(webhook: Webhook)
    | RequestRefund(payment: nat, amount: int, key: string, provider: Option<ProviderRefund>)
    | ReconcileRefund(refund: nat, answer: Option<string>)

  datatype LifeEvent =
    | Book(customer: nat, service: nat, slot: nat, quantity: nat, site: Site)
    | StartBooking(booking: nat)
    | DriveTo(booking: nat)
    | CompleteBooking(booking: nat, requireBalance: bool)
    | CloseBooking(booking: nat)
    | CancelBooking(booking: nat, actor: Actor, now: int, minHours: int)
    | RescheduleBooking(booking: nat, slot: nat, user: nat, site: Site, minHours: int)
    | RecordBalance(booking: nat, amount: int, key: string)

  datatype DeskEvent =
    | AssignTechnician(booking: nat, technician: nat)
    | RemoveTechnician(booking: nat)
    | OpenSlot(row: Slot)
    | ChangeSlot(slot: nat, edit: SlotEdit)
    | ConvertBooking(booking: nat)
    | ConvertLead(customer: nat, service: nat, slot: nat, site: Site, quote: Option<int>, leadAdvance: Option<int>)
    | RecordManualPayment(booking: nat, amount: int, key: string, linked: bool)
    | SaveService(service: nat, values: Service)
    | SaveTechnician(technician: nat, profile: Technician)

  datatype Event = Pay(pay: PaymentEvent) | Live(life: LifeEvent) | Desk(desk: DeskEvent)

  function StepPay(s: State, e: PaymentEvent): Outcome {
    match e
    case OrderAdvance(booking, user, key, gateway) => CreateOrder(s, booking, user, key, gateway)
    case VerifyPayment(orderId, paymentId, signatureOk, verifier) =>
      Verify(s, orderId, paymentId, signatureOk, verifier)
    case Deliver(webhook) => Dispatch(s, webhook)
    case RequestRefund(payment, amount, key, provider) => CreateRefund(s, payment, amount, key, provider)
    case ReconcileRefund(refund, answer) => Reconcile(s, refund, answer)
  }

  function StepLife(s: State, e: LifeEvent): Outcome {
    match e
    case Book(customer, service, slot, quantity, site) => CreateBooking(s, customer, service, slot, quantity, site)
    case StartBooking(booking) => Start(s, booking)
    case DriveTo(booking) => MarkEnRoute(s, booking)
    case CompleteBooking(booking, requireBalance) => Complete(s, booking, requireBalance)
    case CloseBooking(booking) => Close(s, booking)
    case CancelBooking(booking, actor, now, minHours) => Cancel(s, booking, actor, now, minHours)
    case RescheduleBooking(booking, slot, user, site, minHours) => Reschedule(s, booking, slot, user, site, minHours)
    case RecordBalance(booking, amount, key) => CollectBalance(s, booking, amount, key)
  }

  function StepDesk(s: State, e: DeskEvent): Outcome {
    match e
    case AssignTechnician(booking, technician) => Assign(s, booking, technician)
    case RemoveTechnician(booking) => Remove(s, booking)
    case OpenSlot(row) => AddSlot(s, row)
    case ChangeSlot(slot, edit) => EditSlot(s, slot, edit)
    case ConvertBooking(booking) => ConvertExisting(s, booking)
    case ConvertLead(customer, service, slot, site, quote, leadAdvance) =>
      ConvertNew(s, customer, service, slot, site, quote, leadAdvance)
    case RecordManualPayment(booking, amount, key, linked) => ManualPayment(s, booking, amount, key, linked)
    case SaveService(service, values) => PutService(s, service, values)
    case SaveTechnician(technician, profile) => PutTechnician(s, technician, profile)
  }

  /** `Service.save` runs the model's validation; index |services| adds a row. */
  function PutService(s: State, service: nat, values: Service): Outcome {
    if service > |s.services| then Refuse(s, NotFound) else
    if !values.Clean() then Refuse(s, Invalid) else
    Outcome(s.(services := if service == |s.services| then s.services + [values] else s.services[service := values]),
            Done)
  }

  /** A profile keeps its one-to-one user for life; index |technicians| adds a row. */
  function PutTechnician(s: State, technician: nat, profile: Technician): Outcome {
    if technician > |s.technicians| then Refuse(s, NotFound) else
    if technician == |s.technicians| then
      if exists k :: 0 <= k < |s.technicians| && s.technicians[k].user == profile.user then Refuse(s, IntegrityError)
      else Outcome(s.(technicians := s.technicians + [profile]), Done)
    else if s.technicians[technician].user != profile.user then Refuse(s, Invalid)
    else Outcome(s.(technicians := s.technicians[technician := profile]), Done)
  }

  function Step(s: State, e: Event): Outcome {
    match e
    case Pay(pay) => StepPay(s, pay)
    case Live(life) => StepLife(s, life)
    case Desk(desk) => StepDesk(s, desk)
  }

  function Next(s: State, e: Event): State { Step(s, e).state }

  /** The state after a run of steps, refused ones included. */
  function Run(s: State, run: seq<Event>): State {
    if |run| == 0 then s else Next(Run(s, run[..|run| - 1]), run[|run| - 1])
  }

  lemma RunOneMore(s: State, run: seq<Event>, e: Event)
    ensures Run(s, run + [e]) == Next(Run(s, run), e)
  {
    assert (run + [e])[..|run|] == run;
  }

  lemma OneEventRun(s: State, e: Event)
    ensures Run(s, [e]) == Next(s, e)
  {
    assert [e][..0] == [];
    assert Run(s, []) == s;
  }

  lemma {:induction false} RunConcat(s: State, a: seq<Event>, b: seq<Event>)
    ensures Run(Run(s, a), b) == Run(s, a + b)
  {
    if |b| == 0 {
      assert a + b == a;
    } else {
      assert (a + b)[..|a + b| - 1] == a + b[..|b| - 1];
      RunConcat(s, a, b[..|b| - 1]);
    }
  }

  /** A fragment of the machine: every step of the run, taken where the run takes it, is allowed. */
  ghost predicate Stays(s: State, run: seq<Event>, allowed: (State, Event) -> bool) {
    |run| == 0 || (Stays(s, run[..|run| - 1], allowed) && allowed(Run(s, run[..|run| - 1]), run[|run| - 1]))
  }

  function EmptyLedger(): State { State([], [], [], [], [], []) }

  /** A step that is refused changes nothing: the transaction is rolled back. */
  lemma RefusedStepsChangeNothing(s: State, e: Event)
    ensures !Step(s, e).Committed() ==> Next(s, e) == s
  {
  }
}
