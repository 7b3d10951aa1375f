/** Balances: what a booking owes, what was collected, and that a finished job is paid in full. */
module BalanceProofs {
  import opened Tables
  import opened Money
  import opened Catalogue
  import opened Model
  import opened Payments
  import opened Scheduling
  import opened Bookings
  import opened Operations
  import opened Machine
  import opened Soundness
  import opened BookingRows
  import opened RefundProofs

  /** A SUCCESS balance payment of booking `i`. */
  function CollectedFor(i: nat): Payment -> int {
    (p: Payment) => if p.booking == i && p.kind.Balance? && p.status.Success? then p.amount else 0
  }

  /** A SUCCESS advance of booking `i`: its amount, and one for counting. */
  function AdvancedFor(i: nat): Payment -> int {
    (p: Payment) => if p.booking == i && p.kind.BookingAdvance? && p.status.Success? then p.amount else 0
  }

  function PaidAdvance(i: nat): Payment -> int {
    (p: Payment) => if p.booking == i && p.kind.BookingAdvance? && p.status.Success? then 1 else 0
  }

  // ----- the ledger equations -----

  ghost predicate Owes(b: Booking) { b.balanceDue == Max(0, b.total - b.advancePaid) }

  ghost predicate Balanced(s: State) {
    forall i :: 0 <= i < |s.bookings| ==>
      Owes(s.bookings[i]) && s.bookings[i].balanceCollected == Sum(s.payments, CollectedFor(i))
  }

  /** A lead's quote, when it replaces the price, leaves a total that is not negative. */
  ghost predicate QuotesHold(s: State, e: Event) {
    e.Desk? && e.desk.ConvertLead? && e.desk.quote.Some? && e.desk.service < |s.services| ==>
      e.desk.quote.value + s.services[e.desk.service].trainingFee >= 0
  }

  /** The same, asked only of a conversion that goes through. */
  ghost predicate QuotesHoldIfTaken(s: State, e: Event) { Step(s, e).Committed() ==> QuotesHold(s, e) }

  lemma CollectedKeptBy(s: State, s': State, i: nat)
    requires PaymentsSound(s) && PaymentsSound(s') && RowsKept(s, s') && InsertsOne(s, s', false)
    ensures Sum(s'.payments, CollectedFor(i)) == Sum(s.payments, CollectedFor(i))
  {
    var w := CollectedFor(i);
    var kept := s'.payments[..|s.payments|];
    forall k | 0 <= k < |kept| ensures w(s.payments[k]) == w(kept[k]) {
      assert SameRow(s.payments[k], s'.payments[k]) && PaymentSound(s, s.payments[k])
          && PaymentSound(s', s'.payments[k]);
    }
    SumSame(s.payments, kept, w);
    if |s'.payments| > |s.payments| {
      assert s'.payments == kept + [s'.payments[|s.payments|]];
      SumAppend(kept, s'.payments[|s.payments|], w);
    } else {
      assert kept == s'.payments;
    }
  }

  /** No payment refers to a booking that does not exist yet. */
  lemma NothingCollectedYet(s: State, i: nat)
    requires PaymentsSound(s) && i >= |s.bookings|
    ensures Sum(s.payments, CollectedFor(i)) == 0 && Sum(s.payments, AdvancedFor(i)) == 0
    ensures Sum(s.payments, PaidAdvance(i)) == 0
  {
    forall k | 0 <= k < |s.payments| ensures s.payments[k].booking != i {
      assert PaymentSound(s, s.payments[k]);
    }
    SumZero(s.payments, CollectedFor(i));
    SumZero(s.payments, AdvancedFor(i));
    SumZero(s.payments, PaidAdvance(i));
  }

  /** The amounts a booking's balance rests on. */
  ghost predicate SameMoney(b: Booking, b': Booking) {
    && b'.total == b.total && b'.advanceRequired == b.advanceRequired && b'.advancePaid == b.advancePaid
    && b'.balanceDue == b.balanceDue && b'.balanceCollected == b.balanceCollected
  }

  /** Rows keep their amounts and nothing was collected: the equations carry over, new rows permitting. */
  lemma BalancedKept(s: State, s': State)
    requires Balanced(s) && PaymentsSound(s) && PaymentsSound(s') && RowsKept(s, s') && InsertsOne(s, s', false)
    requires |s.bookings| <= |s'.bookings|
    requires forall i :: 0 <= i < |s.bookings| ==>
               Owes(s'.bookings[i]) && s'.bookings[i].balanceCollected == s.bookings[i].balanceCollected
    requires forall i :: |s.bookings| <= i < |s'.bookings| ==>
              Owes(s'.bookings[i]) && s'.bookings[i].balanceCollected == 0
    ensures Balanced(s')
  {
    forall i | 0 <= i < |s'.bookings| ensures s'.bookings[i].balanceCollected == Sum(s'.payments, CollectedFor(i)) {
      CollectedKeptBy(s, s', i);
      if i >= |s.bookings| {
        NothingCollectedYet(s, i);
      }
    }
  }

  lemma StepBalanced(s: State, e: Event)
    requires Sound(s) && Balanced(s) && !(e.Live? && e.life.RecordBalance?)
    requires var s' := Next(s, e);
             && |s.bookings| <= |s'.bookings|
             && (forall i :: 0 <= i < |s.bookings| ==>
                   Owes(s'.bookings[i]) && s'.bookings[i].balanceCollected == s.bookings[i].balanceCollected)
             && (forall i :: |s.bookings| <= i < |s'.bookings| ==>
                 Owes(s'.bookings[i]) && s'.bookings[i].balanceCollected == 0)
    ensures Balanced(Next(s, e))
  {
    StepSound(s, e);
    RowsKeptByStep(s, e);
    StepInsertsOne(s, e);
    BalancedKept(s, Next(s, e));
  }

  lemma PayBalanced(s: State, e: PaymentEvent)
    requires Sound(s) && Balanced(s)
    ensures Balanced(StepPay(s, e).state)
  {
    PayBookingRows(s, e);
    var s' := StepPay(s, e).state;
    forall i | 0 <= i < |s'.bookings|
      ensures Owes(s'.bookings[i]) && s'.bookings[i].balanceCollected == s.bookings[i].balanceCollected
    {
      assert PayRowStep(s.bookings[i], s'.bookings[i]);
    }
    StepBalanced(s, Pay(e));
  }

  lemma RecordBalanced(s: State, i: nat, amount: int, key: string)
    requires Balanced(s)
    ensures Balanced(CollectBalance(s, i, amount, key).state)
  {
    if CollectBalance(s, i, amount, key).Committed() {
      var s' := CollectBalance(s, i, amount, key).state;
      forall j | 0 <= j < |s'.bookings| ensures s'.bookings[j].balanceCollected == Sum(s'.payments, CollectedFor(j)) {
        SumAppend(s.payments, BalanceRow(i, amount, key), CollectedFor(j));
      }
    }
  }

  /** Bookings either keep their amounts or are new and owe their whole total. */
  lemma LifeMoney(s: State, e: LifeEvent)
    requires Sound(s) && !e.RecordBalance?
    ensures var s' := StepLife(s, e).state;
            && |s.bookings| <= |s'.bookings|
            && (forall i :: 0 <= i < |s.bookings| ==> SameMoney(s.bookings[i], s'.bookings[i]))
            && (forall i :: |s.bookings| <= i < |s'.bookings| ==>
                Owes(s'.bookings[i]) && s'.bookings[i].balanceCollected == 0)
  {
    if e.Book? && StepLife(s, e).Committed() {
      DepositWithinTotal(s.services[e.service], e.quantity);
    }
  }

  lemma LifeBalanced(s: State, e: LifeEvent)
    requires Sound(s) && Balanced(s)
    ensures Balanced(StepLife(s, e).state)
  {
    if e.RecordBalance? {
      RecordBalanced(s, e.booking, e.amount, e.key);
    } else {
      LifeMoney(s, e);
      StepBalanced(s, Live(e));
    }
  }

  /** Desk steps keep amounts, but for a manual payment and the booking a lead becomes. */
  lemma DeskMoney(s: State, e: DeskEvent)
    requires Sound(s) && !e.ConvertLead?
    ensures |StepDesk(s, e).state.bookings| == |s.bookings|
    ensures forall i :: 0 <= i < |s.bookings| ==>
              var b' := StepDesk(s, e).state.bookings[i];
              if e.RecordManualPayment? then
                && b'.total == s.bookings[i].total && b'.balanceCollected == s.bookings[i].balanceCollected
                && b'.advanceRequired == s.bookings[i].advanceRequired
                && (b' == s.bookings[i] || Owes(b'))
              else SameMoney(s.bookings[i], b')
  {
  }

  lemma LeadMoney(s: State, e: DeskEvent)
    requires Sound(s) && e.ConvertLead?
    ensures s.bookings <= StepDesk(s, e).state.bookings
    ensures QuotesHold(s, Desk(e)) ==>
              var s' := StepDesk(s, e).state;
              forall i :: |s.bookings| <= i < |s'.bookings| ==>
                  Owes(s'.bookings[i]) && s'.bookings[i].balanceCollected == 0
  {
    if StepDesk(s, e).Committed() {
      NewLeadOwes(s, e.customer, e.service, e.slot, e.site, e.quote, e.leadAdvance);
      assert StepDesk(s, e).state.bookings == s.bookings + [StepDesk(s, e).state.bookings[|s.bookings|]];
    }
  }

  lemma NewLeadOwes(s: State, customer: nat, service: nat, slot: nat, site: Site, quote: Option<int>,
                    leadAdvance: Option<int>)
    requires Sound(s) && ConvertNew(s, customer, service, slot, site, quote, leadAdvance).Committed()
    ensures |ConvertNew(s, customer, service, slot, site, quote, leadAdvance).state.bookings| == |s.bookings| + 1
    ensures service < |s.services|
    ensures var b := ConvertNew(s, customer, service, slot, site, quote, leadAdvance).state.bookings[|s.bookings|];
            b.balanceCollected == 0
            && (Owes(b) <==> (quote.Some? ==> quote.value + s.services[service].trainingFee >= 0))
  {
    CreateBookingSound(s, customer, service, slot, 1, site);
    var created := CreateBooking(s, customer, service, slot, 1, site).state;
    assert BookingSound(created, created.bookings[|s.bookings|]);
  }

  lemma DeskBalanced(s: State, e: DeskEvent)
    requires Sound(s) && Balanced(s) && QuotesHold(s, Desk(e))
    ensures Balanced(StepDesk(s, e).state)
  {
    if e.ConvertLead? {
      LeadMoney(s, e);
    } else {
      DeskMoney(s, e);
    }
    StepBalanced(s, Desk(e));
  }

  /** In every run whose quotes hold, lead conversion, manual payments and refunds included. */
  lemma {:induction false} LedgerBalanced(run: seq<Event>)
    requires Stays(EmptyLedger(), run, QuotesHoldIfTaken)
    ensures Balanced(Run(EmptyLedger(), run))
  {
    if |run| > 0 {
      var front, last := run[..|run| - 1], run[|run| - 1];
      LedgerBalanced(front);
      RunSound(EmptyLedger(), front);
      TakenStepBalanced(Run(EmptyLedger(), front), last);
    }
  }

  lemma TakenStepBalanced(s: State, e: Event)
    requires Sound(s) && Balanced(s) && QuotesHoldIfTaken(s, e)
    ensures Balanced(Next(s, e))
  {
    if !Step(s, e).Committed() {
      RefusedStepsChangeNothing(s, e);
    } else {
      match e
      case Pay(p) => PayBalanced(s, p);
      case Live(l) => LifeBalanced(s, l);
      case Desk(d) => DeskBalanced(s, d);
    }
  }

  /** The quote condition is exact: a conversion whose quote does not hold breaks the equation at once. */
  lemma QuoteDecidesBalance(s: State, customer: nat, service: nat, slot: nat, site: Site, quote: Option<int>,
                            leadAdvance: Option<int>)
    requires Sound(s) && Balanced(s) && ConvertNew(s, customer, service, slot, site, quote, leadAdvance).Committed()
    ensures Balanced(ConvertNew(s, customer, service, slot, site, quote, leadAdvance).state)
            <==> QuotesHold(s, Desk(ConvertLead(customer, service, slot, site, quote, leadAdvance)))
  {
    var e := ConvertLead(customer, service, slot, site, quote, leadAdvance);
    NewLeadOwes(s, customer, service, slot, site, quote, leadAdvance);
    if QuotesHold(s, Desk(e)) {
      DeskBalanced(s, e);
    }
  }

  /** No step changes the total of a booking that already exists. */
  lemma TotalsAreFrozen(s: State, e: Event, i: nat)
    requires Sound(s) && i < |s.bookings|
    ensures i < |Next(s, e).bookings| && Next(s, e).bookings[i].total == s.bookings[i].total
    ensures Next(s, e).bookings[i].advanceRequired == s.bookings[i].advanceRequired
  {
    match e
    case Pay(p) =>
      PayBookingRows(s, p);
      assert PayRowStep(s.bookings[i], StepPay(s, p).state.bookings[i]);
    case Live(l) =>
      if !l.RecordBalance? { LifeMoney(s, l); }
    case Desk(d) =>
      if d.ConvertLead? { LeadMoney(s, d); } else { DeskMoney(s, d); }
  }

  lemma {:induction false} TotalsStayFrozen(run: seq<Event>, more: seq<Event>, i: nat)
    requires i < |Run(EmptyLedger(), run).bookings|
    ensures i < |Run(Run(EmptyLedger(), run), more).bookings|
    ensures Run(Run(EmptyLedger(), run), more).bookings[i].total == Run(EmptyLedger(), run).bookings[i].total
  {
    if |more| > 0 {
      TotalsStayFrozen(run, more[..|more| - 1], i);
      RunSound(EmptyLedger(), run);
      RunSound(Run(EmptyLedger(), run), more[..|more| - 1]);
      TotalsAreFrozen(Run(Run(EmptyLedger(), run), more[..|more| - 1]), more[|more| - 1], i);
    }
  }

  // ----- paid in full -----

  predicate PastConfirmation(status: BookingStatus) {
    status in {Confirmed, TechnicianAssigned, TechnicianEnRoute, InProgress, Completed, Closed}
  }

  /** One booking's books, given how many SUCCESS advances it has and what they add up to. */
  ghost predicate InFull(b: Booking, count: int, advanced: int) {
    && Priced(b)
    && (if count == 0 then b.advancePaid == 0 && b.balanceDue == b.total && b.balanceCollected == 0
        else count == 1 && b.advancePaid == b.advanceRequired && b.balanceDue == b.total - b.advanceRequired)
    && b.advancePaid == advanced
    && (PastConfirmation(b.status) ==> count == 1)
    && 0 <= b.balanceCollected <= b.balanceDue
    && (b.status in {Completed, Closed} ==> b.balanceCollected == b.balanceDue)
    && b.status !in {RefundPending, BookingStatus.Refunded}
  }

  ghost predicate NoRefundRows(s: State) {
    forall k :: 0 <= k < |s.payments| ==> !s.payments[k].kind.Refund? && !s.payments[k].status.Refunded?
  }

  ghost predicate AllInFull(s: State) {
    && NoRefundRows(s)
    && forall i :: 0 <= i < |s.bookings| ==>
         InFull(s.bookings[i], Sum(s.payments, PaidAdvance(i)), Sum(s.payments, AdvancedFor(i)))
  }

  /** Booking, payment and technician steps: no refunds, no lead steps, and completion waits for the balance. */
  ghost predicate PlainBusiness(e: Event) {
    match e
    case Pay(p) => OrderEvent(p)
    case Live(l) => l.CompleteBooking? ==> l.requireBalance
    case Desk(d) => !d.ConvertBooking? && !d.ConvertLead? && !d.RecordManualPayment?
  }

  lemma AppendWeighsNothing(payments: seq<Payment>, p: Payment, i: nat)
    requires !p.kind.BookingAdvance? || !p.status.Success?
    ensures Sum(payments + [p], PaidAdvance(i)) == Sum(payments, PaidAdvance(i))
    ensures Sum(payments + [p], AdvancedFor(i)) == Sum(payments, AdvancedFor(i))
  {
    SumAppend(payments, p, PaidAdvance(i));
    SumAppend(payments, p, AdvancedFor(i));
  }

  /** A row that is no paid advance before or after leaves the counts alone. */
  lemma UpdateWeighsNothing(payments: seq<Payment>, k: nat, p: Payment, i: nat)
    requires k < |payments| && !payments[k].status.Success? && !p.status.Success?
    ensures Sum(payments[k := p], PaidAdvance(i)) == Sum(payments, PaidAdvance(i))
    ensures Sum(payments[k := p], AdvancedFor(i)) == Sum(payments, AdvancedFor(i))
  {
    SumUpdate(payments, k, p, PaidAdvance(i));
    SumUpdate(payments, k, p, AdvancedFor(i));
  }

  /** The constraint lets an advance turn SUCCESS only where the booking has none. */
  lemma FirstPaidAdvance(payments: seq<Payment>, k: nat, p: Payment, i: nat)
    requires k < |payments| && !payments[k].status.Success? && CanUpdate(payments, k, p)
    requires p.kind.BookingAdvance? && p.status.Success? && p.booking == payments[k].booking
    ensures i == p.booking ==> Sum(payments, PaidAdvance(i)) == 0 && Sum(payments[k := p], PaidAdvance(i)) == 1
    ensures i == p.booking ==> Sum(payments[k := p], AdvancedFor(i)) == p.amount
    ensures i != p.booking ==> Sum(payments[k := p], PaidAdvance(i)) == Sum(payments, PaidAdvance(i))
                               && Sum(payments[k := p], AdvancedFor(i)) == Sum(payments, AdvancedFor(i))
  {
    SumUpdate(payments, k, p, PaidAdvance(i));
    SumUpdate(payments, k, p, AdvancedFor(i));
    if i == p.booking {
      forall j | 0 <= j < |payments| ensures PaidAdvance(i)(payments[j]) == 0 && AdvancedFor(i)(payments[j]) == 0 {
        if j != k {
          assert !Clash(payments[j], p);
        }
      }
      SumZero(payments, PaidAdvance(i));
      SumZero(payments, AdvancedFor(i));
    }
  }

  lemma FailInFull(s: State, payment: nat, paymentId: string)
    requires Sound(s) && AllInFull(s) && payment < |s.payments| && !s.payments[payment].status.Success?
    requires s.payments[payment].booking < |s.bookings|
    ensures AllInFull(MarkFailed(s, payment, paymentId).state)
  {
    var o := MarkFailed(s, payment, paymentId);
    if o.Committed() {
      var s' := o.state;
      MarkFailedBookingRows(s, payment, paymentId);
      var p' := s'.payments[payment];
      assert s'.payments == s.payments[payment := p'] && !p'.status.Success? && p'.kind == s.payments[payment].kind;
      forall i | 0 <= i < |s'.bookings|
        ensures InFull(s'.bookings[i], Sum(s'.payments, PaidAdvance(i)), Sum(s'.payments, AdvancedFor(i)))
      {
        FailedRowInFull(s, s'.bookings[i], payment, p', i);
      }
    }
  }

  lemma FailedRowInFull(s: State, b': Booking, payment: nat, p': Payment, i: nat)
    requires AllInFull(s) && i < |s.bookings| && payment < |s.payments|
    requires !s.payments[payment].status.Success? && !p'.status.Success?
    requires b' == s.bookings[i] || Fails(s.bookings[i], b')
    ensures InFull(b', Sum(s.payments[payment := p'], PaidAdvance(i)), Sum(s.payments[payment := p'], AdvancedFor(i)))
  {
    UpdateWeighsNothing(s.payments, payment, p', i);
    assert InFull(s.bookings[i], Sum(s.payments, PaidAdvance(i)), Sum(s.payments, AdvancedFor(i)));
  }

  lemma PaidInFull(s: State, k: nat, paymentId: string)
    requires Sound(s) && AllInFull(s) && k < |s.payments| && s.payments[k].orderId.Some?
    requires !s.payments[k].status.Success?
    requires CanUpdate(s.payments, k, PaidRow(s.payments[k], paymentId))
    ensures s.payments[k].booking < |s.bookings|
    ensures var paid := PaidRow(s.payments[k], paymentId);
            AllInFull(Confirm(SavePayment(s, k, paid), paid.booking, paid.amount))
  {
    assert PaymentSound(s, s.payments[k]);
    var paid := PaidRow(s.payments[k], paymentId);
    var s' := Confirm(SavePayment(s, k, paid), paid.booking, paid.amount);
    forall i | 0 <= i < |s'.bookings|
      ensures InFull(s'.bookings[i], Sum(s'.payments, PaidAdvance(i)), Sum(s'.payments, AdvancedFor(i)))
    {
      FirstPaidAdvance(s.payments, k, paid, i);
      assert InFull(s.bookings[i], Sum(s.payments, PaidAdvance(i)), Sum(s.payments, AdvancedFor(i)));
    }
  }

  lemma VerifyInFull(s: State, orderId: string, paymentId: string, signatureOk: bool, user: Option<nat>)
    requires Sound(s) && AllInFull(s)
    ensures AllInFull(Verify(s, orderId, paymentId, signatureOk, user).state)
  {
    var found := OrderRow(s, orderId);
    if found.Some? && Verify(s, orderId, paymentId, signatureOk, user).Committed()
        && !s.payments[found.value].status.Success? {
      if signatureOk {
        PaidInFull(s, found.value, paymentId);
      } else {
        FailInFull(s, found.value, paymentId);
      }
    }
  }

  lemma OrderInFull(s: State, e: PaymentEvent)
    requires Sound(s) && AllInFull(s) && OrderEvent(e)
    ensures AllInFull(StepPay(s, e).state)
  {
    match e
    case VerifyPayment(orderId, paymentId, signatureOk, user) => VerifyInFull(s, orderId, paymentId, signatureOk, user);
    case OrderAdvance(booking, user, key, gateway) =>
      if StepPay(s, e).state != s {
        var row := NewOrder(s.bookings[booking], booking, key, gateway.value);
        forall i | 0 <= i < |s.bookings|
          ensures InFull(s.bookings[i], Sum(s.payments + [row], PaidAdvance(i)),
                         Sum(s.payments + [row], AdvancedFor(i)))
        {
          AppendWeighsNothing(s.payments, row, i);
        }
      }
    case Deliver(w) =>
      match w {
        case Captured(orderId, paymentId, _) => VerifyInFull(s, orderId, paymentId, true, None);
        case FailedPayment(orderId, paymentId) =>
          var found := OrderRow(s, orderId);
          if found.Some? && orderId != "" && s.payments[found.value].booking < |s.bookings|
              && !s.payments[found.value].status.Success? {
            FailInFull(s, found.value, paymentId);
          }
        case OtherEvent(_) =>
      }
  }

  lemma BookInFull(s: State, e: LifeEvent)
    requires Sound(s) && AllInFull(s) && e.Book?
    ensures AllInFull(StepLife(s, e).state)
  {
    if StepLife(s, e).Committed() {
      var s' := StepLife(s, e).state;
      NothingCollectedYet(s, |s.bookings|);
      DepositWithinTotal(s.services[e.service], e.quantity);
      assert s'.bookings == s.bookings + [s'.bookings[|s.bookings|]];
    }
  }

  lemma RecordInFull(s: State, i: nat, amount: int, key: string)
    requires AllInFull(s)
    ensures AllInFull(CollectBalance(s, i, amount, key).state)
  {
    if CollectBalance(s, i, amount, key).Committed() {
      var s' := CollectBalance(s, i, amount, key).state;
      forall j | 0 <= j < |s'.bookings|
        ensures InFull(s'.bookings[j], Sum(s'.payments, PaidAdvance(j)), Sum(s'.payments, AdvancedFor(j)))
      {
        AppendWeighsNothing(s.payments, BalanceRow(i, amount, key), j);
        assert InFull(s.bookings[j], Sum(s.payments, PaidAdvance(j)), Sum(s.payments, AdvancedFor(j)));
      }
    }
  }

  /** A change of status asks for no more than the booking's books show. */
  lemma MovedRowInFull(s: State, e: LifeEvent, count: int, advanced: int)
    requires PlainBusiness(Live(e)) && !e.Book? && !e.RecordBalance? && StepLife(s, e).Committed()
    requires e.booking < |s.bookings|
    requires InFull(s.bookings[e.booking], count, advanced)
    ensures e.booking < |StepLife(s, e).state.bookings|
    ensures InFull(StepLife(s, e).state.bookings[e.booking], count, advanced)
    ensures StepLife(s, e).state.payments == s.payments
    ensures StepLife(s, e).state.bookings == s.bookings[e.booking := StepLife(s, e).state.bookings[e.booking]]
  {
  }

  lemma OneRowInFull(s: State, s': State, i: nat)
    requires AllInFull(s) && i < |s.bookings| && s'.payments == s.payments
    requires |s'.bookings| == |s.bookings| && s'.bookings == s.bookings[i := s'.bookings[i]]
    requires InFull(s'.bookings[i], Sum(s.payments, PaidAdvance(i)), Sum(s.payments, AdvancedFor(i)))
    ensures AllInFull(s')
  {
  }

  lemma MovedInFull(s: State, e: LifeEvent)
    requires AllInFull(s) && PlainBusiness(Live(e)) && !e.Book? && !e.RecordBalance?
    ensures AllInFull(StepLife(s, e).state)
  {
    if StepLife(s, e).Committed() {
      var i := e.booking;
      assert InFull(s.bookings[i], Sum(s.payments, PaidAdvance(i)), Sum(s.payments, AdvancedFor(i)));
      MovedRowInFull(s, e, Sum(s.payments, PaidAdvance(i)), Sum(s.payments, AdvancedFor(i)));
      OneRowInFull(s, StepLife(s, e).state, i);
    }
  }

  lemma LifeInFull(s: State, e: LifeEvent)
    requires Sound(s) && AllInFull(s) && PlainBusiness(Live(e))
    ensures AllInFull(StepLife(s, e).state)
  {
    if e.Book? {
      BookInFull(s, e);
    } else if e.RecordBalance? {
      RecordInFull(s, e.booking, e.amount, e.key);
    } else {
      MovedInFull(s, e);
    }
  }

  /** Assigning, removing, slots and profiles leave payments and every amount and stage alone. */
  ghost predicate SameStage(b: Booking, b': Booking) {
    b' == b.(status := b'.status, technician := b'.technician, history := b'.history, assignments := b'.assignments)
    && (b'.status == b.status
        || (b.status in {Confirmed, TechnicianAssigned} && b'.status in {Confirmed, TechnicianAssigned}))
  }

  lemma DeskKeepsStages(s: State, e: DeskEvent)
    requires PlainBusiness(Desk(e))
    ensures var s' := StepDesk(s, e).state;
            && s'.payments == s.payments && |s'.bookings| == |s.bookings|
            && forall i :: 0 <= i < |s.bookings| ==> SameStage(s.bookings[i], s'.bookings[i])
  {
  }

  lemma SameStageInFull(b: Booking, b': Booking, count: int, advanced: int)
    requires SameStage(b, b') && InFull(b, count, advanced)
    ensures InFull(b', count, advanced)
  {
  }

  lemma DeskInFull(s: State, e: DeskEvent)
    requires AllInFull(s) && PlainBusiness(Desk(e))
    ensures AllInFull(StepDesk(s, e).state)
  {
    var s' := StepDesk(s, e).state;
    DeskKeepsStages(s, e);
    forall i | 0 <= i < |s'.bookings|
      ensures InFull(s'.bookings[i], Sum(s'.payments, PaidAdvance(i)), Sum(s'.payments, AdvancedFor(i)))
    {
      SameStageInFull(s.bookings[i], s'.bookings[i], Sum(s.payments, PaidAdvance(i)), Sum(s.payments, AdvancedFor(i)));
    }
  }

  lemma {:induction false} BusinessInFull(run: seq<Event>)
    requires forall k :: 0 <= k < |run| ==> PlainBusiness(run[k])
    ensures AllInFull(Run(EmptyLedger(), run)) && Balanced(Run(EmptyLedger(), run))
  {
    if |run| > 0 {
      var front, last := run[..|run| - 1], run[|run| - 1];
      BusinessInFull(front);
      RunSound(EmptyLedger(), front);
      var s := Run(EmptyLedger(), front);
      assert PlainBusiness(last);
      match last
      case Pay(e) => OrderInFull(s, e); PayBalanced(s, e);
      case Live(e) => LifeInFull(s, e); LifeBalanced(s, e);
      case Desk(e) => DeskInFull(s, e); DeskBalanced(s, e);
    }
  }

  /**
   * Every booking keeps 0 <= balance_collected <= balance_due; past confirmation it owns exactly one SUCCESS
   * advance; and a COMPLETED or CLOSED booking's SUCCESS payments add up to exactly its total.
   */
  lemma FinishedJobsArePaid(run: seq<Event>, i: nat)
    requires forall k :: 0 <= k < |run| ==> PlainBusiness(run[k])
    requires i < |Run(EmptyLedger(), run).bookings|
    ensures var s := Run(EmptyLedger(), run);
            var b := s.bookings[i];
            && 0 <= b.balanceCollected <= b.balanceDue
            && (PastConfirmation(b.status) ==> Sum(s.payments, PaidAdvance(i)) == 1)
            && (b.status in {Completed, Closed} ==>
                  Sum(s.payments, AdvancedFor(i)) + Sum(s.payments, CollectedFor(i)) == b.total)
  {
    BusinessInFull(run);
    var s := Run(EmptyLedger(), run);
    assert InFull(s.bookings[i], Sum(s.payments, PaidAdvance(i)), Sum(s.payments, AdvancedFor(i)));
  }
}
