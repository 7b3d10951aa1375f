/** The status history is a path, and a completed booking has walked the whole way. */
module HistoryProofs {
  import opened Tables
  import opened Model
  import opened Scheduling
  import opened Bookings
  import opened Operations
  import opened Machine
  import opened Soundness
  import opened BookingRows

  /** The one change of status that writes no history entry. */
  ghost predicate SilentHop(a: BookingStatus, b: BookingStatus) { a == PendingPayment && b == PaymentFailed }

  ghost predicate Joins(a: BookingStatus, b: BookingStatus) { a == b || SilentHop(a, b) }

  /** Entries chain from the blank status to the current one, silent hops apart. */
  ghost predicate IsPath(history: seq<Hop>, status: BookingStatus) {
    && |history| > 0
    && history[0] == Hop(None, PendingPayment)
    && (forall k :: 0 < k < |history| ==> history[k].from.Some? && Joins(history[k - 1].to, history[k].from.value))
    && Joins(history[|history| - 1].to, status)
  }

  /** The history visits these statuses in this order. */
  ghost predicate Visits(history: seq<Hop>, stages: seq<BookingStatus>) {
    if |stages| == 0 then true
    else if |history| == 0 then false
    else if history[|history| - 1].to == stages[|stages| - 1] then
      Visits(history[..|history| - 1], stages[..|stages| - 1]) || Visits(history[..|history| - 1], stages)
    else Visits(history[..|history| - 1], stages)
  }

  /** The way to a finished job, and how far along it a status must have come. */
  const MILESTONES: seq<BookingStatus> := [Confirmed, TechnicianAssigned, InProgress, Completed]

  function Reached(status: BookingStatus): nat
    ensures Reached(status) <= 4
  {
    match status
    case Confirmed => 1
    case TechnicianAssigned => 2
    case TechnicianEnRoute => 2
    case InProgress => 3
    case Completed => 4
    case Closed => 4
    case _ => 0
  }

  ghost predicate Recorded(b: Booking) {
    IsPath(b.history, b.status) && Visits(b.history, MILESTONES[..Reached(b.status)])
  }

  ghost predicate AllRecorded(s: State) { forall i :: 0 <= i < |s.bookings| ==> Recorded(s.bookings[i]) }

  lemma VisitsMore(history: seq<Hop>, hop: Hop, stages: seq<BookingStatus>)
    requires Visits(history, stages)
    ensures Visits(history + [hop], stages)
  {
    assert (history + [hop])[..|history|] == history;
  }

  lemma VisitsNext(history: seq<Hop>, hop: Hop, stages: seq<BookingStatus>)
    requires Visits(history, stages)
    ensures Visits(history + [hop], stages + [hop.to])
  {
    assert (history + [hop])[..|history|] == history;
    assert (stages + [hop.to])[..|stages|] == stages;
  }

  /** Fewer milestones are visited too. */
  lemma {:induction false} VisitsFewer(history: seq<Hop>, stages: seq<BookingStatus>, n: nat)
    requires Visits(history, stages) && n <= |stages|
    ensures Visits(history, stages[..n])
    decreases |history|, |stages|
  {
    var front := history[..if |history| > 0 then |history| - 1 else 0];
    if n == |stages| {
      assert stages[..n] == stages;
    } else if n > 0 {
      var shorter := stages[..|stages| - 1];
      assert shorter[..n] == stages[..n];
      if history[|history| - 1].to == stages[|stages| - 1] && Visits(front, shorter) {
        VisitsFewer(front, shorter, n);
      } else {
        VisitsFewer(front, stages, n);
      }
      assert front + [history[|history| - 1]] == history;
      VisitsMore(front, history[|history| - 1], stages[..n]);
    }
  }

  lemma PathGrows(history: seq<Hop>, status: BookingStatus, to: BookingStatus)
    requires IsPath(history, status)
    ensures IsPath(history + [Hop(Some(status), to)], to)
  {
  }

  /** The first milestones, shortened. */
  lemma MilestonesPrefix(n: nat, m: nat)
    requires n <= m <= 4
    ensures MILESTONES[..m][..n] == MILESTONES[..n]
  {
  }

  /** An entry from the current status to a milestone at most one further keeps the record. */
  lemma RecordedMove(b: Booking, b': Booking)
    requires Recorded(b)
    requires b'.history == b.history + [Hop(Some(b.status), b'.status)]
    requires
      || Reached(b'.status) <= Reached(b.status)
      || (Reached(b'.status) == Reached(b.status) + 1 && MILESTONES[Reached(b.status)] == b'.status)
      || b'.status == Confirmed
    ensures Recorded(b')
  {
    var m, n := Reached(b.status), Reached(b'.status);
    PathGrows(b.history, b.status, b'.status);
    if n <= m {
      VisitsFewer(b.history, MILESTONES[..m], n);
      MilestonesPrefix(n, m);
      VisitsMore(b.history, Hop(Some(b.status), b'.status), MILESTONES[..n]);
    } else {
      VisitsNext(b.history, Hop(Some(b.status), b'.status), MILESTONES[..m]);
      assert MILESTONES[..m] + [b'.status] == MILESTONES[..n];
    }
  }

  lemma RecordedFailure(b: Booking, b': Booking)
    requires Recorded(b) && Fails(b, b')
    ensures Recorded(b')
  {
  }

  /** No refund is requested, reconciled or reported. */
  ghost predicate WithoutRefunds(e: Event) { e.Pay? ==> OrderEvent(e.pay) }

  lemma OrderRecorded(s: State, e: PaymentEvent)
    requires AllRecorded(s) && PaymentsSound(s) && OrderEvent(e)
    ensures AllRecorded(StepPay(s, e).state)
  {
    var s' := StepPay(s, e).state;
    OrderBookingRows(s, e);
    forall i | 0 <= i < |s'.bookings| ensures Recorded(s'.bookings[i]) {
      var b, b' := s.bookings[i], s'.bookings[i];
      assert Recorded(b) && OrderRowStep(b, b');
      if b' != b && Confirms(b, b') {
        if !b.status.Confirmed? {
          RecordedMove(b, b');
        }
      } else if b' != b {
        RecordedFailure(b, b');
      }
    }
  }

  lemma NewBookingRecorded(b: Booking)
    requires b.history == [Hop(None, PendingPayment)] && b.status == PendingPayment
    ensures Recorded(b)
  {
  }

  /** A history entry that moves a booking on by at most one milestone, or back to CONFIRMED. */
  ghost predicate Advances(b: Booking, b': Booking) {
    && b'.history == b.history + [Hop(Some(b.status), b'.status)]
    && (|| Reached(b'.status) <= Reached(b.status)
        || (Reached(b'.status) == Reached(b.status) + 1 && MILESTONES[Reached(b.status)] == b'.status)
        || b'.status == Confirmed)
  }

  lemma LifeAdvances(s: State, e: LifeEvent)
    requires !e.Book? && StepLife(s, e).Committed() && e.booking < |s.bookings|
    requires e.booking < |StepLife(s, e).state.bookings|
    ensures Advances(s.bookings[e.booking], StepLife(s, e).state.bookings[e.booking])
  {
  }

  lemma OneRowRecorded(s: State, s': State, i: nat)
    requires AllRecorded(s) && OneRow(s, s', i) && Recorded(s'.bookings[i])
    ensures AllRecorded(s')
  {
  }

  lemma BookRecorded(s: State, customer: nat, service: nat, slot: nat, quantity: nat, site: Site)
    requires AllRecorded(s)
    ensures AllRecorded(CreateBooking(s, customer, service, slot, quantity, site).state)
  {
    var s' := CreateBooking(s, customer, service, slot, quantity, site).state;
    if |s'.bookings| > |s.bookings| {
      NewBookingRecorded(s'.bookings[|s.bookings|]);
    }
  }

  lemma LifeRecorded(s: State, e: LifeEvent)
    requires AllRecorded(s)
    ensures AllRecorded(StepLife(s, e).state)
  {
    if e.Book? {
      BookRecorded(s, e.customer, e.service, e.slot, e.quantity, e.site);
    } else if StepLife(s, e).Committed() {
      LifeSavesOneRow(s, e);
      LifeAdvances(s, e);
      assert Recorded(s.bookings[e.booking]);
      RecordedMove(s.bookings[e.booking], StepLife(s, e).state.bookings[e.booking]);
      OneRowRecorded(s, StepLife(s, e).state, e.booking);
    }
  }

  /** Assigning, removing and converting an unconfirmed booking write one entry on one booking. */
  ghost predicate WritesEntry(s: State, e: DeskEvent) {
    || e.AssignTechnician? || e.RemoveTechnician?
    || (e.ConvertBooking? && e.booking < |s.bookings| && !s.bookings[e.booking].status.Confirmed?)
  }

  lemma DeskAdvances(s: State, e: DeskEvent)
    requires WritesEntry(s, e) && StepDesk(s, e).Committed()
    ensures OneRow(s, StepDesk(s, e).state, e.booking)
    ensures Advances(s.bookings[e.booking], StepDesk(s, e).state.bookings[e.booking])
  {
  }

  /** A desk step that leaves status and history of every booking alone. */
  ghost predicate NoEntry(s: State, s': State) {
    && |s'.bookings| == |s.bookings|
    && forall i :: 0 <= i < |s.bookings| ==>
         s'.bookings[i].status == s.bookings[i].status && s'.bookings[i].history == s.bookings[i].history
  }

  lemma DeskWritesNoEntry(s: State, e: DeskEvent)
    requires !e.ConvertLead? && !WritesEntry(s, e)
    ensures NoEntry(s, StepDesk(s, e).state)
  {
  }

  lemma NoEntryRecorded(s: State, s': State)
    requires AllRecorded(s) && NoEntry(s, s')
    ensures AllRecorded(s')
  {
    forall i | 0 <= i < |s'.bookings| ensures Recorded(s'.bookings[i]) {
      assert Recorded(s.bookings[i]);
    }
  }

  lemma LeadRecorded(s: State, customer: nat, service: nat, slot: nat, site: Site, quote: Option<int>,
                     leadAdvance: Option<int>)
    requires AllRecorded(s)
    ensures AllRecorded(ConvertNew(s, customer, service, slot, site, quote, leadAdvance).state)
  {
    var created := CreateBooking(s, customer, service, slot, 1, site);
    var o := ConvertNew(s, customer, service, slot, site, quote, leadAdvance);
    BookRecorded(s, customer, service, slot, 1, site);
    if o.Committed() {
      var i := |s.bookings|;
      assert Recorded(created.state.bookings[i]);
      RecordedMove(created.state.bookings[i], o.state.bookings[i]);
      OneRowRecorded(created.state, o.state, i);
    }
  }

  lemma DeskRecorded(s: State, e: DeskEvent)
    requires AllRecorded(s)
    ensures AllRecorded(StepDesk(s, e).state)
  {
    if e.ConvertLead? {
      LeadRecorded(s, e.customer, e.service, e.slot, e.site, e.quote, e.leadAdvance);
    } else if !WritesEntry(s, e) {
      DeskWritesNoEntry(s, e);
      NoEntryRecorded(s, StepDesk(s, e).state);
    } else if StepDesk(s, e).Committed() {
      DeskAdvances(s, e);
      assert Recorded(s.bookings[e.booking]);
      RecordedMove(s.bookings[e.booking], StepDesk(s, e).state.bookings[e.booking]);
      OneRowRecorded(s, StepDesk(s, e).state, e.booking);
    }
  }

  /**
   * In every run without refunds each booking's history is a path to its status, silent hops apart, and it
   * has visited every milestone its status stands on: a COMPLETED one all four, in order.
   */
  lemma {:induction false} HistoryIsPath(run: seq<Event>)
    requires forall k :: 0 <= k < |run| ==> WithoutRefunds(run[k])
    ensures AllRecorded(Run(EmptyLedger(), run))
  {
    if |run| > 0 {
      var front, last := run[..|run| - 1], run[|run| - 1];
      HistoryIsPath(front);
      var s := Run(EmptyLedger(), front);
      RunSound(EmptyLedger(), front);
      assert WithoutRefunds(last);
      match last
      case Pay(e) => OrderRecorded(s, e);
      case Live(e) => LifeRecorded(s, e);
      case Desk(e) => DeskRecorded(s, e);
    }
  }

  lemma CompletedWalkedTheWholeWay(run: seq<Event>, i: nat)
    requires forall k :: 0 <= k < |run| ==> WithoutRefunds(run[k])
    requires i < |Run(EmptyLedger(), run).bookings|
    requires Run(EmptyLedger(), run).bookings[i].status in {Completed, Closed}
    ensures Visits(Run(EmptyLedger(), run).bookings[i].history, [Confirmed, TechnicianAssigned, InProgress, Completed])
  {
    HistoryIsPath(run);
    assert Recorded(Run(EmptyLedger(), run).bookings[i]);
    assert MILESTONES[..4] == MILESTONES;
  }
}
