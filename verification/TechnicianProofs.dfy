/** No technician is ever on two overlapping jobs at once. */
module TechnicianProofs {
  import opened Tables
  import opened Model
  import opened Scheduling
  import opened Technicians
  import opened Machine
  import opened Soundness
  import opened BookingRows

  /** An active hours row for the slot's day, counting from Monday, which is day 1. */
  ghost predicate HoursOn(t: Technician, k: nat, slot: Slot) {
    && k < |t.workingHours| && t.workingHours[k].active
    && 0 <= t.workingHours[k].weekday <= 6 && (slot.date - 1 - t.workingHours[k].weekday) % 7 == 0
  }

  /** The technician keeps no hours that day, or some hours hold the whole slot. */
  ghost predicate OnDuty(t: Technician, slot: Slot) {
    (exists k: nat :: HoursOn(t, k, slot)) ==>
      exists k: nat :: HoursOn(t, k, slot) && t.workingHours[k].start <= slot.start && slot.end <= t.workingHours[k].end
  }

  /** Active leave `k`, in seconds from day 0, takes in some of the slot. */
  ghost predicate LeaveDuring(t: Technician, k: nat, slot: Slot) {
    && k < |t.leaves| && t.leaves[k].active
    && t.leaves[k].startAt < slot.date * 86400 + slot.end && slot.date * 86400 + slot.start < t.leaves[k].endAt
  }

  /** Another booking `j` has this user assigned, on the way or at work, that day in a window that meets the slot. */
  ghost predicate EngagedBy(s: State, j: nat, user: nat, booking: nat, slot: Slot) {
    && j < |s.bookings| && j != booking && s.bookings[j].technician == Some(user)
    && s.bookings[j].status in {TechnicianAssigned, TechnicianEnRoute, InProgress}
    && s.bookings[j].serviceDate == slot.date && s.bookings[j].slot < |s.slots|
    && s.slots[s.bookings[j].slot].start < slot.end && slot.start < s.slots[s.bookings[j].slot].end
  }

  lemma WeekdayCountsFromMonday(date: int, weekday: int)
    ensures Weekday(date) == weekday <==> 0 <= weekday <= 6 && (date - 1 - weekday) % 7 == 0
  {
  }

  lemma WorksIffOnDuty(t: Technician, slot: Slot)
    ensures Works(t, slot) <==> OnDuty(t, slot)
  {
    forall k: nat ensures HoursOn(t, k, slot) <==> k < |t.workingHours| && OnDay(t.workingHours[k], slot) {
      if k < |t.workingHours| {
        WeekdayCountsFromMonday(slot.date, t.workingHours[k].weekday);
      }
    }
    if Works(t, slot) && exists k: nat :: HoursOn(t, k, slot) {
      var k :| 0 <= k < |t.workingHours| && OnDay(t.workingHours[k], slot) && Covers(t.workingHours[k], slot);
      assert HoursOn(t, k, slot);
    }
    if OnDuty(t, slot) && exists k: nat :: HoursOn(t, k, slot) {
      var k: nat :| HoursOn(t, k, slot) && t.workingHours[k].start <= slot.start && slot.end <= t.workingHours[k].end;
      assert OnDay(t.workingHours[k], slot) && Covers(t.workingHours[k], slot);
    }
  }

  lemma AwayIffLeave(t: Technician, slot: Slot)
    ensures Away(t, slot) <==> exists k: nat :: LeaveDuring(t, k, slot)
  {
    if Away(t, slot) {
      var k :| 0 <= k < |t.leaves| && LeaveMeets(t.leaves[k], slot);
      assert LeaveDuring(t, k, slot);
    }
    if exists k: nat :: LeaveDuring(t, k, slot) {
      var k: nat :| LeaveDuring(t, k, slot);
      assert LeaveMeets(t.leaves[k], slot);
    }
  }

  lemma OverlapIffEngaged(s: State, user: nat, booking: nat, slot: Slot)
    ensures HasOverlap(s, user, booking, slot) <==> exists j: nat :: EngagedBy(s, j, user, booking, slot)
  {
    if HasOverlap(s, user, booking, slot) {
      var j :| 0 <= j < |s.bookings| && j != booking && Overlapping(s, j, user, slot);
      assert EngagedBy(s, j, user, booking, slot);
    }
    if exists j: nat :: EngagedBy(s, j, user, booking, slot) {
      var j: nat :| EngagedBy(s, j, user, booking, slot);
      assert Overlapping(s, j, user, slot);
    }
  }

  /** What each message of the list says, in terms of the rows. */
  ghost predicate Applies(s: State, t: Technician, booking: nat, error: EligibilityError)
    requires booking < |s.bookings| && s.bookings[booking].slot < |s.slots|
  {
    var b := s.bookings[booking];
    var slot := s.slots[b.slot];
    match error
    case Inactive => !t.active
    case NotVerified => !t.verification.Verified?
    case NotAvailable => !(t.isAvailable && t.availability.Available?)
    case ServiceNotSupported => t.supportedServices != {} && b.service !in t.supportedServices
    case AreaNotCovered => t.serviceAreas != {} && slot.area !in t.serviceAreas
    case PincodeMismatch => t.pincode != "" && b.postalCode != "" && t.pincode != b.postalCode
    case NotWorking => !OnDuty(t, slot)
    case AwayOnLeave => exists k: nat :: LeaveDuring(t, k, slot)
    case OverlappingBooking => exists j: nat :: EngagedBy(s, j, t.user, booking, slot)
  }

  lemma {:induction false} MessagesHave(conditions: seq<(bool, EligibilityError)>, error: EligibilityError)
    ensures error in Messages(conditions) <==> exists k :: 0 <= k < |conditions| && conditions[k] == (true, error)
  {
    if |conditions| > 0 {
      var front, last := conditions[..|conditions| - 1], conditions[|conditions| - 1];
      MessagesHave(front, error);
      if error in Messages(front) {
        var k :| 0 <= k < |front| && front[k] == (true, error);
        assert conditions[k] == (true, error);
      }
    }
  }

  lemma {:induction false} MessagesEmpty(conditions: seq<(bool, EligibilityError)>)
    ensures Messages(conditions) == [] <==> forall k :: 0 <= k < |conditions| ==> !conditions[k].0
  {
    if |conditions| > 0 {
      MessagesEmpty(conditions[..|conditions| - 1]);
    }
  }

  /** The place of each message in the list. */
  function Place(error: EligibilityError): nat {
    match error
    case Inactive => 0
    case NotVerified => 1
    case NotAvailable => 2
    case ServiceNotSupported => 3
    case AreaNotCovered => 4
    case PincodeMismatch => 5
    case NotWorking => 6
    case AwayOnLeave => 7
    case OverlappingBooking => 8
  }

  lemma {:induction false} MessagesOrdered(conditions: seq<(bool, EligibilityError)>)
    requires forall k :: 0 <= k < |conditions| ==> Place(conditions[k].1) == k
    ensures forall e :: e in Messages(conditions) ==> Place(e) < |conditions|
    ensures forall a, b :: 0 <= a < b < |Messages(conditions)| ==>
              Place(Messages(conditions)[a]) < Place(Messages(conditions)[b])
  {
    if |conditions| > 0 {
      MessagesOrdered(conditions[..|conditions| - 1]);
    }
  }

  /** The list names its messages in this order, each at most once. */
  lemma ErrorsAreOrdered(s: State, t: Technician, booking: nat)
    requires booking < |s.bookings| && s.bookings[booking].slot < |s.slots|
    ensures var errors := EligibilityErrors(s, t, booking);
            forall a, b :: 0 <= a < b < |errors| ==> Place(errors[a]) < Place(errors[b])
  {
    MessagesOrdered(Conditions(s, t, booking));
  }

  /** The list holds exactly the messages that apply. */
  lemma ErrorListedIff(s: State, t: Technician, booking: nat, error: EligibilityError)
    requires booking < |s.bookings| && s.bookings[booking].slot < |s.slots|
    ensures error in EligibilityErrors(s, t, booking) <==> Applies(s, t, booking, error)
  {
    MessagesHave(Conditions(s, t, booking), error);
    ConditionsApply(s, t, booking, error);
  }

  lemma ConditionsApply(s: State, t: Technician, booking: nat, error: EligibilityError)
    requires booking < |s.bookings| && s.bookings[booking].slot < |s.slots|
    ensures var conditions := Conditions(s, t, booking);
            && |conditions| == 9 && (forall k :: 0 <= k < 9 ==> Place(conditions[k].1) == k)
            && conditions[Place(error)].1 == error && (conditions[Place(error)].0 <==> Applies(s, t, booking, error))
  {
    var slot := s.slots[s.bookings[booking].slot];
    WorksIffOnDuty(t, slot);
    AwayIffLeave(t, slot);
    OverlapIffEngaged(s, t.user, booking, slot);
  }

  /** A technician may be assigned exactly when every condition holds, each over the rows it is about. */
  lemma EligibleIff(s: State, t: Technician, booking: nat)
    requires booking < |s.bookings| && s.bookings[booking].slot < |s.slots|
    ensures var b := s.bookings[booking];
            var slot := s.slots[b.slot];
            EligibilityErrors(s, t, booking) == [] <==>
              && t.active && t.verification == Verified && t.isAvailable && t.availability == Available
              && (t.supportedServices == {} || b.service in t.supportedServices)
              && (t.serviceAreas == {} || slot.area in t.serviceAreas)
              && (b.postalCode == "" || t.pincode == "" || t.pincode == b.postalCode)
              && OnDuty(t, slot)
              && (forall k: nat :: !LeaveDuring(t, k, slot))
              && (forall j: nat :: !EngagedBy(s, j, t.user, booking, slot))
  {
    var slot := s.slots[s.bookings[booking].slot];
    EmptyErrorsIff(s, t, booking);
    WorksIffOnDuty(t, slot);
    AwayIffLeave(t, slot);
    OverlapIffEngaged(s, t.user, booking, slot);
  }

  lemma EmptyErrorsIff(s: State, t: Technician, booking: nat)
    requires booking < |s.bookings| && s.bookings[booking].slot < |s.slots|
    ensures var b := s.bookings[booking];
            var slot := s.slots[b.slot];
            EligibilityErrors(s, t, booking) == [] <==>
              && t.active && t.verification == Verified && t.isAvailable && t.availability == Available
              && (t.supportedServices == {} || b.service in t.supportedServices)
              && (t.serviceAreas == {} || slot.area in t.serviceAreas)
              && (b.postalCode == "" || t.pincode == "" || t.pincode == b.postalCode)
              && Works(t, slot) && !Away(t, slot) && !HasOverlap(s, t.user, booking, slot)
  {
    MessagesEmpty(Conditions(s, t, booking));
    var conditions := Conditions(s, t, booking);
    if forall k :: 0 <= k < |conditions| ==> !conditions[k].0 {
      assert !conditions[0].0 && !conditions[1].0 && !conditions[2].0 && !conditions[3].0 && !conditions[4].0;
      assert !conditions[5].0 && !conditions[6].0 && !conditions[7].0 && !conditions[8].0;
    }
  }

  /** Two different bookings that keep one technician busy on one date in overlapping windows. */
  ghost predicate DoubleBooked(s: State, i: nat, j: nat)
    requires i < |s.bookings| && j < |s.bookings|
  {
    var a, b := s.bookings[i], s.bookings[j];
    && i != j
    && a.technician.Some? && a.technician == b.technician
    && Occupies(a.status) && Occupies(b.status)
    && a.serviceDate == b.serviceDate
    && a.slot < |s.slots| && b.slot < |s.slots|
    && WindowsOverlap(s.slots[a.slot], s.slots[b.slot])
  }

  ghost predicate NobodyDoubleBooked(s: State) {
    forall i, j :: 0 <= i < |s.bookings| && 0 <= j < |s.bookings| ==> !DoubleBooked(s, i, j)
  }

  /** An occupied booking stays as occupied as it was: same technician, same slot, same window. */
  ghost predicate StaysBusy(s: State, s': State, i: nat)
    requires i < |s'.bookings|
  {
    Occupies(s'.bookings[i].status) && s'.bookings[i].technician.Some? ==>
      && i < |s.bookings|
      && Occupies(s.bookings[i].status)
      && s'.bookings[i].technician == s.bookings[i].technician
      && s'.bookings[i].slot == s.bookings[i].slot
      && s'.bookings[i].serviceDate == s.bookings[i].serviceDate
      && s.bookings[i].slot < |s.slots| && s.bookings[i].slot < |s'.slots|
      && s'.slots[s.bookings[i].slot].start == s.slots[s.bookings[i].slot].start
      && s'.slots[s.bookings[i].slot].end == s.slots[s.bookings[i].slot].end
  }

  lemma BusyKept(s: State, s': State)
    requires NobodyDoubleBooked(s)
    requires forall i :: 0 <= i < |s'.bookings| ==> StaysBusy(s, s', i)
    ensures NobodyDoubleBooked(s')
  {
    forall i, j | 0 <= i < |s'.bookings| && 0 <= j < |s'.bookings| ensures !DoubleBooked(s', i, j) {
      if DoubleBooked(s', i, j) {
        assert StaysBusy(s, s', i) && StaysBusy(s, s', j);
        assert DoubleBooked(s, i, j);
      }
    }
  }

  /** One booking becomes or stays busy in a window the overlap check found free for its technician. */
  lemma CheckedRowKept(s: State, s': State, i: nat, user: nat, slot: nat)
    requires Sound(s) && NobodyDoubleBooked(s) && i < |s.bookings| && |s'.bookings| == |s.bookings|
    requires s'.slots == s.slots && slot < |s.slots|
    requires s'.bookings == s.bookings[i := s'.bookings[i]]
    requires s'.bookings[i].slot == slot && s'.bookings[i].serviceDate == s.slots[slot].date
    requires s'.bookings[i].technician == Some(user) && Occupies(s'.bookings[i].status)
    ensures NobodyDoubleBooked(s') <==> !HasOverlap(s, user, i, s.slots[slot])
  {
    if HasOverlap(s, user, i, s.slots[slot]) {
      var j :| 0 <= j < |s.bookings| && j != i && Overlapping(s, j, user, s.slots[slot]);
      assert DoubleBooked(s', i, j);
    } else {
      forall a, b | 0 <= a < |s'.bookings| && 0 <= b < |s'.bookings| ensures !DoubleBooked(s', a, b) {
        assert !DoubleBooked(s, a, b);
        if a == i && b != i {
          assert !Overlapping(s, b, user, s.slots[slot]);
        } else if b == i && a != i {
          assert !Overlapping(s, a, user, s.slots[slot]);
        }
      }
    }
  }

  lemma PayKeepsFree(s: State, e: PaymentEvent)
    requires Sound(s) && NobodyDoubleBooked(s)
    ensures NobodyDoubleBooked(StepPay(s, e).state)
  {
    var s' := StepPay(s, e).state;
    PayBookingRows(s, e);
    forall i | 0 <= i < |s'.bookings| ensures StaysBusy(s, s', i) {
      assert PayRowStep(s.bookings[i], s'.bookings[i]) && BookingSound(s, s.bookings[i]);
    }
    BusyKept(s, s');
  }

  /** The one step that moves a busy booking without the overlap check finds the new window free. */
  ghost predicate MovesIntoFreeWindow(s: State, e: Event) {
    e.Live? && e.life.RescheduleBooking? && e.life.booking < |s.bookings| && e.life.slot < |s.slots| ==>
      var b := s.bookings[e.life.booking];
      b.status.TechnicianAssigned? && b.technician.Some? ==>
        !HasOverlap(s, b.technician.value, e.life.booking, s.slots[e.life.slot])
  }

  /** The same, asked only of a reschedule that goes through. */
  ghost predicate MovesIntoFreeWindowIfTaken(s: State, e: Event) {
    Step(s, e).Committed() ==> MovesIntoFreeWindow(s, e)
  }

  /** Moving an assigned booking keeps technicians free exactly when its technician is free in the new window. */
  lemma RescheduleKeepsFreeIff(s: State, e: LifeEvent)
    requires Sound(s) && NobodyDoubleBooked(s) && e.RescheduleBooking?
    ensures StepLife(s, e).Committed() ==>
              (NobodyDoubleBooked(StepLife(s, e).state) <==> MovesIntoFreeWindow(s, Live(e)))
    ensures !StepLife(s, e).Committed() ==> NobodyDoubleBooked(StepLife(s, e).state)
  {
    if StepLife(s, e).Committed() {
      var s' := StepLife(s, e).state;
      var b := s.bookings[e.booking];
      if b.status.TechnicianAssigned? && b.technician.Some? {
        CheckedRowKept(s, s', e.booking, b.technician.value, e.slot);
      } else {
        forall i | 0 <= i < |s'.bookings| ensures StaysBusy(s, s', i) {
          assert BookingSound(s, s.bookings[i]);
        }
        BusyKept(s, s');
      }
    }
  }

  lemma LifeKeepsFree(s: State, e: LifeEvent)
    requires Sound(s) && NobodyDoubleBooked(s) && MovesIntoFreeWindow(s, Live(e))
    ensures NobodyDoubleBooked(StepLife(s, e).state)
  {
    if e.RescheduleBooking? {
      RescheduleKeepsFreeIff(s, e);
    } else {
      var s' := StepLife(s, e).state;
      forall i | 0 <= i < |s'.bookings| ensures StaysBusy(s, s', i) {
        if i < |s.bookings| {
          assert BookingSound(s, s.bookings[i]);
        }
      }
      BusyKept(s, s');
    }
  }

  lemma AssignKeepsFree(s: State, i: nat, technician: nat)
    requires Sound(s) && NobodyDoubleBooked(s)
    ensures NobodyDoubleBooked(Assign(s, i, technician).state)
  {
    if Assign(s, i, technician).Committed() {
      EmptyErrorsIff(s, s.technicians[technician], i);
      assert BookingSound(s, s.bookings[i]);
      CheckedRowKept(s, Assign(s, i, technician).state, i, s.technicians[technician].user, s.bookings[i].slot);
    }
  }

  lemma DeskKeepsFree(s: State, e: DeskEvent)
    requires Sound(s) && NobodyDoubleBooked(s)
    ensures NobodyDoubleBooked(StepDesk(s, e).state)
  {
    if e.AssignTechnician? {
      AssignKeepsFree(s, e.booking, e.technician);
    } else {
      var s' := StepDesk(s, e).state;
      forall i | 0 <= i < |s'.bookings| ensures StaysBusy(s, s', i) {
        DeskStaysBusy(s, e, i);
      }
      BusyKept(s, s');
    }
  }

  lemma EditStaysBusy(s: State, slot: nat, edit: SlotEdit, i: nat)
    requires Sound(s) && i < |s.bookings|
    ensures i < |EditSlot(s, slot, edit).state.bookings| && StaysBusy(s, EditSlot(s, slot, edit).state, i)
  {
    assert BookingSound(s, s.bookings[i]);
  }

  lemma DeskStaysBusy(s: State, e: DeskEvent, i: nat)
    requires Sound(s) && !e.AssignTechnician? && i < |StepDesk(s, e).state.bookings|
    ensures StaysBusy(s, StepDesk(s, e).state, i)
  {
    if i < |s.bookings| {
      assert BookingSound(s, s.bookings[i]);
      if e.ChangeSlot? {
        EditStaysBusy(s, e.slot, e.edit, i);
      }
    }
  }

  /** In every run whose reschedules of assigned bookings land in free windows, refunds and leads included. */
  lemma {:induction false} TechniciansNeverOverlap(run: seq<Event>)
    requires Stays(EmptyLedger(), run, MovesIntoFreeWindowIfTaken)
    ensures NobodyDoubleBooked(Run(EmptyLedger(), run))
  {
    if |run| > 0 {
      var front, last := run[..|run| - 1], run[|run| - 1];
      TechniciansNeverOverlap(front);
      RunSound(EmptyLedger(), front);
      TakenStepKeepsFree(Run(EmptyLedger(), front), last);
    }
  }

  lemma TakenStepKeepsFree(s: State, e: Event)
    requires Sound(s) && NobodyDoubleBooked(s) && MovesIntoFreeWindowIfTaken(s, e)
    ensures NobodyDoubleBooked(Next(s, e))
  {
    if !Step(s, e).Committed() {
      RefusedStepsChangeNothing(s, e);
    } else {
      match e
      case Pay(p) => PayKeepsFree(s, p);
      case Live(l) => LifeKeepsFree(s, l);
      case Desk(d) => DeskKeepsFree(s, d);
    }
  }
}
