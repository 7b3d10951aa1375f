/** The technician named on a booking agrees with its assignment log. */
module PointerProofs {
  import opened Tables
  import opened Model
  import opened Technicians
  import opened Machine
  import opened Soundness
  import opened BookingRows

  /** Row `k` is the only open one, and it is for the technician whose user the booking names. */
  ghost predicate OnlyOpen(s: State, b: Booking, k: nat) {
    && k < |b.assignments| && b.assignments[k].open
    && (forall j :: 0 <= j < |b.assignments| && j != k ==> !b.assignments[j].open)
    && b.assignments[k].technician < |s.technicians|
    && b.technician == Some(s.technicians[b.assignments[k].technician].user)
  }

  ghost predicate NoneOpen(assignments: seq<Assignment>) {
    forall j :: 0 <= j < |assignments| ==> !assignments[j].open
  }

  /** A technician is named if and only if exactly one assignment is open, and it is that technician's. */
  ghost predicate Agrees(s: State, b: Booking) {
    if b.technician.None? then NoneOpen(b.assignments)
    else exists k: nat :: OnlyOpen(s, b, k)
  }

  ghost predicate AllAgree(s: State) { forall i :: 0 <= i < |s.bookings| ==> Agrees(s, s.bookings[i]) }

  /** Profiles are never removed and never change their user. */
  ghost predicate UsersKept(s: State, s': State) {
    && |s.technicians| <= |s'.technicians|
    && forall t :: 0 <= t < |s.technicians| ==> s'.technicians[t].user == s.technicians[t].user
  }

  lemma AgreesKept(s: State, s': State, b: Booking, b': Booking)
    requires Agrees(s, b) && UsersKept(s, s')
    requires b'.technician == b.technician && b'.assignments == b.assignments
    ensures Agrees(s', b')
  {
    if b.technician.Some? {
      var k: nat :| OnlyOpen(s, b, k);
      assert OnlyOpen(s', b', k);
    }
  }

  /** The open row the source looks up is the only one there is. */
  lemma OpenIsTheOnly(s: State, b: Booking)
    requires Agrees(s, b)
    ensures b.technician.None? <==> OpenAssignment(b.assignments).None?
    ensures b.technician.Some? ==> OnlyOpen(s, b, OpenAssignment(b.assignments).value)
  {
    var open := OpenAssignment(b.assignments);
    if b.technician.Some? {
      var k: nat :| OnlyOpen(s, b, k);
      assert IsOpen()(b.assignments[k]);
      assert open.Some? && open.value == k;
    }
  }

  lemma ReassignedAgrees(s: State, b: Booking, technician: nat, b': Booking)
    requires Agrees(s, b) && technician < |s.technicians|
    requires b'.assignments == Reassigned(b.assignments, technician)
    requires b'.technician == Some(s.technicians[technician].user)
    ensures Agrees(s, b')
  {
    OpenIsTheOnly(s, b);
    var open := OpenAssignment(b.assignments);
    if open.None? {
      assert OnlyOpen(s, b', |b.assignments|);
    } else if b.assignments[open.value].technician == technician {
      assert OnlyOpen(s, b', open.value);
    } else {
      assert OnlyOpen(s, b', |b.assignments|);
    }
  }

  lemma PayAgrees(s: State, e: PaymentEvent)
    requires AllAgree(s) && PaymentsSound(s)
    ensures AllAgree(StepPay(s, e).state)
  {
    var s' := StepPay(s, e).state;
    PayBookingRows(s, e);
    forall i | 0 <= i < |s'.bookings| ensures Agrees(s', s'.bookings[i]) {
      assert PayRowStep(s.bookings[i], s'.bookings[i]);
      AgreesKept(s, s', s.bookings[i], s'.bookings[i]);
    }
  }

  lemma LifeAgrees(s: State, e: LifeEvent)
    requires AllAgree(s)
    ensures AllAgree(StepLife(s, e).state)
  {
    var s' := StepLife(s, e).state;
    forall i | 0 <= i < |s'.bookings| ensures Agrees(s', s'.bookings[i]) {
      if i < |s.bookings| {
        AgreesKept(s, s', s.bookings[i], s'.bookings[i]);
      }
    }
  }

  lemma AssignAgrees(s: State, i: nat, technician: nat)
    requires AllAgree(s)
    ensures AllAgree(Assign(s, i, technician).state)
  {
    var s' := Assign(s, i, technician).state;
    if Assign(s, i, technician).Committed() {
      ReassignedAgrees(s, s.bookings[i], technician, s'.bookings[i]);
    }
    forall j | 0 <= j < |s'.bookings| ensures Agrees(s', s'.bookings[j]) {
      if Assign(s, i, technician).Committed() && j == i {
        assert Agrees(s, s'.bookings[i]);
        AgreesKept(s, s', s'.bookings[i], s'.bookings[i]);
      } else {
        AgreesKept(s, s', s.bookings[j], s'.bookings[j]);
      }
    }
  }

  lemma RemoveAgrees(s: State, i: nat)
    requires AllAgree(s)
    ensures AllAgree(Remove(s, i).state)
  {
    var s' := Remove(s, i).state;
    forall j | 0 <= j < |s'.bookings| ensures Agrees(s', s'.bookings[j]) {
      if Remove(s, i).Committed() && j == i {
        OpenIsTheOnly(s, s.bookings[i]);
      } else {
        AgreesKept(s, s', s.bookings[j], s'.bookings[j]);
      }
    }
  }

  lemma DeskAgrees(s: State, e: DeskEvent)
    requires AllAgree(s)
    ensures AllAgree(StepDesk(s, e).state)
  {
    if e.AssignTechnician? {
      AssignAgrees(s, e.booking, e.technician);
    } else if e.RemoveTechnician? {
      RemoveAgrees(s, e.booking);
    } else {
      var s' := StepDesk(s, e).state;
      forall i | 0 <= i < |s'.bookings| ensures Agrees(s', s'.bookings[i]) {
        if i < |s.bookings| {
          AgreesKept(s, s', s.bookings[i], s'.bookings[i]);
        }
      }
    }
  }

  /** In every reachable state, whatever the run, the pointer and the log agree. */
  lemma {:induction false} TechnicianMatchesLog(run: seq<Event>)
    ensures AllAgree(Run(EmptyLedger(), run))
  {
    if |run| > 0 {
      var front, last := run[..|run| - 1], run[|run| - 1];
      TechnicianMatchesLog(front);
      var s := Run(EmptyLedger(), front);
      RunSound(EmptyLedger(), front);
      match last
      case Pay(e) => PayAgrees(s, e);
      case Live(e) => LifeAgrees(s, e);
      case Desk(e) => DeskAgrees(s, e);
    }
  }
}
