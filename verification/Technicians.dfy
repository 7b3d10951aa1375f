/** apps/technicians/services.py: eligibility, the overlap guard, assigning and removing. */
module Technicians {
  import opened Tables
  import opened Model
  import opened Scheduling

  /** Statuses in which a booking occupies its technician. */
  predicate Occupies(status: BookingStatus) {
    status in {TechnicianAssigned, TechnicianEnRoute, InProgress}
  }

  predicate WindowsOverlap(a: Slot, b: Slot) { a.start < b.end && b.start < a.end }

  /** `has_overlapping_booking`: some other busy booking of this user on the slot's date meets its window. */
  predicate HasOverlap(s: State, user: nat, booking: nat, slot: Slot) {
    exists j :: 0 <= j < |s.bookings| && j != booking && Overlapping(s, j, user, slot)
  }

  predicate Overlapping(s: State, j: nat, user: nat, slot: Slot)
    requires j < |s.bookings|
  {
    var b := s.bookings[j];
    && b.technician == Some(user)
    && b.serviceDate == slot.date
    && Occupies(b.status)
    && b.slot < |s.slots|
    && WindowsOverlap(s.slots[b.slot], slot)
  }

  function Weekday(date: int): int { (date + 6) % 7 }

  predicate OnDay(h: WorkingHours, slot: Slot) { h.active && h.weekday == Weekday(slot.date) }

  predicate Covers(h: WorkingHours, slot: Slot) { h.start <= slot.start && slot.end <= h.end }

  predicate Works(t: Technician, slot: Slot) {
    || (forall k :: 0 <= k < |t.workingHours| ==> !OnDay(t.workingHours[k], slot))
    || (exists k :: 0 <= k < |t.workingHours| && OnDay(t.workingHours[k], slot) && Covers(t.workingHours[k], slot))
  }

  predicate LeaveMeets(l: Leave, slot: Slot) {
    && l.active
    && l.startAt < slot.date * SECONDS_PER_DAY + slot.end
    && l.endAt > slot.date * SECONDS_PER_DAY + slot.start
  }

  predicate Away(t: Technician, slot: Slot) {
    exists k :: 0 <= k < |t.leaves| && LeaveMeets(t.leaves[k], slot)
  }

  function If(condition: bool, error: EligibilityError): seq<EligibilityError> { if condition then [error] else [] }

  /** The messages whose conditions hold, in order. */
  function Messages(conditions: seq<(bool, EligibilityError)>): seq<EligibilityError> {
    if |conditions| == 0 then [] else
    var last := conditions[|conditions| - 1];
    Messages(conditions[..|conditions| - 1]) + If(last.0, last.1)
  }

  function Conditions(s: State, t: Technician, booking: nat): seq<(bool, EligibilityError)>
    requires booking < |s.bookings| && s.bookings[booking].slot < |s.slots|
  {
    var b := s.bookings[booking];
    var slot := s.slots[b.slot];
    [ (!t.active, Inactive),
      (t.verification != Verified, NotVerified),
      (!t.isAvailable || t.availability != Available, NotAvailable),
      (t.supportedServices != {} && b.service !in t.supportedServices, ServiceNotSupported),
      (t.serviceAreas != {} && slot.area !in t.serviceAreas, AreaNotCovered),
      (b.postalCode != "" && t.pincode != "" && t.pincode != b.postalCode, PincodeMismatch),
      (!Works(t, slot), NotWorking),
      (Away(t, slot), AwayOnLeave),
      (HasOverlap(s, t.user, booking, slot), OverlappingBooking) ]
  }

  /** `get_technician_eligibility_errors`, in the order the source appends them. */
  function EligibilityErrors(s: State, t: Technician, booking: nat): seq<EligibilityError>
    requires booking < |s.bookings| && s.bookings[booking].slot < |s.slots|
  {
    Messages(Conditions(s, t, booking))
  }

  /** The position of a booking's open assignment, newest first. */
  function OpenAssignment(assignments: seq<Assignment>): Option<nat> { Latest(assignments, IsOpen()) }

  function IsOpen(): Assignment -> bool { (a: Assignment) => a.open }

  function Ended(assignments: seq<Assignment>, k: nat): seq<Assignment>
    requires k < |assignments|
  {
    assignments[k := assignments[k].(open := false)]
  }

  /** The assignment rows after `technician` is assigned: an open row for somebody else is ended first. */
  function Reassigned(assignments: seq<Assignment>, technician: nat): seq<Assignment> {
    var open := OpenAssignment(assignments);
    if open.None? then assignments + [Assignment(technician, true)]
    else if assignments[open.value].technician == technician then assignments
    else Ended(assignments, open.value) + [Assignment(technician, true)]
  }

  function Assign(s: State, i: nat, technician: nat): Outcome {
    if i >= |s.bookings| || s.bookings[i].slot >= |s.slots| then Refuse(s, NotFound) else
    var b := s.bookings[i];
    if b.status !in {Confirmed, TechnicianAssigned} then Refuse(s, WrongStatus) else
    if technician >= |s.technicians| then Refuse(s, NotFound) else
    var t := s.technicians[technician];
    var errors := EligibilityErrors(s, t, i);
    if errors != [] then Refuse(s, NotEligible(errors)) else
    var b' := b.(assignments := Reassigned(b.assignments, technician), technician := Some(t.user),
                 status := TechnicianAssigned, history := b.history + [Hop(Some(b.status), TechnicianAssigned)]);
    Outcome(Emit(SaveBooking(s, i, b'), TechnicianAssignedNotice, i), Done)
  }

  function Remove(s: State, i: nat): Outcome {
    if i >= |s.bookings| then Refuse(s, NotFound) else
    var b := s.bookings[i];
    var open := OpenAssignment(b.assignments);
    if open.None? then Refuse(s, NoAssignment) else
    var status' := if b.status == TechnicianAssigned then Confirmed else b.status;
    var b' := b.(assignments := Ended(b.assignments, open.value), technician := None, status := status',
                 history := b.history + [Hop(Some(b.status), status')]);
    Outcome(SaveBooking(s, i, b'), Done)
  }
}
