/** Eligibility and assignment, in place on the tables; each does what its function in Technicians says. */
module TechnicianService {
  import opened Tables
  import opened Model
  import opened Technicians
  import opened TechnicianProofs
  import opened Database
  import opened BookingService

  /** `get_technician_eligibility_errors` appends one message per failed condition. */
  method GetTechnicianEligibilityErrors(db: Store, technician: Technician,
                                        i: nat) returns (errors: seq<EligibilityError>)
    requires i < |db.bookings| && db.bookings[i].slot < |db.slots|
    ensures errors == EligibilityErrors(db.Rows(), technician, i)
  {
    var booking := db.bookings[i];
    var slot := db.slots[booking.slot];
    var rows := db.Savepoint();
    ghost var conditions := Conditions(rows, technician, i);
    assert conditions[..9] == conditions;
    errors := NoteProfile(conditions, technician);
    errors := NoteCoverage(errors, conditions, technician, booking, slot);
    errors := NoteCalendar(errors, conditions, rows, technician, i, slot);
  }

  /** Whether the technician works at all: active, verified, available. */
  method NoteProfile(ghost conditions: seq<(bool, EligibilityError)>, technician: Technician)
    returns (errors: seq<EligibilityError>)
    requires |conditions| >= 3
    requires conditions[0] == (!technician.active, Inactive)
    requires conditions[1] == (technician.verification != Verified, NotVerified)
    requires conditions[2] == (!technician.isAvailable || technician.availability != Available, NotAvailable)
    ensures errors == Messages(conditions[..3])
  {
    errors := [];
    errors := Note(errors, conditions, 0, !technician.active, Inactive);
    errors := Note(errors, conditions, 1, technician.verification != Verified, NotVerified);
    var unavailable := !technician.isAvailable || technician.availability != Available;
    errors := Note(errors, conditions, 2, unavailable, NotAvailable);
  }

  /** Whether the technician takes this service, in this area, at this address. */
  method NoteCoverage(before: seq<EligibilityError>, ghost conditions: seq<(bool, EligibilityError)>,
                      technician: Technician, booking: Booking, slot: Slot)
    returns (errors: seq<EligibilityError>)
    requires |conditions| >= 6 && before == Messages(conditions[..3])
    requires var c := technician.supportedServices != {} && booking.service !in technician.supportedServices;
             conditions[3] == (c, ServiceNotSupported)
    requires conditions[4] == (technician.serviceAreas != {} && slot.area !in technician.serviceAreas, AreaNotCovered)
    requires var c := booking.postalCode != "" && technician.pincode != "" && technician.pincode != booking.postalCode;
             conditions[5] == (c, PincodeMismatch)
    ensures errors == Messages(conditions[..6])
  {
    var unsupported := technician.supportedServices != {} && booking.service !in technician.supportedServices;
    var uncovered := technician.serviceAreas != {} && slot.area !in technician.serviceAreas;
    var elsewhere := booking.postalCode != "" && technician.pincode != "" && technician.pincode != booking.postalCode;
    errors := Note(before, conditions, 3, unsupported, ServiceNotSupported);
    errors := Note(errors, conditions, 4, uncovered, AreaNotCovered);
    errors := Note(errors, conditions, 5, elsewhere, PincodeMismatch);
  }

  /** Whether the technician is at work, not on leave, and free. */
  method NoteCalendar(before: seq<EligibilityError>, ghost conditions: seq<(bool, EligibilityError)>, rows: State,
                      technician: Technician, i: nat, slot: Slot)
    returns (errors: seq<EligibilityError>)
    requires |conditions| >= 9 && before == Messages(conditions[..6])
    requires conditions[6] == (!Works(technician, slot), NotWorking)
    requires conditions[7] == (Away(technician, slot), AwayOnLeave)
    requires conditions[8] == (HasOverlap(rows, technician.user, i, slot), OverlappingBooking)
    ensures errors == Messages(conditions[..9])
  {
    errors := Note(before, conditions, 6, !Works(technician, slot), NotWorking);
    errors := Note(errors, conditions, 7, Away(technician, slot), AwayOnLeave);
    errors := Note(errors, conditions, 8, HasOverlap(rows, technician.user, i, slot), OverlappingBooking);
  }

  /** Appends the message if its condition holds. */
  method Note(errors: seq<EligibilityError>, ghost conditions: seq<(bool, EligibilityError)>, ghost k: nat,
              condition: bool, error: EligibilityError)
    returns (longer: seq<EligibilityError>)
    requires k < |conditions| && conditions[k] == (condition, error) && errors == Messages(conditions[..k])
    ensures longer == Messages(conditions[..k + 1])
  {
    MessagesStep(conditions, k);
    longer := errors;
    if condition {
      longer := longer + [error];
    }
  }

  lemma MessagesStep(conditions: seq<(bool, EligibilityError)>, k: nat)
    requires k < |conditions|
    ensures Messages(conditions[..k + 1]) == Messages(conditions[..k]) + If(conditions[k].0, conditions[k].1)
  {
    assert conditions[..k + 1][..k] == conditions[..k];
  }

  /** What the database filter of `get_eligible_technicians` keeps. */
  predicate Listed(t: Technician) {
    t.active && t.isAvailable && t.verification.Verified? && t.availability.Available?
  }

  /**
   * `get_eligible_technicians` lists exactly the technicians an assignment would accept, in table order and
   * once each: its database filter never hides one.
   */
  method GetEligibleTechnicians(db: Store, i: nat) returns (eligible: seq<nat>)
    requires i < |db.bookings| && db.bookings[i].slot < |db.slots|
    ensures forall k: nat ::
              k in eligible <==> k < |db.technicians| && EligibilityErrors(db.Rows(), db.technicians[k], i) == []
    ensures forall a, b :: 0 <= a < b < |eligible| ==> eligible[a] < eligible[b]
  {
    eligible := ListSuitable(db, i);
    forall k: nat | k < |db.technicians|
      ensures Verdicts(db.Rows(), i, |db.technicians|)[k] <==> EligibilityErrors(db.Rows(), db.technicians[k], i) == []
    {
      VerdictAt(db.Rows(), i, |db.technicians|, k);
    }
  }

  /** For each of the first `n` technicians, whether the list of errors is empty. */
  ghost function Verdicts(s: State, i: nat, n: nat): (verdicts: seq<bool>)
    requires i < |s.bookings| && s.bookings[i].slot < |s.slots| && n <= |s.technicians|
    ensures |verdicts| == n
  {
    if n == 0 then [] else Verdicts(s, i, n - 1) + [EligibilityErrors(s, s.technicians[n - 1], i) == []]
  }

  lemma {:induction false} VerdictAt(s: State, i: nat, n: nat, k: nat)
    requires i < |s.bookings| && s.bookings[i].slot < |s.slots| && k < n <= |s.technicians|
    ensures Verdicts(s, i, n)[k] <==> EligibilityErrors(s, s.technicians[k], i) == []
  {
    if k < n - 1 {
      VerdictAt(s, i, n - 1, k);
    }
  }

  /** The comprehension, one technician after another. */
  method ListSuitable(db: Store, i: nat) returns (eligible: seq<nat>)
    requires i < |db.bookings| && db.bookings[i].slot < |db.slots|
    ensures forall k: nat :: k in eligible <==>
              k < |db.technicians| && Verdicts(db.Rows(), i, |db.technicians|)[k]
    ensures forall a, b :: 0 <= a < b < |eligible| ==> eligible[a] < eligible[b]
  {
    eligible := [];
    ghost var verdicts := Verdicts(db.Rows(), i, |db.technicians|);
    for k := 0 to |db.technicians|
      invariant forall j: nat :: j in eligible <==> j < k && verdicts[j]
      invariant forall a :: 0 <= a < |eligible| ==> eligible[a] < k
      invariant forall a, b :: 0 <= a < b < |eligible| ==> eligible[a] < eligible[b]
    {
      var chosen := IsChosen(db, k, i);
      if chosen { eligible := eligible + [k]; }
    }
  }

  /** One pass of the comprehension: the database filter, then the errors. */
  method IsChosen(db: Store, k: nat, i: nat) returns (chosen: bool)
    requires i < |db.bookings| && db.bookings[i].slot < |db.slots| && k < |db.technicians|
    ensures chosen <==> Verdicts(db.Rows(), i, |db.technicians|)[k]
  {
    chosen := false;
    VerdictAt(db.Rows(), i, |db.technicians|, k);
    UnlistedHasErrors(db.Rows(), db.technicians[k], i);
    if Listed(db.technicians[k]) {
      var errors := GetTechnicianEligibilityErrors(db, db.technicians[k], i);
      chosen := errors == [];
    }
  }

  lemma UnlistedHasErrors(s: State, t: Technician, i: nat)
    requires i < |s.bookings| && s.bookings[i].slot < |s.slots|
    ensures !Listed(t) ==> EligibilityErrors(s, t, i) != []
  {
    EmptyErrorsIff(s, t, i);
  }

  /** The previous technician's open row is ended; a new one is opened unless it was this technician's. */
  method RecordAssignment(rows: seq<Assignment>, id: nat) returns (assignments: seq<Assignment>)
    ensures assignments == Reassigned(rows, id)
  {
    assignments := rows;
    var open := OpenAssignment(rows);
    if open.Some? && rows[open.value].technician != id {
      assignments := Ended(assignments, open.value);
    }
    if open.None? || rows[open.value].technician != id {
      assignments := assignments + [Assignment(id, true)];
    }
  }

  method AssignTechnician(db: Store, i: nat, id: nat) returns (r: Reply)
    modifies db`bookings, db`notices
    ensures Outcome(db.Rows(), r) == Assign(old(db.Rows()), i, id)
  {
    if i >= |db.bookings| || db.bookings[i].slot >= |db.slots| { return Rejected(NotFound); }
    var booking := db.bookings[i];
    if booking.status !in {Confirmed, TechnicianAssigned} { return Rejected(WrongStatus); }
    if id >= |db.technicians| { return Rejected(NotFound); }
    var technician := db.technicians[id];
    var errors := GetTechnicianEligibilityErrors(db, technician, i);
    if errors != [] { return Rejected(NotEligible(errors)); }
    var previous := booking.status;
    var assignments := RecordAssignment(booking.assignments, id);
    booking := booking.(assignments := assignments);
    booking := booking.(technician := Some(technician.user));
    booking := booking.(status := TechnicianAssigned);
    db.SaveBookingRow(i, booking);
    WriteStatusHistory(db, i, previous, TechnicianAssigned);
    db.EmitEvent(TechnicianAssignedNotice, i);
    r := Done;
  }

  method RemoveTechnicianAssignment(db: Store, i: nat) returns (r: Reply)
    modifies db`bookings
    ensures Outcome(db.Rows(), r) == Remove(old(db.Rows()), i)
  {
    if i >= |db.bookings| { return Rejected(NotFound); }
    var booking := db.bookings[i];
    var open := OpenAssignment(booking.assignments);
    if open.None? { return Rejected(NoAssignment); }
    booking := booking.(assignments := Ended(booking.assignments, open.value));
    var previous := booking.status;
    booking := booking.(technician := None);
    if booking.status.TechnicianAssigned? {
      booking := booking.(status := Confirmed);
    }
    db.SaveBookingRow(i, booking);
    WriteStatusHistory(db, i, previous, booking.status);
    r := Done;
  }
}
