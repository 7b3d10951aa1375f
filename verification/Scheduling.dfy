/** apps/scheduling: the capacity of a slot and the guards on reserving and editing it. */
module Scheduling {
  import opened Tables
  import opened Model

  const SECONDS_PER_DAY := 86400

  datatype Closure = Closure(area: Option<nat>, startDate: int, endDate: int, active: bool)

  /** What a request reads outside the ledger: the clock, the customer's address and the service areas. */
  datatype Site = Site(
    now: int,                 // local seconds since day 0
    addressOk: bool,          // the address is the customer's and active
    postalCode: string,
    area: Option<nat>,        // the active service area of the address
    supportsService: bool,    // that area offers the service
    slotAreaActive: bool,     // the slot's own area is active
    closures: seq<Closure>
  )

  predicate IsServiceAreaClosed(closures: seq<Closure>, area: nat, date: int) {
    exists i :: 0 <= i < |closures| && ClosedBy(closures[i], area, date)
  }

  predicate ClosedBy(c: Closure, area: nat, date: int) {
    c.active && c.startDate <= date <= c.endDate && (c.area.None? || c.area == Some(area))
  }

  predicate IsSlotExpired(slot: Slot, now: int) {
    var today, clock := now / SECONDS_PER_DAY, now % SECONDS_PER_DAY;
    slot.date < today || (slot.date == today && slot.start <= clock)
  }

  /** Statuses whose bookings take a place in their slot. */
  predicate Reserves(status: BookingStatus) {
    status in {PendingPayment, Confirmed, TechnicianAssigned, TechnicianEnRoute, InProgress}
  }

  function PlaceIn(slot: nat): Booking -> int {
    (b: Booking) => if b.slot == slot && Reserves(b.status) then 1 else 0
  }

  /** `count_reserved_bookings`. */
  function Reserved(s: State, slot: nat): int { Sum(s.bookings, PlaceIn(slot)) }

  /** `get_available_capacity`. */
  function AvailableCapacity(s: State, slot: nat): int
    requires slot < |s.slots|
  {
    var free := s.slots[slot].capacity - Reserved(s, slot);
    if free > 0 then free else 0
  }

  predicate IsSlotBookable(s: State, slot: nat, site: Site)
    requires slot < |s.slots|
  {
    var row := s.slots[slot];
    && row.active
    && site.slotAreaActive
    && row.capacity > 0
    && !IsServiceAreaClosed(site.closures, row.area, row.date)
    && !IsSlotExpired(row, site.now)
    && AvailableCapacity(s, slot) > 0
  }

  /** `_lock_and_validate_slot`: None when the slot may be taken, else the refusal. */
  function SlotRefusal(s: State, slot: nat, site: Site): Option<Refusal> {
    if site.area.None? then Some(OutsideArea)
    else if !site.supportsService then Some(UnsupportedInArea)
    else if slot >= |s.slots| then Some(NotFound)
    else if !IsSlotBookable(s, slot, site) then Some(SlotUnavailable)
    else if site.area != Some(s.slots[slot].area) then Some(SlotOutsideArea)
    else None
  }

  // ----- administration of slots -----

  predicate ValidSlot(slot: Slot) { slot.capacity > 0 && slot.start < slot.end }

  predicate SameWindow(a: Slot, b: Slot) {
    a.area == b.area && a.date == b.date && a.start == b.start && a.end == b.end
  }

  function AddSlot(s: State, slot: Slot): Outcome {
    if !ValidSlot(slot) then Refuse(s, Invalid) else
    if exists j :: 0 <= j < |s.slots| && SameWindow(s.slots[j], slot) then Refuse(s, IntegrityError) else
    Outcome(s.(slots := s.slots + [slot]), Done)
  }

  /** The attributes an edit carries; None leaves the field as it is. */
  datatype SlotEdit = SlotEdit(date: Option<int>, start: Option<int>, end: Option<int>, capacity: Option<int>,
                               active: Option<bool>)

  function Or<T>(value: Option<T>, default: T): T { if value.Some? then value.value else default }

  function Edited(slot: Slot, edit: SlotEdit): Slot {
    slot.(date := Or(edit.date, slot.date), start := Or(edit.start, slot.start), end := Or(edit.end, slot.end),
          capacity := Or(edit.capacity, slot.capacity), active := Or(edit.active, slot.active))
  }

  predicate HasBookings(s: State, slot: nat) {
    exists i :: 0 <= i < |s.bookings| && s.bookings[i].slot == slot
  }

  /** `AdminTimeSlotSerializer.validate`, then the model's own save. */
  function EditSlot(s: State, slot: nat, edit: SlotEdit): Outcome {
    if slot >= |s.slots| then Refuse(s, NotFound) else
    var row := s.slots[slot];
    var row' := Edited(row, edit);
    if !SameWindow(row, row') && HasBookings(s, slot) then Refuse(s, SlotInUse) else
    if row'.capacity < Reserved(s, slot) then Refuse(s, CapacityTooLow) else
    if !ValidSlot(row') then Refuse(s, Invalid) else
    if exists j :: 0 <= j < |s.slots| && j != slot && SameWindow(s.slots[j], row') then Refuse(s, IntegrityError) else
    Outcome(s.(slots := s.slots[slot := row']), Done)
  }
}
