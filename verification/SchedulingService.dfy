/** ensure_daily_slots, in place on the slot table: a run of ordinary slot creations. */
module SchedulingService {
  import opened Model
  import opened Scheduling
  import opened Machine
  import opened Database

  const DAILY_WINDOWS: nat := 6
  const DAILY_CAPACITY := 20

  /** The k-th default window: two hours each from eight in the morning. */
  function DailySlot(area: nat, date: int, k: nat): Slot {
    Slot(area, date, (8 + 2 * k) * 3600, (10 + 2 * k) * 3600, DAILY_CAPACITY, true)
  }

  /** The default windows: from eight in the morning to eight in the evening, two hours each, one after another. */
  lemma DailyWindowsFillTheDay(area: nat, date: int, k: nat)
    ensures DailySlot(area, date, 0).start == 8 * 3600 && DailySlot(area, date, DAILY_WINDOWS - 1).end == 20 * 3600
    ensures DailySlot(area, date, k + 1).start == DailySlot(area, date, k).end
    ensures var slot := DailySlot(area, date, k);
            && slot.end - slot.start == 2 * 3600 && slot.capacity == 20 && slot.active
            && slot.area == area && slot.date == date
  {
  }

  ghost function DailyEvents(area: nat, date: int, n: nat): seq<Event> {
    if n == 0 then [] else DailyEvents(area, date, n - 1) + [Desk(OpenSlot(DailySlot(area, date, n - 1)))]
  }

  predicate HasWindow(slots: seq<Slot>, window: Slot) {
    exists j :: 0 <= j < |slots| && SameWindow(slots[j], window)
  }

  /** `TimeSlot.objects.get_or_create`: the row is inserted unless its window is there. */
  method GetOrCreateSlot(db: Store, window: Slot)
    requires ValidSlot(window)
    modifies db`slots
    ensures db.Rows() == AddSlot(old(db.Rows()), window).state
    ensures old(db.slots) <= db.slots && HasWindow(db.slots, window)
  {
    if !HasWindow(db.slots, window) {
      db.slots := db.slots + [window];
      assert SameWindow(db.slots[|db.slots| - 1], window);
    }
  }

  method EnsureDailySlots(db: Store, area: nat, date: int, today: int, closures: seq<Closure>)
    modifies db`slots
    ensures old(db.slots) <= db.slots
    ensures date < today || IsServiceAreaClosed(closures, area, date) ==> db.slots == old(db.slots)
    ensures date >= today && !IsServiceAreaClosed(closures, area, date) ==>
              && db.Rows() == Run(old(db.Rows()), DailyEvents(area, date, DAILY_WINDOWS))
              && forall k :: 0 <= k < DAILY_WINDOWS ==> HasWindow(db.slots, DailySlot(area, date, k))
  {
    if date < today || IsServiceAreaClosed(closures, area, date) { return; }
    for k := 0 to DAILY_WINDOWS
      invariant old(db.slots) <= db.slots
      invariant db.Rows() == Run(old(db.Rows()), DailyEvents(area, date, k))
      invariant forall j :: 0 <= j < k ==> HasWindow(db.slots, DailySlot(area, date, j))
    {
      label before:
      OneMoreWindow(old(db.Rows()), area, date, k);
      GetOrCreateSlot(db, DailySlot(area, date, k));
      forall j | 0 <= j < k ensures HasWindow(db.slots, DailySlot(area, date, j)) {
        WindowStays(old@before(db.slots), db.slots, DailySlot(area, date, j));
      }
    }
  }

  lemma WindowStays(slots: seq<Slot>, slots': seq<Slot>, window: Slot)
    requires slots <= slots' && HasWindow(slots, window)
    ensures HasWindow(slots', window)
  {
    var at :| 0 <= at < |slots| && SameWindow(slots[at], window);
    assert SameWindow(slots'[at], window);
  }

  lemma OneMoreWindow(s: State, area: nat, date: int, k: nat)
    ensures Run(s, DailyEvents(area, date, k + 1))
            == AddSlot(Run(s, DailyEvents(area, date, k)), DailySlot(area, date, k)).state
  {
    RunOneMore(s, DailyEvents(area, date, k), Desk(OpenSlot(DailySlot(area, date, k))));
    OpeningAddsTheSlot(Run(s, DailyEvents(area, date, k)), DailySlot(area, date, k));
  }

  lemma OpeningAddsTheSlot(s: State, row: Slot)
    ensures Next(s, Desk(OpenSlot(row))) == AddSlot(s, row).state
  {
  }

}
