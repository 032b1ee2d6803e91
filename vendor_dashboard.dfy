/** The vendor dashboard: the week's working hours, the slot grid for the
    selected date, the booked times, and blocking or unblocking a slot. */
module VendorDashboard {
  import opened Records
  import opened Seqs
  import opened Ledger
  import opened TimeGrid

  const Closed := DayHours(None, None)
  const NineToSix := DayHours(Some(Clock(9, 0)), Some(Clock(18, 0)))
  const BlockedCustomer := "Blocked by Vendor"
  const BlockedService := "Blocked Slot"

  /** The built-in week: 09:00-18:00 Monday to Saturday, Sunday closed. */
  const DefaultHours: map<Weekday, DayHours> := map[
    Monday := NineToSix, Tuesday := NineToSix, Wednesday := NineToSix,
    Thursday := NineToSix, Friday := NineToSix, Saturday := NineToSix,
    Sunday := Closed]

  /** The defaults overlaid with the vendor's own hours, then Sunday forced closed. */
  function MergeHours(stored: map<Weekday, DayHours>): (r: map<Weekday, DayHours>)
    ensures forall w: Weekday :: w in r
    ensures r[Sunday] == Closed
    ensures forall w :: w != Sunday ==> r[w] == (if w in stored then stored[w] else NineToSix)
  {
    DefaultsCoverWeek();
    (DefaultHours + stored)[Sunday := Closed]
  }

  lemma DefaultsCoverWeek()
    ensures forall w: Weekday :: w in DefaultHours
  {
    forall w: Weekday ensures w in DefaultHours {
      match w
      case Monday => case Tuesday => case Wednesday => case Thursday =>
      case Friday => case Saturday => case Sunday =>
    }
  }

  /** `vendorData.slotDuration || 30`: the stored duration unless it is absent
      or zero. The result is positive unless a negative value was stored. */
  function EffectiveDuration(stored: Option<int>): (d: int)
    ensures stored.Some? && stored.value != 0 ==> d == stored.value
    ensures stored.None? || stored.value == 0 ==> d == 30
    ensures d > 0 <==> !(stored.Some? && stored.value < 0)
  {
    if stored.Some? && stored.value != 0 then stored.value else 30
  }

  /** `workingHours[day]`; a missing day reads as closed. */
  function HoursFor(hours: map<Weekday, DayHours>, day: Weekday): DayHours
  {
    if day in hours then hours[day] else Closed
  }

  /** Both the opening and the closing time are present. */
  predicate IsOpen(h: DayHours)
  {
    h.open.Some? && h.close.Some?
  }

  /** The ledger entry a vendor's block appends. */
  function BlockEntry(date: string, slot: string): Booking
  {
    Booking(date, slot, Some(BlockedService), BlockedCustomer, false, None)
  }

  predicate AtSlot(b: Booking, date: string, slot: string)
  {
    b.date == date && b.time == slot
  }

  /** The ledger without any entry at (`date`, `slot`); the rest keep their order. */
  function Unblocked(bookings: seq<Booking>, date: string, slot: string): (r: seq<Booking>)
    ensures forall i :: 0 <= i < |r| ==> r[i] in bookings && !AtSlot(r[i], date, slot)
    ensures forall i :: 0 <= i < |bookings| && !AtSlot(bookings[i], date, slot) ==> bookings[i] in r
  {
    Filter(bookings, (b: Booking) => !AtSlot(b, date, slot))
  }

  /** The order law of `Unblocked`: nothing from nothing, and an entry added
      at the end stays at the end exactly when it is not at the slot. With the
      membership clauses this fixes the result entry by entry. */
  lemma UnblockedAppend(bookings: seq<Booking>, b: Booking, date: string, slot: string)
    ensures Unblocked([], date, slot) == []
    ensures Unblocked(bookings + [b], date, slot)
         == Unblocked(bookings, date, slot) + (if AtSlot(b, date, slot) then [] else [b])
  {
    FilterAppend(bookings, [b], (x: Booking) => !AtSlot(x, date, slot));
  }

  /** A list of times without `slot`. */
  function WithoutTime(times: seq<string>, slot: string): seq<string>
  {
    Filter(times, (t: string) => t != slot)
  }

  /** Unblocking twice is unblocking once. */
  lemma UnblockIdempotent(bookings: seq<Booking>, date: string, slot: string)
    ensures Unblocked(Unblocked(bookings, date, slot), date, slot) == Unblocked(bookings, date, slot)
  {
    FilterIdempotent(bookings, (b: Booking) => !AtSlot(b, date, slot));
  }

  /** Unblocking a slot that was free before it was blocked restores the ledger. */
  lemma BlockThenUnblock(bookings: seq<Booking>, date: string, slot: string)
    requires forall i :: 0 <= i < |bookings| ==> !AtSlot(bookings[i], date, slot)
    ensures Unblocked(bookings + [BlockEntry(date, slot)], date, slot) == bookings
  {
    var p := (b: Booking) => !AtSlot(b, date, slot);
    FilterAppend(bookings, [BlockEntry(date, slot)], p);
    FilterAllPass(bookings, p);
  }

  /** The booked times after an unblock are the earlier ones without that slot. */
  lemma {:induction false} BookedTimesAfterUnblock(bookings: seq<Booking>, date: string, slot: string)
    ensures BookedTimes(Unblocked(bookings, date, slot), date) == WithoutTime(BookedTimes(bookings, date), slot)
  {
    if bookings != [] {
      var b := bookings[0];
      var rest := bookings[1..];
      assert bookings == [b] + rest;
      var keep := (x: Booking) => !AtSlot(x, date, slot);
      var onDate := (x: Booking) => x.date == date;
      var time := (x: Booking) => x.time;
      var other := (t: string) => t != slot;
      BookedTimesAfterUnblock(rest, date, slot);
      FilterAppend([b], rest, keep);
      FilterAppend(Filter([b], keep), Filter(rest, keep), onDate);
      MapAppend(Filter(Filter([b], keep), onDate), Filter(Filter(rest, keep), onDate), time);
      FilterAppend([b], rest, onDate);
      MapAppend(Filter([b], onDate), Filter(rest, onDate), time);
      FilterAppend(Map(Filter([b], onDate), time), Map(Filter(rest, onDate), time), other);
    }
  }

  /** `handleSlotClick` on a free slot: deselect it if it was selected, else select it. */
  function Toggle(selected: Option<string>, slot: string): (r: Option<string>)
    ensures r == Some(slot) <==> selected != Some(slot)
    ensures r == None <==> selected == Some(slot)
  {
    if selected == Some(slot) then None else Some(slot)
  }

  class Dashboard {
    var vendor: Vendor
    /** The copy under the store's 'vendor' key. */
    var savedVendor: Vendor
    var workingHours: map<Weekday, DayHours>
    var slotDuration: int
    var selectedDate: string
    var availableSlots: seq<string>
    var bookedSlots: seq<string>
    var selectedSlot: Option<string>

    /** The booked-time view agrees with the ledger on the selected date. */
    ghost predicate InSync()
      reads this
    {
      bookedSlots == BookedTimes(vendor.bookings, selectedDate)
    }

    /** `loadVendorData` for a stored vendor: merge the hours and pick the
        duration. Setting the vendor then runs the slot effect for today,
        whose weekday is `weekday`; a negative stored duration is left out
        (the effect's loop would not end), and the views then stay empty. */
    constructor (stored: Vendor, today: string, weekday: Weekday)
      ensures vendor == stored && savedVendor == stored
      ensures workingHours == MergeHours(stored.workingHours)
      ensures slotDuration == EffectiveDuration(stored.slotDuration)
      ensures selectedDate == today && selectedSlot == None
      ensures slotDuration > 0 ==> Shows(today, weekday)
      ensures slotDuration > 0 && IsOpen(HoursFor(workingHours, weekday)) ==> InSync()
      ensures slotDuration <= 0 ==> availableSlots == [] && bookedSlots == []
    {
      vendor := stored;
      savedVendor := stored;
      workingHours := MergeHours(stored.workingHours);
      slotDuration := EffectiveDuration(stored.slotDuration);
      selectedDate := today;
      availableSlots := [];
      bookedSlots := [];
      selectedSlot := None;
      new;
      if slotDuration > 0 {
        GenerateSlotsForDate(today, weekday);
      }
    }

    /** What `generateSlotsForDate(date)` leaves on screen: a day without
        both times shows no slots and no booked times; an open day shows the
        grid from opening to closing and the times booked on `date`. */
    ghost predicate Shows(date: string, weekday: Weekday)
      reads this
      requires slotDuration > 0
    {
      var h := HoursFor(workingHours, weekday);
      if !IsOpen(h) then
        availableSlots == [] && bookedSlots == []
      else
        && LabelsOf(availableSlots, GridTimes(Minutes(h.open.value), Minutes(h.close.value), slotDuration))
        && bookedSlots == BookedTimes(vendor.bookings, date)
    }

    /** `generateSlotsForDate`: the day's slots and booked times as `Shows`
        describes them; an open day also clears the selection, a closed one
        keeps it. The grid is the corrected one, counted in minutes of the
        day (see TimeGrid.GenerateGridSlots). */
    method GenerateSlotsForDate(date: string, weekday: Weekday)
      requires slotDuration > 0
      modifies this`availableSlots, this`bookedSlots, this`selectedSlot
      ensures Shows(date, weekday)
      ensures var h := HoursFor(workingHours, weekday);
        if !IsOpen(h) then selectedSlot == old(selectedSlot)
        else
          && (availableSlots == [] <==> Minutes(h.open.value) >= Minutes(h.close.value))
          && selectedSlot == None
    {
      var h := HoursFor(workingHours, weekday);
      if h.open.None? || h.close.None? {
        availableSlots := [];
        bookedSlots := [];
        return;
      }
      var slots := GenerateGridSlots(h.open.value, h.close.value, slotDuration);
      availableSlots := slots;
      bookedSlots := BookedTimes(vendor.bookings, date);
      selectedSlot := None;
    }

    /** `handleDateChange`: a new date re-runs the effect that regenerates
        the slots; picking the date already selected changes no state, so
        the effect does not run and the selection is kept. */
    method ChangeDate(date: string, weekday: Weekday)
      requires slotDuration > 0
      modifies this`selectedDate, this`availableSlots, this`bookedSlots, this`selectedSlot
      ensures selectedDate == date
      ensures date == old(selectedDate) ==>
                && availableSlots == old(availableSlots) && bookedSlots == old(bookedSlots)
                && selectedSlot == old(selectedSlot)
      ensures date != old(selectedDate) ==> Shows(date, weekday)
      ensures date != old(selectedDate) && IsOpen(HoursFor(workingHours, weekday)) ==>
                InSync() && selectedSlot == None
      ensures date != old(selectedDate) && !IsOpen(HoursFor(workingHours, weekday)) ==>
                selectedSlot == old(selectedSlot)
    {
      if date == selectedDate {
        return;
      }
      selectedDate := date;
      GenerateSlotsForDate(date, weekday);
    }

    /** `handleSlotClick`: a booked slot ignores the click; any other toggles. */
    method SlotClick(slot: string)
      modifies this`selectedSlot
      ensures slot in bookedSlots ==> selectedSlot == old(selectedSlot)
      ensures slot !in bookedSlots ==> selectedSlot == Toggle(old(selectedSlot), slot)
    {
      if slot in bookedSlots {
        return;
      }
      selectedSlot := Toggle(selectedSlot, slot);
    }

    /** `handleBlockSlot` on the day `weekday` of the selected date: with no
        selection nothing changes. Otherwise one block entry is appended after
        the existing entries and saved, and the selection is cleared; the new
        vendor re-runs the slot effect, which shows the day afresh. On an open
        day whose booked view agreed with the ledger, that view is the old
        one plus the blocked slot, as the handler itself sets it. */
    method Block(weekday: Weekday)
      requires slotDuration > 0
      modifies this`vendor, this`savedVendor, this`availableSlots, this`bookedSlots, this`selectedSlot
      ensures old(selectedSlot).None? || old(selectedSlot).value == "" ==>
                && vendor == old(vendor) && savedVendor == old(savedVendor)
                && availableSlots == old(availableSlots) && bookedSlots == old(bookedSlots)
                && selectedSlot == old(selectedSlot)
      ensures old(selectedSlot).Some? && old(selectedSlot).value != "" ==>
                && vendor == old(vendor).(bookings := old(vendor).bookings + [BlockEntry(selectedDate, old(selectedSlot).value)])
                && savedVendor == vendor
                && Shows(selectedDate, weekday)
                && selectedSlot == None
      ensures old(selectedSlot).Some? && old(selectedSlot).value != "" && old(InSync())
              && IsOpen(HoursFor(workingHours, weekday)) ==>
                bookedSlots == old(bookedSlots) + [old(selectedSlot).value]
    {
      if selectedSlot.None? || selectedSlot.value == "" {
        return;
      }
      var slot := selectedSlot.value;
      var ledger := vendor.bookings + [BlockEntry(selectedDate, slot)];
      var times := bookedSlots + [slot];
      ghost var agree := InSync() ==> times == BookedTimes(ledger, selectedDate);
      assert agree by {
        BookedTimesAppend(vendor.bookings, BlockEntry(selectedDate, slot), selectedDate);
      }
      vendor := vendor.(bookings := ledger);
      savedVendor := vendor;
      bookedSlots := times;
      selectedSlot := None;
      GenerateSlotsForDate(selectedDate, weekday);
    }

    /** `handleUnblockSlot` on the day `weekday` of the selected date: every
        entry at (selected date, `slot`) leaves the ledger, the others stay in
        order, and the ledger is saved; the new vendor re-runs the slot
        effect, which shows the day afresh and, on an open day, clears the
        selection. On an open day whose booked view agreed with the ledger,
        that view is the old one without `slot`, as the handler itself sets it. */
    method Unblock(slot: string, weekday: Weekday)
      requires slotDuration > 0
      modifies this`vendor, this`savedVendor, this`availableSlots, this`bookedSlots, this`selectedSlot
      ensures vendor == old(vendor).(bookings := Unblocked(old(vendor).bookings, selectedDate, slot))
      ensures savedVendor == vendor
      ensures Shows(selectedDate, weekday)
      ensures IsOpen(HoursFor(workingHours, weekday)) ==> selectedSlot == None
      ensures !IsOpen(HoursFor(workingHours, weekday)) ==> selectedSlot == old(selectedSlot)
      ensures old(InSync()) && IsOpen(HoursFor(workingHours, weekday)) ==>
                bookedSlots == WithoutTime(old(bookedSlots), slot)
    {
      var remaining := Unblocked(vendor.bookings, selectedDate, slot);
      var times := WithoutTime(bookedSlots, slot);
      ghost var agree := InSync() ==> times == BookedTimes(remaining, selectedDate);
      assert agree by {
        BookedTimesAfterUnblock(vendor.bookings, selectedDate, slot);
      }
      vendor := vendor.(bookings := remaining);
      savedVendor := vendor;
      bookedSlots := times;
      GenerateSlotsForDate(selectedDate, weekday);
    }
  }
}
