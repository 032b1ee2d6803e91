/** The customer's service page: vendors of the page's category, the text
    search, the fixed daily slots minus the booked ones, and booking a slot. */
module ServicePage {
  import opened Records
  import opened Seqs
  import opened Text
  import opened Ledger

  const ClosedMark := "Closed"
  const FixedSlots: seq<string> := ["09:00", "09:30", "10:00", "10:30", "11:00", "11:30"]

  /** The page path to the service name its vendors must offer. */
  const ServiceByPath: map<string, string> := map[
    "/clinic-appointments" := "clinic", "/salon-bookings" := "salon",
    "/ac-repair" := "repair", "/coaching-sessions" := "coaching",
    "/photography" := "photography", "/event-planning" := "event",
    "/driving-school" := "driving", "/home-cleaning" := "cleaning",
    "/pet-care" := "pet", "/legal-advice" := "legal", "/car-services" := "car",
    "/home-decor" := "decor", "/music-classes" := "music",
    "/yoga-sessions" := "yoga", "/therapy" := "therapy"]

  /** `pathToServiceMap[path]`; `None` for a path outside the table. */
  function MappedService(path: string): (r: Option<string>)
    ensures r.None? <==> path !in ServiceByPath
    ensures r.Some? ==> r.value in ServiceByPath.Values
  {
    if path in ServiceByPath then Some(ServiceByPath[path]) else None
  }

  predicate OffersMapped(v: Vendor, service: Option<string>)
  {
    service.Some? && Offers(v, service.value)
  }

  /** The vendors listed on the page: those with a service named like the
      page's service, in stored order; none when the path is unknown. */
  function CategoryFilter(all: seq<Vendor>, service: Option<string>): (r: seq<Vendor>)
    ensures forall i :: 0 <= i < |r| ==> r[i] in all && OffersMapped(r[i], service)
    ensures forall i :: 0 <= i < |all| && OffersMapped(all[i], service) ==> all[i] in r
    ensures service.None? ==> r == []
  {
    var r := Filter(all, (v: Vendor) => OffersMapped(v, service));
    assert |r| > 0 ==> OffersMapped(r[0], service);
    r
  }

  /** The order law of `CategoryFilter`: nothing from nothing, and a vendor
      added at the end is listed last exactly when it offers the service. */
  lemma CategoryFilterAppend(all: seq<Vendor>, v: Vendor, service: Option<string>)
    ensures CategoryFilter([], service) == []
    ensures CategoryFilter(all + [v], service)
         == CategoryFilter(all, service) + (if OffersMapped(v, service) then [v] else [])
  {
    FilterAppend(all, [v], (x: Vendor) => OffersMapped(x, service));
  }

  /** Name, location or description includes the term, ignoring case. */
  predicate MatchesTerm(v: Vendor, term: string)
  {
    var q := Lower(term);
    || Contains(Lower(v.name), q)
    || (v.location.Some? && Contains(Lower(v.location.value), q))
    || (v.description.Some? && Contains(Lower(v.description.value), q))
  }

  /** The search effect: a blank term shows every vendor; otherwise the
      vendors matching the term, in order. */
  function SearchFilter(vendors: seq<Vendor>, term: string): (r: seq<Vendor>)
    ensures IsBlank(term) ==> r == vendors
    ensures !IsBlank(term) ==> forall i :: 0 <= i < |r| ==> r[i] in vendors && MatchesTerm(r[i], term)
    ensures !IsBlank(term) ==> forall i :: 0 <= i < |vendors| && MatchesTerm(vendors[i], term) ==> vendors[i] in r
  {
    if Trim(term) == "" then vendors else Filter(vendors, (v: Vendor) => MatchesTerm(v, term))
  }

  /** The order law of `SearchFilter` for a non-blank term: nothing from
      nothing, and a vendor added at the end is shown last exactly when it
      matches. */
  lemma SearchFilterAppend(vendors: seq<Vendor>, v: Vendor, term: string)
    requires !IsBlank(term)
    ensures SearchFilter([], term) == []
    ensures SearchFilter(vendors + [v], term)
         == SearchFilter(vendors, term) + (if MatchesTerm(v, term) then [v] else [])
  {
    FilterAppend(vendors, [v], (x: Vendor) => MatchesTerm(x, term));
  }

  /** The fixed slots not booked, in their fixed order. */
  function FreeFixedSlots(booked: seq<string>): (r: seq<string>)
    ensures forall i :: 0 <= i < |r| ==> r[i] in FixedSlots && r[i] !in booked
    ensures forall i :: 0 <= i < |FixedSlots| && FixedSlots[i] !in booked ==> FixedSlots[i] in r
  {
    Filter(FixedSlots, (t: string) => t !in booked)
  }

  /** `[t]` when `t` is not booked, nothing when it is. */
  function KeepFree(t: string, booked: seq<string>): seq<string>
  {
    if t in booked then [] else [t]
  }

  /** The free times in their fixed order, each present exactly when it is
      not booked. */
  lemma FreeFixedSlotsInOrder(booked: seq<string>)
    ensures FreeFixedSlots(booked)
         == KeepFree("09:00", booked) + (KeepFree("09:30", booked) + (KeepFree("10:00", booked)
          + (KeepFree("10:30", booked) + (KeepFree("11:00", booked) + KeepFree("11:30", booked)))))
  {
    var p := (t: string) => t !in booked;
    var s5: seq<string> := ["11:30"];
    var s4 := ["11:00"] + s5;
    var s3 := ["10:30"] + s4;
    var s2 := ["10:00"] + s3;
    var s1 := ["09:30"] + s2;
    var s0 := ["09:00"] + s1;
    assert s0 == FixedSlots;
    assert FreeFixedSlots(booked) == Filter(s0, p);
    assert Filter(s0, p) == KeepFree("09:00", booked) + Filter(s1, p) by { FilterCons("09:00", s1, p); }
    assert Filter(s1, p) == KeepFree("09:30", booked) + Filter(s2, p) by { FilterCons("09:30", s2, p); }
    assert Filter(s2, p) == KeepFree("10:00", booked) + Filter(s3, p) by { FilterCons("10:00", s3, p); }
    assert Filter(s3, p) == KeepFree("10:30", booked) + Filter(s4, p) by { FilterCons("10:30", s4, p); }
    assert Filter(s4, p) == KeepFree("11:00", booked) + Filter(s5, p) by { FilterCons("11:00", s5, p); }
    assert Filter(s5, p) == KeepFree("11:30", booked) by {
      FilterCons("11:30", [], p);
      assert ["11:30"] + [] == s5;
    }
  }

  /** No slot is free exactly when every fixed slot is booked. */
  lemma NoFreeSlotIff(booked: seq<string>)
    ensures FreeFixedSlots(booked) == [] <==> forall i :: 0 <= i < |FixedSlots| ==> FixedSlots[i] in booked
  {
    var r := FreeFixedSlots(booked);
    if r != [] {
      assert r[0] in FixedSlots && r[0] !in booked;
      var i :| 0 <= i < |FixedSlots| && FixedSlots[i] == r[0];
    }
  }

  /** The "Closed" marker is never one of the free slots. */
  lemma ClosedIsNotFree(booked: seq<string>)
    ensures FreeFixedSlots(booked) != [ClosedMark]
  {
    var r := FreeFixedSlots(booked);
    assert |r| > 0 ==> r[0] in FixedSlots;
  }

  /** `generateTimeSlots`: "Closed" alone on a Sunday or when every fixed slot
      is booked on `date`; otherwise exactly the free fixed slots. */
  function AvailableTimes(weekday: Weekday, bookings: seq<Booking>, date: string): (r: seq<string>)
    ensures weekday == Sunday ==> r == [ClosedMark]
    ensures r == [ClosedMark] <==>
              weekday == Sunday || forall i :: 0 <= i < |FixedSlots| ==> FixedSlots[i] in BookedTimes(bookings, date)
    ensures r != [ClosedMark] ==> r == FreeFixedSlots(BookedTimes(bookings, date))
    ensures r != [ClosedMark] ==> forall i :: 0 <= i < |r| ==> r[i] in FixedSlots && r[i] !in BookedTimes(bookings, date)
  {
    if weekday == Sunday then [ClosedMark]
    else
      var free := FreeFixedSlots(BookedTimes(bookings, date));
      NoFreeSlotIff(BookedTimes(bookings, date));
      ClosedIsNotFree(BookedTimes(bookings, date));
      if |free| > 0 then free else [ClosedMark]
  }

  /** No offered time is the time of any entry on that date. */
  lemma OfferedSlotsAreFree(weekday: Weekday, bookings: seq<Booking>, date: string, k: int, j: int)
    requires AvailableTimes(weekday, bookings, date) != [ClosedMark]
    requires 0 <= k < |AvailableTimes(weekday, bookings, date)|
    requires 0 <= j < |bookings| && bookings[j].date == date
    ensures AvailableTimes(weekday, bookings, date)[k] != bookings[j].time
  {
    BookedTimesIff(bookings, date, bookings[j].time);
  }

  /** `user?.email || "guest"`: the signed-in user's e-mail when there is
      one, "guest" otherwise; never empty. */
  function CustomerOf(user: Option<User>): (c: string)
    ensures c != ""
    ensures user.Some? && user.value.email != "" ==> c == user.value.email
    ensures user.None? || user.value.email == "" ==> c == "guest"
  {
    if user.Some? && user.value.email != "" then user.value.email else "guest"
  }

  /** The ledger entry `handleBook` appends: a confirmed booking, unpaid. */
  function BookedEntry(date: string, time: string, service: Option<string>, customer: string): (b: Booking)
    ensures b.date == date && b.time == time && b.confirmed && b.payment.None?
  {
    Booking(date, time, service, customer, true, None)
  }

  /** `selectedTimes[vendor.id]`, empty when that vendor has no selection. */
  function SelectedFor(selected: map<int, string>, id: int): string
  {
    if id in selected then selected[id] else ""
  }

  /** `handleBook`'s guard: a time was chosen and it is not the "Closed" marker. */
  predicate IsBookable(t: string)
  {
    t != "" && t != ClosedMark
  }

  /** The stored user as the pending booking's `user` field. */
  function BookedByOf(user: Option<User>): BookedBy
  {
    if user.Some? then Account(user.value) else Nobody
  }

  class ServicePageState {
    var path: string
    /** The store's "vendors" key. */
    var storedVendors: seq<Vendor>
    /** The store's "user" key. */
    var storedUser: Option<User>
    /** The store's "bookingDetails" key. */
    var bookingDetails: Option<BookingDetails>
    var vendors: seq<Vendor>
    var filteredVendors: seq<Vendor>
    var serviceName: Option<string>
    var selectedDate: string
    var selectedTimes: map<int, string>
    var searchTerm: string

    /** The listed vendors are the stored ones of the page's category, and
        the shown ones are those filtered by the current search term. */
    ghost predicate Listed()
      reads this
    {
      && serviceName == MappedService(path)
      && vendors == CategoryFilter(storedVendors, serviceName)
      && filteredVendors == SearchFilter(vendors, searchTerm)
    }

    constructor (path: string, stored: seq<Vendor>, user: Option<User>, details: Option<BookingDetails>, today: string)
      ensures this.path == path && storedVendors == stored && storedUser == user && bookingDetails == details
      ensures serviceName == MappedService(path)
      ensures vendors == CategoryFilter(stored, serviceName) && filteredVendors == vendors
      ensures selectedDate == today && selectedTimes == map[] && searchTerm == ""
      ensures Listed()
    {
      var name := MappedService(path);
      var listed := CategoryFilter(stored, name);
      assert SearchFilter(listed, "") == listed by {
        assert IsBlank("");
      }
      this.path := path;
      storedVendors := stored;
      storedUser := user;
      bookingDetails := details;
      selectedDate := today;
      selectedTimes := map[];
      searchTerm := "";
      serviceName := name;
      vendors := listed;
      filteredVendors := listed;
    }

    /** `loadVendors`: re-read the stored vendors and keep the page's
        category; the new list re-runs the search effect, so the shown
        vendors are the listed ones filtered by the current term. */
    method LoadVendors()
      modifies this`serviceName, this`vendors, this`filteredVendors
      ensures Listed()
    {
      serviceName := MappedService(path);
      vendors := CategoryFilter(storedVendors, serviceName);
      filteredVendors := SearchFilter(vendors, searchTerm);
    }

    /** A new search term and the effect that re-filters the listed vendors. */
    method Search(term: string)
      modifies this`searchTerm, this`filteredVendors
      ensures searchTerm == term
      ensures filteredVendors == SearchFilter(vendors, term)
    {
      filteredVendors := SearchFilter(vendors, term);
      searchTerm := term;
    }

    /** Clicking a time button records it as that vendor's selection. */
    method SelectTime(vendorId: int, time: string)
      modifies this`selectedTimes
      ensures selectedTimes == old(selectedTimes)[vendorId := time]
    {
      selectedTimes := selectedTimes[vendorId := time];
    }

    /** `handleDateChange`: a new date drops every selection. */
    method ChangeDate(date: string)
      modifies this`selectedDate, this`selectedTimes
      ensures selectedDate == date && selectedTimes == map[]
    {
      selectedDate := date;
      selectedTimes := map[];
    }

    /** `handleBook`: without a valid selection nothing changes; otherwise one
        confirmed booking is appended to the stored ledger of every vendor with
        this id (without re-checking that the slot is still free), the page
        reloads, the selections clear and the pending booking is stored. */
    method Book(vendor: Vendor)
      modifies this`storedVendors, this`bookingDetails, this`serviceName, this`vendors,
               this`filteredVendors, this`selectedTimes
      ensures !IsBookable(SelectedFor(old(selectedTimes), vendor.id)) ==>
                && storedVendors == old(storedVendors) && bookingDetails == old(bookingDetails)
                && selectedTimes == old(selectedTimes) && vendors == old(vendors)
                && filteredVendors == old(filteredVendors) && serviceName == old(serviceName)
      ensures var t := SelectedFor(old(selectedTimes), vendor.id);
        IsBookable(t) ==>
          && storedVendors == AppendBookingTo(old(storedVendors), vendor.id,
               BookedEntry(selectedDate, t, old(serviceName), CustomerOf(storedUser)))
          && Listed()
          && selectedTimes == map[]
          && bookingDetails == Some(BookingDetails(vendor, old(serviceName), selectedDate, t, BookedByOf(storedUser), None))
    {
      var t := SelectedFor(selectedTimes, vendor.id);
      if !IsBookable(t) {
        return;
      }
      var service := serviceName;
      var entry := BookedEntry(selectedDate, t, service, CustomerOf(storedUser));
      var updated := AppendBookingTo(storedVendors, vendor.id, entry);
      storedVendors := updated;
      LoadVendors();
      selectedTimes := map[];
      bookingDetails := Some(BookingDetails(vendor, service, selectedDate, t, BookedByOf(storedUser), None));
    }
  }
}
