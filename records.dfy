/** The records the pages keep in the browser store: vendors with their
    services, working hours and booking ledger, and the signed-in user. */
module Records {

  datatype Option<T> = None | Some(value: T)

  datatype Weekday = Monday | Tuesday | Wednesday | Thursday | Friday | Saturday | Sunday

  /** A time of day already split into hour and minute, as "HH:MM".split(':').map(Number) gives it. */
  datatype Clock = Clock(hour: nat, minute: nat)

  /** One day's hours; `None` stands for an absent or empty "HH:MM" string. */
  datatype DayHours = DayHours(open: Option<Clock>, close: Option<Clock>)

  datatype Service = Service(name: string, price: real)

  /** The payment fields stamped on a paid booking. */
  datatype Payment = Payment(paymentId: string, amount: real, paymentMethod: string)

  /** One ledger entry. `service` is `None` when the page's service name was
      undefined; `confirmed` says whether the entry carries status "confirmed"
      (a vendor's block carries no status). */
  datatype Booking = Booking(
    date: string,
    time: string,
    service: Option<string>,
    customer: string,
    confirmed: bool,
    payment: Option<Payment>)

  /** A vendor record. An absent `location` or `description` is `None`; an
      absent `services` or `bookings` list is the empty sequence; an absent
      or falsy `slotDuration` is `None` or `Some(0)`. */
  datatype Vendor = Vendor(
    id: int,
    name: string,
    email: string,
    password: string,
    location: Option<string>,
    description: Option<string>,
    services: seq<Service>,
    bookings: seq<Booking>,
    workingHours: map<Weekday, DayHours>,
    slotDuration: Option<int>)

  /** The demo user kept under the "user" key. */
  datatype User = User(email: string, name: string)

  /** The `user` field of the pending booking: the stored user object (or
      null) when the booking is made, overwritten by the e-mail on payment. */
  datatype BookedBy = Nobody | Account(account: User) | EmailOnly(email: string)

  /** The pending booking kept under the "bookingDetails" key; `payment` is
      present exactly when `paymentCompleted` is set. */
  datatype BookingDetails = BookingDetails(
    vendor: Vendor,
    service: Option<string>,
    date: string,
    time: string,
    user: BookedBy,
    payment: Option<Payment>)
}

/** Reads and writes of the per-vendor booking ledger shared by the pages. */
module Ledger {
  import opened Records
  import opened Seqs

  /** The times of the ledger entries on `date`, in ledger order. */
  function BookedTimes(bookings: seq<Booking>, date: string): seq<string>
  {
    Map(Filter(bookings, (b: Booking) => b.date == date), (b: Booking) => b.time)
  }

  /** A time is booked on `date` exactly when some entry has that date and time. */
  lemma {:induction false} BookedTimesIff(bookings: seq<Booking>, date: string, t: string)
    ensures t in BookedTimes(bookings, date) <==>
            exists i :: 0 <= i < |bookings| && bookings[i].date == date && bookings[i].time == t
  {
    if bookings != [] {
      var b := bookings[0];
      var rest := bookings[1..];
      BookedTimesIff(rest, date, t);
      assert bookings == [b] + rest;
      FilterAppend([b], rest, (b: Booking) => b.date == date);
      MapAppend(Filter([b], (b: Booking) => b.date == date), Filter(rest, (b: Booking) => b.date == date), (b: Booking) => b.time);
      if exists i :: 0 <= i < |rest| && rest[i].date == date && rest[i].time == t {
        var i :| 0 <= i < |rest| && rest[i].date == date && rest[i].time == t;
        assert bookings[i + 1] == rest[i];
      }
      if exists i :: 0 <= i < |bookings| && bookings[i].date == date && bookings[i].time == t {
        var i :| 0 <= i < |bookings| && bookings[i].date == date && bookings[i].time == t;
        if i > 0 {
          assert rest[i - 1] == bookings[i];
        }
      }
    }
  }

  /** Appending one entry adds its time at the end exactly when it is on `date`. */
  lemma BookedTimesAppend(bookings: seq<Booking>, b: Booking, date: string)
    ensures BookedTimes(bookings + [b], date) ==
            BookedTimes(bookings, date) + (if b.date == date then [b.time] else [])
  {
    var p := (x: Booking) => x.date == date;
    var f := (x: Booking) => x.time;
    FilterAppend(bookings, [b], p);
    MapAppend(Filter(bookings, p), Filter([b], p), f);
  }

  /** The vendor lists a service with exactly this name. */
  predicate Offers(v: Vendor, name: string)
  {
    exists i :: 0 <= i < |v.services| && v.services[i].name == name
  }

  /** `vendors` with `b` appended to the ledger of every vendor whose id is `id`
      (a read-modify-write of the stored vendor list). */
  function AppendBookingTo(vendors: seq<Vendor>, id: int, b: Booking): (r: seq<Vendor>)
    ensures |r| == |vendors|
    ensures forall i :: 0 <= i < |r| && vendors[i].id != id ==> r[i] == vendors[i]
    ensures forall i :: 0 <= i < |r| && vendors[i].id == id ==>
              r[i] == vendors[i].(bookings := vendors[i].bookings + [b])
  {
    seq(|vendors|, i requires 0 <= i < |vendors| =>
      if vendors[i].id == id then vendors[i].(bookings := vendors[i].bookings + [b]) else vendors[i])
  }
}
