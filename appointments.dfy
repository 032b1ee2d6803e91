/** The appointment page: the pending booking, the demo login and the
    simulated payment that records the paid booking in the vendor's ledger. */
module Appointments {
  import opened Records
  import opened Ledger
  import opened ServicePage

  /** Index of the first service named like the booking's service, -1 when
      there is none. */
  function FindService(services: seq<Service>, name: Option<string>): (k: int)
    ensures -1 <= k < |services|
    ensures k >= 0 ==> Some(services[k].name) == name
    ensures forall j :: 0 <= j < |services| && (k < 0 || j < k) ==> Some(services[j].name) != name
  {
    if |services| == 0 then -1
    else if Some(services[0].name) == name then 0
    else
      var k := FindService(services[1..], name);
      if k < 0 then -1 else k + 1
  }

  /** The price shown on the page: the first matching service's price, 0 when
      no service matches. */
  function DisplayedPrice(services: seq<Service>, name: Option<string>): (p: real)
    ensures (exists j :: 0 <= j < |services| && Some(services[j].name) == name) ==>
              exists j :: 0 <= j < |services| && Some(services[j].name) == name && p == services[j].price
    ensures (forall j :: 0 <= j < |services| ==> Some(services[j].name) != name) ==> p == 0.0
    ensures forall k :: (0 <= k < |services| && Some(services[k].name) == name &&
                         (forall j :: 0 <= j < k ==> Some(services[j].name) != name)) ==> p == services[k].price
  {
    var k := FindService(services, name);
    if k < 0 then 0.0 else services[k].price
  }

  /** The ledger entry `handlePayment` appends: the booking's date, time and
      service under the payer's e-mail, confirmed and carrying the payment. */
  function PaidEntry(b: BookingDetails, email: string, paid: Payment): (e: Booking)
    ensures e.date == b.date && e.time == b.time && e.service == b.service
    ensures e.confirmed && e.payment == Some(paid)
  {
    Booking(b.date, b.time, b.service, email, true, Some(paid))
  }

  /** The demo login accepts a non-empty e-mail with a password of at least
      six characters. */
  predicate DemoLoginAccepts(email: string, password: string)
  {
    email != "" && |password| >= 6
  }

  class AppointmentsPage {
    /** The store's "bookingDetails" key. */
    var storedBooking: Option<BookingDetails>
    /** The store's "user" key. */
    var storedUser: Option<User>
    /** The store's "vendors" key. */
    var storedVendors: seq<Vendor>
    /** The store's "paymentRedirect" key is set. */
    var paymentRedirect: bool
    var booking: Option<BookingDetails>
    var user: Option<User>
    var showPayment: bool
    var paymentSuccess: bool
    var loading: bool
    var showLogin: bool
    var loginEmail: string
    var loginPassword: string

    /** The mount effect: load the pending booking and the user; a pending
        payment intent with a user present opens the payment options and is
        consumed; an already paid booking shows the success view. */
    constructor (details: Option<BookingDetails>, storedUser: Option<User>, vendors: seq<Vendor>, redirect: bool)
      ensures storedBooking == details && booking == details
      ensures this.storedUser == storedUser && user == storedUser && storedVendors == vendors
      ensures showPayment == (redirect && storedUser.Some?)
      ensures paymentRedirect == (redirect && storedUser.None?)
      ensures paymentSuccess == (details.Some? && details.value.payment.Some?)
      ensures !loading && !showLogin && loginEmail == "" && loginPassword == ""
    {
      storedBooking := details;
      booking := details;
      this.storedUser := storedUser;
      user := storedUser;
      storedVendors := vendors;
      paymentRedirect := redirect;
      showPayment := false;
      if redirect && storedUser.Some? {
        paymentRedirect := false;
        showPayment := true;
      }
      paymentSuccess := details.Some? && details.value.payment.Some?;
      loading := false;
      showLogin := false;
      loginEmail := "";
      loginPassword := "";
    }

    /** `handleLogin`: an accepted form signs in "Demo User" under the entered
        e-mail and closes the login form; a rejected one changes nothing. */
    method Login()
      modifies this`storedUser, this`user, this`showLogin
      ensures DemoLoginAccepts(loginEmail, loginPassword) ==>
                user == Some(User(loginEmail, "Demo User")) && storedUser == user && !showLogin
      ensures !DemoLoginAccepts(loginEmail, loginPassword) ==>
                user == old(user) && storedUser == old(storedUser) && showLogin == old(showLogin)
    {
      if DemoLoginAccepts(loginEmail, loginPassword) {
        var u := User(loginEmail, "Demo User");
        storedUser := Some(u);
        user := Some(u);
        showLogin := false;
      }
    }

    /** `handlePayment` with the timer already fired: without a user only the
        payment intent is stored; otherwise the booking is stamped as paid by
        the user's e-mail and the paid, confirmed entry is appended to the
        stored ledger of every vendor with the booking's vendor id. When the
        booking's service is not among the vendor's services the price lookup
        fails and the page stays loading with nothing else changed. */
    method Pay(paymentMethod: string, paymentId: string)
      requires booking.Some?
      modifies this`paymentRedirect, this`loading, this`storedBooking, this`booking,
               this`paymentSuccess, this`storedVendors
      ensures user.None? ==>
                paymentRedirect && loading == old(loading) && booking == old(booking)
                && storedBooking == old(storedBooking) && paymentSuccess == old(paymentSuccess)
                && storedVendors == old(storedVendors)
      ensures user.Some? ==> paymentRedirect == old(paymentRedirect)
      ensures var b := old(booking).value;
        var k := FindService(b.vendor.services, b.service);
        user.Some? && k < 0 ==>
          loading && booking == old(booking) && storedBooking == old(storedBooking)
          && paymentSuccess == old(paymentSuccess) && storedVendors == old(storedVendors)
      ensures var b := old(booking).value;
        var k := FindService(b.vendor.services, b.service);
        user.Some? && k >= 0 ==>
          var paid := Payment(paymentId, b.vendor.services[k].price, paymentMethod);
          && booking == Some(b.(payment := Some(paid), user := EmailOnly(user.value.email)))
          && storedBooking == booking && paymentSuccess && !loading
          && storedVendors == AppendBookingTo(old(storedVendors), b.vendor.id,
               PaidEntry(b, user.value.email, paid))
    {
      if user.None? {
        paymentRedirect := true;
        return;
      }
      loading := true;
      var b := booking.value;
      var email := user.value.email;
      var k := FindService(b.vendor.services, b.service);
      if k < 0 {
        return;
      }
      var paid := Payment(paymentId, b.vendor.services[k].price, paymentMethod);
      var updated := b.(payment := Some(paid), user := EmailOnly(email));
      storedBooking := Some(updated);
      booking := Some(updated);
      paymentSuccess := true;
      loading := false;
      storedVendors := AppendBookingTo(storedVendors, b.vendor.id,
                         PaidEntry(b, email, paid));
    }
  }

  /** Booking a slot on the service page and then paying for it on this page
      appends two confirmed entries for the booking's date and time to the
      vendor's ledger: neither step checks the ledger before appending, so the
      slot's time is listed as booked twice for that date. */
  lemma {:induction false} BookThenPayRecordsTwice(vendors: seq<Vendor>, i: int, d: BookingDetails,
                                                   customer: string, email: string, paid: Payment)
    requires 0 <= i < |vendors| && d.vendor.id == vendors[i].id
    ensures var booked := BookedEntry(d.date, d.time, d.service, customer);
      var payment := PaidEntry(d, email, paid);
      var after := AppendBookingTo(AppendBookingTo(vendors, d.vendor.id, booked), d.vendor.id, payment);
      && after[i].bookings == vendors[i].bookings + [booked, payment]
      && booked.confirmed && payment.confirmed
      && booked.date == d.date && payment.date == d.date
      && booked.time == d.time && payment.time == d.time
      && BookedTimes(after[i].bookings, d.date) == BookedTimes(vendors[i].bookings, d.date) + [d.time, d.time]
  {
    var booked := BookedEntry(d.date, d.time, d.service, customer);
    var payment := PaidEntry(d, email, paid);
    var once := AppendBookingTo(vendors, d.vendor.id, booked);
    assert once[i].bookings == vendors[i].bookings + [booked];
    assert once[i].id == vendors[i].id;
    var twice := AppendBookingTo(once, d.vendor.id, payment);
    assert twice[i].bookings == once[i].bookings + [payment];
    assert vendors[i].bookings + [booked] + [payment] == vendors[i].bookings + [booked, payment];
    BookedTimesAppend(vendors[i].bookings, booked, d.date);
    BookedTimesAppend(once[i].bookings, payment, d.date);
    assert BookedTimes(vendors[i].bookings, d.date) + [d.time] + [d.time]
        == BookedTimes(vendors[i].bookings, d.date) + [d.time, d.time];
  }
}
