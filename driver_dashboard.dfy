// The driver dashboard: the ordered post-ride checks and what a submission does
// to the form, the fare lookup that fills the price, the "time ago" buckets,
// the recent-activity list, tab switching, and the fare rule stated in its UI text.
module DriverDashboard {
  import opened Wrappers
  import opened JsStrings
  import JsNumbers
  import Seqs
  import ApiMethods
  import Toasts

  // ---- post-ride form ---------------------------------------------------

  /** The post-ride form; every field is the text of its input. */
  datatype Form = Form(from: string, to: string, date: string, time: string, seats: string, price: string, notes: string)

  const EmptyForm := Form("", "", "", "", "", "", "")
  /** The toast a successful post shows. */
  const PostedToast := "Ride posted successfully!"

  /** `parseInt(seats) < 1`, false when the text is not a number. */
  predicate BelowOneSeat(seats: string)
  {
    var n := JsNumbers.ParseInt(seats);
    n.Some? && n.value < 1
  }

  predicate PriceBelow(price: string, bound: real)
  {
    var p := JsNumbers.ParseFloat(price);
    p.Some? && p.value < bound
  }

  predicate PriceAbove(price: string, bound: real)
  {
    var p := JsNumbers.ParseFloat(price);
    p.Some? && p.value > bound
  }

  predicate SeatsOutOfRange(seats: string)
  {
    var n := JsNumbers.ParseInt(seats);
    n.Some? && (n.value < 1 || n.value > 8)
  }

  /** `new Date(date + 'T' + time) <= now`; `departure` is that date in milliseconds, None when
    * it does not parse (an invalid date compares false). */
  predicate NotInFuture(departure: Option<int>, now: int)
  {
    departure.Some? && departure.value <= now
  }

  /** The validation part of `handlePostRideSubmit`: Ok when the form may be posted. */
  function ValidatePostRide(f: Form, departure: Option<int>, now: int): Result<Unit>
  {
    if IsBlank(f.from) then Err("Please enter departure location")
    else if IsBlank(f.to) then Err("Please enter destination location")
    else if f.date == "" then Err("Please select departure date")
    else if f.time == "" then Err("Please select departure time")
    else if f.seats == "" || BelowOneSeat(f.seats) then Err("Please select number of available seats")
    else if f.price == "" || PriceBelow(f.price, 1.0) then Err("Please enter a valid price per seat")
    else if NotInFuture(departure, now) then Err("Departure date and time must be in the future")
    else if PriceBelow(f.price, 10.0) then Err("Price per seat must be at least ₹10")
    else if PriceAbove(f.price, 10000.0) then Err("Price per seat cannot exceed ₹10,000")
    else if SeatsOutOfRange(f.seats) then Err("Available seats must be between 1 and 8")
    else Ok(Unit)
  }

  /** What `apiService.postRide` resolved to, or the message it threw. */
  datatype PostReply = PostReplied(status: Option<string>, message: Option<string>) | PostThrew(error: string)

  /** What `apiService.calculateFare` resolved to, or the message it threw. */
  datatype FareReply = FareSucceeded(data: FareData) | FareRefused(message: Option<string>) | FareThrew(error: string)

  datatype FareData = FareData(calculatedFare: nat, distanceKm: nat)

  // ---- time ago ---------------------------------------------------------

  /** A timestamp field: absent or empty, present but not a date, or a date in milliseconds. */
  datatype Stamp = Missing | Unparseable | At(ms: int)

  /** The buckets of `formatTimeAgo`. */
  datatype TimeAgo = Recently | MinutesAgo(mins: int) | HoursAgo(hours: int) | Yesterday | DaysAgo(days: int)
                   | OnDate(ms: int) | InvalidDate

  const MinuteMs := 60000
  const HourMs := 3600000
  const DayMs := 86400000

  /** `formatTimeAgo(stamp)` at time `now` (milliseconds). */
  function FormatTimeAgo(stamp: Stamp, now: int): TimeAgo
  {
    match stamp
    case Missing => Recently
    case Unparseable => InvalidDate
    case At(ms) =>
      var diffMs := now - ms;
      var diffMins := diffMs / MinuteMs;
      var diffHours := diffMs / HourMs;
      var diffDays := diffMs / DayMs;
      if diffMins < 60 then MinutesAgo(diffMins)
      else if diffHours < 24 then HoursAgo(diffHours)
      else if diffDays == 1 then Yesterday
      else if diffDays < 7 then DaysAgo(diffDays)
      else OnDate(ms)
  }

  /** The text of a bucket; `dateLabel` is the locale's short date of a timestamp. */
  function TimeAgoText(t: TimeAgo, dateLabel: int -> string): string
  {
    match t
    case Recently => "Recently"
    case MinutesAgo(n) => JsNumbers.IntToString(n) + (if n == 1 then " minute" else " minutes") + " ago"
    case HoursAgo(n) => JsNumbers.IntToString(n) + (if n == 1 then " hour" else " hours") + " ago"
    case Yesterday => "Yesterday"
    case DaysAgo(n) => JsNumbers.IntToString(n) + " days ago"
    case OnDate(ms) => dateLabel(ms)
    case InvalidDate => "Invalid Date"
  }

  // ---- recent activities ------------------------------------------------

  datatype DriverBooking = DriverBooking(bookingStatus: string, bookingDate: Stamp, totalAmount: Option<int>)
  datatype Payment = Payment(settlementStatus: string, settlementDate: Stamp, driverSettlementAmount: Option<int>)

  /** The bookings request: a body with `status` and `data`, or a failure. */
  datatype BookingsReply = BookingsReplied(status: Option<string>, data: Option<seq<DriverBooking>>) | BookingsFailed
  /** The earnings request: a body with `success` and `data`; a failure reads as `{success: false}`. */
  datatype PaymentsReply = PaymentsReplied(success: bool, data: Option<seq<Payment>>) | PaymentsFailed

  datatype ActivityType = BookingActivity | PaymentActivity
  datatype Activity = Activity(kind: ActivityType, title: string, time: TimeAgo, amount: Option<int>)

  function BookingTitle(status: string): string
  {
    if status == "CONFIRMED" then "New booking received"
    else if status == "COMPLETED" then "Booking completed"
    else "Booking updated"
  }

  function FromBooking(b: DriverBooking, now: int): Activity
  {
    Activity(BookingActivity, BookingTitle(b.bookingStatus), FormatTimeAgo(b.bookingDate, now), b.totalAmount)
  }

  function FromPayment(p: Payment, now: int): Activity
  {
    Activity(PaymentActivity, "Payment received", FormatTimeAgo(p.settlementDate, now), p.driverSettlementAmount)
  }

  /** One entry per booking, in order. */
  function FromBookings(bs: seq<DriverBooking>, now: int): (r: seq<Activity>)
    ensures |r| == |bs|
  {
    Seqs.MapSeq(bs, (b: DriverBooking) => FromBooking(b, now))
  }

  /** One entry per payment, in order. */
  function FromPayments(ps: seq<Payment>, now: int): (r: seq<Activity>)
    ensures |r| == |ps|
  {
    Seqs.MapSeq(ps, (p: Payment) => FromPayment(p, now))
  }

  predicate SettlementCompleted(p: Payment)
  {
    p.settlementStatus == "COMPLETED"
  }

  /** The booking part of the list: the first three bookings. */
  function BookingPart(r: BookingsReply, now: int): seq<Activity>
  {
    if r.BookingsReplied? && r.status == Some("SUCCESS") && r.data.Some? then
      FromBookings(Seqs.Take(r.data.value, 3), now)
    else []
  }

  /** The payment part of the list: the first two payments whose settlement completed. */
  function PaymentPart(r: PaymentsReply, now: int): seq<Activity>
  {
    if r.PaymentsReplied? && r.success && r.data.Some? then
      FromPayments(Seqs.Take(Seqs.Filter(r.data.value, SettlementCompleted), 2), now)
    else []
  }

  /** The assembly in `fetchRecentActivities`: push the booking part, push the payment part, keep
    * the order (the comparator always answers 0, and the sort is stable), keep at most five. A
    * failed bookings request fails the whole batch and leaves the list empty. */
  method AssembleActivities(bookings: BookingsReply, payments: PaymentsReply, now: int) returns (recent: seq<Activity>)
    ensures bookings.BookingsFailed? ==> recent == []
    ensures !bookings.BookingsFailed? ==> recent == BookingPart(bookings, now) + PaymentPart(payments, now)
    ensures |recent| <= 5
  {
    if bookings.BookingsFailed? {
      return [];
    }
    var activities: seq<Activity> := [];
    if bookings.status == Some("SUCCESS") && bookings.data.Some? {
      var firstThree := Seqs.Take(bookings.data.value, 3);
      activities := activities + FromBookings(firstThree, now);
    }
    assert activities == BookingPart(bookings, now) && |activities| <= 3;
    if payments.PaymentsReplied? && payments.success && payments.data.Some? {
      var completed := Seqs.Filter(payments.data.value, SettlementCompleted);
      var firstTwo := Seqs.Take(completed, 2);
      activities := activities + FromPayments(firstTwo, now);
    }
    assert activities == BookingPart(bookings, now) + PaymentPart(payments, now) && |activities| <= 5;
    recent := Seqs.Take(activities, 5);
  }

  /** `fetchRecentActivities` as written: building the `Promise.all` argument calls
    * `apiService.get`, which the service does not define, so a TypeError reaches the handler's
    * catch before either request is awaited, and the list is emptied. */
  function ActivitiesAsWritten(bookings: BookingsReply, payments: PaymentsReply, now: int): seq<Activity>
  {
    if !ApiMethods.Defines("get") || bookings.BookingsFailed? then []
    else BookingPart(bookings, now) + PaymentPart(payments, now)
  }

  /** As written, the recent-activity list is empty whatever the two requests would return. */
  lemma ActivitiesEmptyAsWritten(bookings: BookingsReply, payments: PaymentsReply, now: int)
    ensures ActivitiesAsWritten(bookings, payments, now) == []
  {
    ApiMethods.GenericVerbsUndefined();
  }

  // ---- the fare rule of the UI text ---------------------------------------

  const BaseFare: nat := 50
  const RatePerKm: nat := 3
  const MaxFare: nat := 5000

  /** The fare rule the post-ride form documents: base 50 plus 3 per km, at most 5000. The
    * computation itself happens on the server. */
  function DocumentedFare(km: nat): nat
  {
    var f := BaseFare + RatePerKm * km;
    if f > MaxFare then MaxFare else f
  }

  // ---- the dashboard's state --------------------------------------------

  class Dashboard {
    var activeTab: string
    var form: Form
    var fareCalculation: Option<FareData>
    var error: string
    var recentActivities: seq<Activity>

    constructor ()
      ensures activeTab == "overview" && form == EmptyForm && fareCalculation == None && error == "" && recentActivities == []
    {
      activeTab := "overview";
      form := EmptyForm;
      fareCalculation := None;
      error := "";
      recentActivities := [];
    }

    /** `handleTabSwitch`: the same tab is a no-op; switching to the overview of a signed-in
      * driver also refreshes the stats and the activities. */
    method SwitchTab(newTab: string, signedIn: bool) returns (switched: bool, refreshes: bool)
      modifies this`activeTab
      ensures activeTab == newTab
      ensures switched <==> old(activeTab) != newTab
      ensures refreshes <==> switched && newTab == "overview" && signedIn
    {
      if newTab == activeTab {
        return false, false;
      }
      activeTab := newTab;
      switched := true;
      refreshes := newTab == "overview" && signedIn;
    }

    /** `handlePostRideSubmit`. Returns the form handed to `postRide`, if the checks let it through,
      * and the toast shown, if any. */
    method SubmitPostRide(departure: Option<int>, now: int, reply: PostReply)
      returns (posted: Option<Form>, toast: Option<(Toasts.Kind, string)>)
      modifies this`form, this`fareCalculation, this`error, this`activeTab
      ensures ValidatePostRide(old(form), departure, now).Err? ==>
        posted == None && toast == None && error == ValidatePostRide(old(form), departure, now).msg
        && form == old(form) && fareCalculation == old(fareCalculation) && activeTab == old(activeTab)
      ensures ValidatePostRide(old(form), departure, now).Ok? ==> posted == Some(old(form))
      ensures ValidatePostRide(old(form), departure, now).Ok? && reply.PostReplied? && reply.status == Some("SUCCESS") ==>
        toast == Some((Toasts.Success, PostedToast))
        && form == EmptyForm && fareCalculation == None && error == "" && activeTab == "my-rides"
      ensures ValidatePostRide(old(form), departure, now).Ok? && reply.PostReplied? && reply.status != Some("SUCCESS") ==>
        toast == None && error == OrElse(reply.message, "Failed to post ride")
        && form == old(form) && fareCalculation == old(fareCalculation) && activeTab == old(activeTab)
      ensures ValidatePostRide(old(form), departure, now).Ok? && reply.PostThrew? ==>
        toast == None && error == OrElse(Some(reply.error), "Failed to post ride")
        && form == old(form) && fareCalculation == old(fareCalculation) && activeTab == old(activeTab)
    {
      error := "";
      var check := ValidatePostRide(form, departure, now);
      if check.Err? {
        error := check.msg;
        return None, None;
      }
      posted := Some(form);
      toast := None;
      match reply
      case PostThrew(e) =>
        error := if e != "" then e else "Failed to post ride";
      case PostReplied(status, message) =>
        if status == Some("SUCCESS") {
          toast := Some((Toasts.Success, PostedToast));
          form := EmptyForm;
          fareCalculation := None;
          var _, _ := SwitchTab("my-rides", false);
        } else {
          error := OrElse(message, "Failed to post ride");
        }
    }

    /** `calculateFare`. Returns whether the fare service was asked. */
    method CalculateFare(reply: FareReply) returns (asked: bool)
      modifies this`form, this`fareCalculation, this`error
      ensures old(form.from) == "" || old(form.to) == "" ==>
        !asked && error == "Please enter both source and destination to calculate fare"
        && form == old(form) && fareCalculation == old(fareCalculation)
      ensures old(form.from) != "" && old(form.to) != "" ==> asked
      ensures asked && reply.FareSucceeded? ==>
        fareCalculation == Some(reply.data) && error == ""
        && form == old(form).(price := JsNumbers.NatToString(reply.data.calculatedFare))
      ensures asked && reply.FareRefused? ==>
        error == "Failed to calculate fare: " + reply.message.GetOr("undefined")
        && form == old(form) && fareCalculation == old(fareCalculation)
      ensures asked && reply.FareThrew? ==>
        error == "Error calculating fare: " + reply.error && form == old(form) && fareCalculation == old(fareCalculation)
    {
      if form.from == "" || form.to == "" {
        error := "Please enter both source and destination to calculate fare";
        return false;
      }
      asked := true;
      error := "";
      match reply
      case FareSucceeded(data) =>
        fareCalculation := Some(data);
        form := form.(price := JsNumbers.NatToString(data.calculatedFare));
      case FareRefused(message) =>
        error := "Failed to calculate fare: " + message.GetOr("undefined");
      case FareThrew(e) =>
        error := "Error calculating fare: " + e;
    }

    /** `fetchRecentActivities`: the list on screen becomes the assembled activities. */
    method FetchRecentActivities(bookings: BookingsReply, payments: PaymentsReply, now: int)
      modifies this`recentActivities
      ensures bookings.BookingsFailed? ==> recentActivities == []
      ensures !bookings.BookingsFailed? ==> recentActivities == BookingPart(bookings, now) + PaymentPart(payments, now)
    {
      recentActivities := AssembleActivities(bookings, payments, now);
    }
  }

  // ---- properties -------------------------------------------------------

  /** A form is let through exactly when its locations are not blank, date and time are filled,
    * the departure is not in the past, and the seats and price are filled and, where they read
    * as numbers, within 1..8 and 10..10000. */
  lemma {:induction false} AcceptedForms(f: Form, departure: Option<int>, now: int)
    ensures ValidatePostRide(f, departure, now).Ok? <==>
      !IsBlank(f.from) && !IsBlank(f.to) && f.date != "" && f.time != "" && f.seats != "" && f.price != ""
      && !NotInFuture(departure, now)
      && (JsNumbers.ParseFloat(f.price).Some? ==> 10.0 <= JsNumbers.ParseFloat(f.price).value <= 10000.0)
      && (JsNumbers.ParseInt(f.seats).Some? ==> 1 <= JsNumbers.ParseInt(f.seats).value <= 8)
  {
    PriceChecks(f.price);
    SeatChecks(f.seats);
  }

  /** The three price checks together admit a NaN price or one from 10 to 10000. */
  lemma PriceChecks(price: string)
    ensures !PriceBelow(price, 1.0) && !PriceBelow(price, 10.0) && !PriceAbove(price, 10000.0)
      <==> (JsNumbers.ParseFloat(price).Some? ==> 10.0 <= JsNumbers.ParseFloat(price).value <= 10000.0)
  {
  }

  /** The two seat checks together admit a NaN seat count or one from 1 to 8. */
  lemma SeatChecks(seats: string)
    ensures !BelowOneSeat(seats) && !SeatsOutOfRange(seats)
      <==> (JsNumbers.ParseInt(seats).Some? ==> 1 <= JsNumbers.ParseInt(seats).value <= 8)
  {
  }

  /** A price that does not read as a number passes every price check (NaN compares false);
    * the form's number input never produces one. */
  lemma NonNumericPriceSlipsThrough()
    ensures ValidatePostRide(Form("Pune", "Mumbai", "2030-01-01", "09:30", "2", "abc", ""), Some(10), 0).Ok?
  {
    AcceptedForms(Form("Pune", "Mumbai", "2030-01-01", "09:30", "2", "abc", ""), Some(10), 0);
    SampleFields();
  }

  /** The fields of the sample form read as the browser reads them. */
  lemma SampleFields()
    ensures !IsBlank("Pune") && !IsBlank("Mumbai")
    ensures JsNumbers.ParseFloat("abc") == None && JsNumbers.ParseInt("2") == Some(2)
  {
    PuneNotBlank();
    MumbaiNotBlank();
    AbcIsNaN();
    TwoSeatsRead();
  }

  lemma PuneNotBlank()
    ensures !IsBlank("Pune")
  {
    TrimNoWhitespace("Pune");
  }

  lemma MumbaiNotBlank()
    ensures !IsBlank("Mumbai")
  {
    TrimNoWhitespace("Mumbai");
  }

  lemma TwoSeatsRead()
    ensures JsNumbers.ParseInt("2") == Some(2)
  {
    assert JsStrings.LeadingWhitespace("2") == 0;
    assert JsNumbers.SplitSign("2") == (false, "2");
    assert JsNumbers.LeadingDigits("2") == 1;
    assert JsNumbers.DigitsValue("2") == 2;
  }

  lemma AbcIsNaN()
    ensures JsNumbers.ParseFloat("abc") == None
  {
    assert JsNumbers.LeadingDigits("abc") == 0;
  }

  /** Whitespace-only locations are refused by the post checks although they pass the fare lookup's
    * untrimmed guard. */
  lemma WhitespaceLocationRefused(f: Form, departure: Option<int>, now: int)
    requires f.from == " "
    ensures f.from != "" && ValidatePostRide(f, departure, now) == Err("Please enter departure location")
  {
    BlankIffAllWhitespace(f.from);
  }

  /** The buckets in milliseconds: under an hour counts minutes, under a day hours, the second
    * day is "Yesterday", days two to six count days, a week or more prints the date. */
  lemma TimeAgoBuckets(ms: int, now: int)
    ensures var d := now - ms; var t := FormatTimeAgo(At(ms), now);
      (t.MinutesAgo? <==> d < HourMs)
      && (t.MinutesAgo? ==> t.mins == d / MinuteMs && t.mins * MinuteMs <= d)
      && (t.HoursAgo? <==> HourMs <= d < DayMs)
      && (t.HoursAgo? ==> 1 <= t.hours < 24)
      && (t == Yesterday <==> DayMs <= d < 2 * DayMs)
      && (t.DaysAgo? <==> 2 * DayMs <= d < 7 * DayMs)
      && (t.DaysAgo? ==> 2 <= t.days < 7)
      && (t.OnDate? <==> 7 * DayMs <= d)
  {
  }

  /** The unit word is singular only for exactly one minute or hour. */
  lemma TimeAgoSingular(n: int, dateLabel: int -> string)
    ensures TimeAgoText(MinutesAgo(n), dateLabel) == JsNumbers.IntToString(n) + " minute ago" <==> n == 1
    ensures TimeAgoText(HoursAgo(n), dateLabel) == JsNumbers.IntToString(n) + " hour ago" <==> n == 1
  {
    var s := JsNumbers.IntToString(n);
    if n != 1 {
      assert (s + " minutes ago")[|s| + 7] == 's';
      assert (s + " hours ago")[|s| + 5] == 's';
    }
  }

  /** At most three booking and two payment entries exist, so the cap of five never cuts one. */
  lemma ActivitiesFitTheCap(bookings: BookingsReply, payments: PaymentsReply, now: int)
    ensures |BookingPart(bookings, now)| <= 3 && |PaymentPart(payments, now)| <= 2
    ensures forall i :: 0 <= i < |BookingPart(bookings, now)| ==> BookingPart(bookings, now)[i].kind == BookingActivity
    ensures forall i :: 0 <= i < |PaymentPart(payments, now)| ==>
      PaymentPart(payments, now)[i].kind == PaymentActivity && PaymentPart(payments, now)[i].title == "Payment received"
  {
  }

  /** The booking entries are the first three bookings, titled by their status. */
  lemma BookingEntries(data: seq<DriverBooking>, now: int)
    ensures var part := BookingPart(BookingsReplied(Some("SUCCESS"), Some(data)), now);
      |part| == (if |data| < 3 then |data| else 3)
      && forall i :: 0 <= i < |part| ==> part[i].title == BookingTitle(data[i].bookingStatus) && part[i].amount == data[i].totalAmount
  {
  }

  /** The documented fare lies between the base fare and the cap and grows with the distance. */
  lemma FareRuleBounds(km: nat, km2: nat)
    ensures BaseFare <= DocumentedFare(km) <= MaxFare
    ensures km <= km2 ==> DocumentedFare(km) <= DocumentedFare(km2)
    ensures km <= 1650 ==> DocumentedFare(km) == 50 + 3 * km
  {
  }

  /** A price filled in from a fare of the documented rule passes the three price checks
    * (present and at least 1, at least 10, at most 10000). */
  lemma FilledFarePassesPriceChecks(f: Form, km: nat)
    ensures var p := JsNumbers.NatToString(DocumentedFare(km));
      p != "" && !PriceBelow(p, 1.0) && !PriceBelow(p, 10.0) && !PriceAbove(p, 10000.0)
  {
    JsNumbers.ParseFloatOfNatToString(DocumentedFare(km));
  }
}
