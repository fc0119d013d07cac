// The passenger dashboard: splitting bookings into active ones and history,
// the spend statistics, the ride list taken from a search response and cut to
// future active rides, the ride card's seat choice and total, and booking.
module PassengerDashboard {
  import opened Wrappers
  import opened JsStrings
  import Seqs
  import ApiClient

  datatype Booking = Booking(id: int, status: string, totalAmount: Option<int>)

  predicate IsActive(b: Booking)
  {
    b.status == "PENDING" || b.status == "CONFIRMED"
  }

  predicate IsPast(b: Booking)
  {
    b.status == "CANCELLED" || b.status == "COMPLETED"
  }

  /** The split of `fetchBookings`: active bookings and ride history, each in server order. */
  function SplitBookings(all: seq<Booking>): (seq<Booking>, seq<Booking>)
  {
    (Seqs.Filter(all, IsActive), Seqs.Filter(all, IsPast))
  }

  /** `booking.totalAmount || 0` */
  function AmountOf(b: Booking): int
  {
    if b.totalAmount.Some? then b.totalAmount.value else 0
  }

  /** Sum of `AmountOf` over the bookings satisfying `p`. */
  function SumWhere(s: seq<Booking>, p: Booking -> bool): int
    decreases |s|
  {
    if s == [] then 0 else (if p(s[0]) then AmountOf(s[0]) else 0) + SumWhere(s[1..], p)
  }

  predicate IsCompleted(b: Booking)
  {
    b.status == "COMPLETED"
  }

  predicate Always(b: Booking)
  {
    true
  }

  datatype Stats = Stats(ridesCompleted: nat, totalSpent: int, activeBookings: nat)

  /** The `stats` object: completed rides, spend on completed rides, active bookings. */
  function StatsOf(bookings: seq<Booking>, history: seq<Booking>): Stats
  {
    Stats(Seqs.Count(history, IsCompleted), SumWhere(history, IsCompleted), |bookings|)
  }

  /** The "Total Spent" card, which sums every history entry. */
  function CardTotalSpent(history: seq<Booking>): int
  {
    SumWhere(history, Always)
  }

  // ---- rides ------------------------------------------------------------

  /** A ride; `departure` is its departure in milliseconds, None when it does not parse. */
  datatype Ride = Ride(id: int, status: Option<string>, departure: Option<int>, pricePerSeat: int, availableSeats: nat)

  /** `response.data` of a search reply. */
  datatype RidesData = NoData | Paged(content: Option<seq<Ride>>) | DataArray(rides: seq<Ride>) | OtherData

  /** A search reply as the dashboard receives it. */
  datatype RidesReply = RidesObject(status: Option<string>, data: RidesData) | RidesArray(rides: seq<Ride>) | NoReply

  /** The ride list of a reply: paged content of a SUCCESS reply, else a bare array, else an array
    * in `data`, else nothing. */
  function ExtractRides(r: RidesReply): seq<Ride>
  {
    match r
    case RidesObject(status, data) =>
      if status == Some("SUCCESS") && data.Paged? && data.content.Some? then data.content.value
      else if data.DataArray? then data.rides
      else []
    case RidesArray(rides) => rides
    case NoReply => []
  }

  predicate Bookable(r: Ride, now: int)
  {
    r.departure.Some? && r.departure.value > now && r.status == Some("ACTIVE")
  }

  /** The rides shown: active ones that leave strictly after `now`. */
  function FutureRides(rides: seq<Ride>, now: int): (r: seq<Ride>)
    ensures forall i :: 0 <= i < |r| ==> r[i] in rides && Bookable(r[i], now)
    ensures forall i :: 0 <= i < |rides| && Bookable(rides[i], now) ==> rides[i] in r
    ensures Seqs.Subsequence(r, rides)
    ensures forall x :: multiset(r)[x] == if Bookable(x, now) then multiset(rides)[x] else 0
  {
    Seqs.FilterIsSubsequence(rides, (x: Ride) => Bookable(x, now));
    Seqs.FilterMultiplicity(rides, (x: Ride) => Bookable(x, now));
    Seqs.Filter(rides, (x: Ride) => Bookable(x, now))
  }

  /** `selectedSeats[ride.id] || 1` */
  function SelectedSeats(selected: map<int, int>, rideId: int): int
  {
    if rideId in selected && selected[rideId] != 0 then selected[rideId] else 1
  }

  /** The total on a ride card. */
  function CardTotal(r: Ride, selected: map<int, int>): int
  {
    r.pricePerSeat * SelectedSeats(selected, r.id)
  }

  /** The options of the seat selector: 1 up to `min(4, availableSeats)`. */
  function SeatOptions(availableSeats: nat): (opts: seq<int>)
    ensures |opts| == if availableSeats < 4 then availableSeats else 4
    ensures forall i :: 0 <= i < |opts| ==> opts[i] == i + 1
  {
    var n := if availableSeats < 4 then availableSeats else 4;
    seq(n, i => i + 1)
  }

  predicate SelectorDisabled(r: Ride)
  {
    r.availableSeats == 0
  }

  predicate BookDisabled(r: Ride, loading: bool)
  {
    r.availableSeats == 0 || loading
  }

  // ---- state ------------------------------------------------------------

  /** The bookings request: a body with `status` and `data`, or a thrown error. */
  datatype BookingsReply = BookingsReplied(status: Option<string>, data: Option<seq<Booking>>) | BookingsThrew

  /** The booking request: a body with `status` and `message`, or a thrown error. */
  datatype BookReply = BookReplied(status: Option<string>, message: Option<string>) | BookThrew(error: string)

  /** What the dashboard knows about the signed-in user. */
  datatype UserInfo = UserInfo(firstName: Option<string>, name: Option<string>, phoneNumber: Option<string>, phone: Option<string>)

  /** The pickup the prompt returned is missing or blank. */
  const PickupRequired := "Pickup point is required!"
  const BookedAlert := "Ride booked successfully! Status: PENDING (waiting for driver confirmation)"
  const BookFailurePrefix := "Failed to book ride: "

  /** The reply counts as a booking: status SUCCESS, or any non-empty message. */
  predicate Booked(reply: BookReply)
  {
    reply.BookReplied? && (reply.status == Some("SUCCESS") || Truthy(reply.message))
  }

  predicate PickupMissing(pickup: Option<string>)
  {
    pickup.None? || pickup.value == "" || Trim(pickup.value) == ""
  }

  /** The booking request body of `handleBookRide` for an accepted pickup. */
  function BookingRequest(rideId: int, seats: int, pickup: string, u: UserInfo): ApiClient.BookingBody
  {
    ApiClient.BookRideBody(rideId, seats, OrElse(u.firstName, OrElse(u.name, "Passenger")),
                           OrElse(u.phoneNumber, OrElse(u.phone, "0000000000")), Trim(pickup))
  }

  class Dashboard {
    var bookings: seq<Booking>
    var rideHistory: seq<Booking>
    var availableRides: seq<Ride>
    var selectedSeats: map<int, int>
    var error: string

    constructor ()
      ensures bookings == [] && rideHistory == [] && availableRides == [] && selectedSeats == map[] && error == ""
    {
      bookings := [];
      rideHistory := [];
      availableRides := [];
      selectedSeats := map[];
      error := "";
    }

    /** `fetchBookings`: a SUCCESS reply with data replaces both lists; any other reply keeps them. */
    method FetchBookings(r: BookingsReply)
      modifies this`bookings, this`rideHistory, this`error
      ensures r.BookingsReplied? && r.status == Some("SUCCESS") && r.data.Some? ==>
        (bookings, rideHistory) == SplitBookings(r.data.value) && error == ""
      ensures r.BookingsReplied? && !(r.status == Some("SUCCESS") && r.data.Some?) ==>
        bookings == old(bookings) && rideHistory == old(rideHistory) && error == ""
      ensures r.BookingsThrew? ==>
        bookings == old(bookings) && rideHistory == old(rideHistory) && error == "Failed to load bookings"
    {
      error := "";
      match r
      case BookingsThrew =>
        error := "Failed to load bookings";
      case BookingsReplied(status, data) =>
        if status == Some("SUCCESS") && data.Some? {
          bookings := Seqs.Filter(data.value, IsActive);
          rideHistory := Seqs.Filter(data.value, IsPast);
        }
    }

    /** `loadAllRides` / `handleSearch` on a reply received at `now`; `None` is a thrown error. */
    method LoadRides(r: Option<RidesReply>, now: int, failure: string)
      modifies this`availableRides, this`error
      ensures r.Some? ==> availableRides == FutureRides(ExtractRides(r.value), now) && error == ""
      ensures r.None? ==> availableRides == old(availableRides) && error == failure
    {
      error := "";
      if r.None? {
        error := failure;
        return;
      }
      var rides := ExtractRides(r.value);
      availableRides := FutureRides(rides, now);
    }

    /** Choosing a seat count on a ride card. */
    method SelectSeats(rideId: int, n: int)
      modifies this`selectedSeats
      ensures selectedSeats == old(selectedSeats)[rideId := n]
    {
      selectedSeats := selectedSeats[rideId := n];
    }

    /** `handleBookRide`: `pickup` is what the prompt returned. Returns the request sent, if any,
      * and the alert shown. */
    method BookRide(rideId: int, seats: int, pickup: Option<string>, u: UserInfo, reply: BookReply)
      returns (sent: Option<ApiClient.BookingBody>, alert: string)
      modifies this`error, this`selectedSeats
      ensures PickupMissing(pickup) ==>
        sent == None && alert == PickupRequired && error == "" && selectedSeats == old(selectedSeats)
      ensures !PickupMissing(pickup) ==> sent == Some(BookingRequest(rideId, seats, pickup.value, u))
      ensures !PickupMissing(pickup) && Booked(reply) ==>
        alert == BookedAlert && selectedSeats == old(selectedSeats)[rideId := 1] && error == ""
      ensures !PickupMissing(pickup) && reply.BookReplied? && !Booked(reply) ==>
        alert == BookFailurePrefix + "Booking failed" && error == alert && selectedSeats == old(selectedSeats)
      ensures !PickupMissing(pickup) && reply.BookThrew? ==>
        alert == BookFailurePrefix + reply.error && error == alert && selectedSeats == old(selectedSeats)
    {
      error := "";
      if PickupMissing(pickup) {
        return None, PickupRequired;
      }
      sent := Some(BookingRequest(rideId, seats, pickup.value, u));
      if reply.BookThrew? {
        error := BookFailurePrefix + reply.error;
        alert := error;
      } else if Booked(reply) {
        alert := BookedAlert;
        selectedSeats := selectedSeats[rideId := 1];
      } else {
        error := BookFailurePrefix + "Booking failed";
        alert := error;
      }
    }
  }

  // ---- properties -------------------------------------------------------

  /** Active bookings and history never share a booking, and a booking of any other status
    * appears in neither; both keep the server's order. */
  lemma SplitIsDisjoint(all: seq<Booking>)
    ensures var (active, history) := SplitBookings(all);
      (forall i :: 0 <= i < |active| ==> IsActive(active[i]) && !IsPast(active[i]))
      && (forall i :: 0 <= i < |history| ==> IsPast(history[i]) && !IsActive(history[i]))
      && (forall i :: 0 <= i < |all| && !IsActive(all[i]) && !IsPast(all[i]) ==> all[i] !in active && all[i] !in history)
      && (forall i :: 0 <= i < |all| && IsActive(all[i]) ==> all[i] in active)
      && (forall i :: 0 <= i < |all| && IsPast(all[i]) ==> all[i] in history)
      && Seqs.Subsequence(active, all) && Seqs.Subsequence(history, all)
  {
    var (active, history) := SplitBookings(all);
    forall i | 0 <= i < |active|
      ensures !IsPast(active[i])
    {
      ActiveIsNotPast(active[i]);
    }
    forall i | 0 <= i < |history|
      ensures !IsActive(history[i])
    {
      ActiveIsNotPast(history[i]);
    }
    Seqs.FilterIsSubsequence(all, IsActive);
    Seqs.FilterIsSubsequence(all, IsPast);
  }

  /** No status is both active and past. */
  lemma ActiveIsNotPast(b: Booking)
    ensures !(IsActive(b) && IsPast(b))
  {
    assert "CONFIRMED"[1] != "CANCELLED"[1] && "CONFIRMED"[2] != "COMPLETED"[2];
  }

  /** The card total splits into completed spend and the rest of the history. */
  lemma {:induction false} SumSplit(s: seq<Booking>)
    ensures SumWhere(s, Always) == SumWhere(s, IsCompleted) + SumWhere(s, (b: Booking) => !IsCompleted(b))
    decreases |s|
  {
    if s != [] {
      SumSplit(s[1..]);
    }
  }

  lemma {:induction false} SumNonNegative(s: seq<Booking>, p: Booking -> bool)
    requires forall i :: 0 <= i < |s| ==> AmountOf(s[i]) >= 0
    ensures SumWhere(s, p) >= 0
    decreases |s|
  {
    if s != [] {
      SumNonNegative(s[1..], p);
    }
  }

  /** With non-negative amounts the "Total Spent" card is at least the completed spend; the
    * difference is what cancelled history entries add. */
  lemma CardTotalAtLeastStats(bookings: seq<Booking>, history: seq<Booking>)
    requires forall i :: 0 <= i < |history| ==> AmountOf(history[i]) >= 0
    ensures CardTotalSpent(history) >= StatsOf(bookings, history).totalSpent
    ensures CardTotalSpent(history) - StatsOf(bookings, history).totalSpent == SumWhere(history, (b: Booking) => !IsCompleted(b))
  {
    SumSplit(history);
    SumNonNegative(history, (b: Booking) => !IsCompleted(b));
  }

  /** A cancelled booking with an amount raises the card total but not the statistic. */
  lemma CancelledCountsOnlyOnCard()
    ensures var h := [Booking(1, "COMPLETED", Some(300)), Booking(2, "CANCELLED", Some(200))];
      CardTotalSpent(h) == 500 && StatsOf([], h).totalSpent == 300 && StatsOf([], h).ridesCompleted == 1
  {
    var h := [Booking(1, "COMPLETED", Some(300)), Booking(2, "CANCELLED", Some(200))];
    assert h[1..][1..] == [];
    assert Seqs.Filter(h, IsCompleted) == [h[0]];
  }

  /** Which source the ride list comes from, in order of preference. */
  lemma ExtractionOrder(r: RidesReply)
    ensures r.RidesObject? && r.status == Some("SUCCESS") && r.data.Paged? && r.data.content.Some? ==>
      ExtractRides(r) == r.data.content.value
    ensures r.RidesArray? ==> ExtractRides(r) == r.rides
    ensures r.RidesObject? && r.data.DataArray? ==> ExtractRides(r) == r.data.rides
    ensures r.RidesObject? && (r.data.NoData? || r.data.OtherData? || (r.data.Paged? && (r.status != Some("SUCCESS") || r.data.content.None?))) ==>
      ExtractRides(r) == []
  {
  }

  /** A card's total is the price per seat times the chosen seats, one seat when none was chosen. */
  lemma CardTotalDefault(r: Ride, selected: map<int, int>)
    ensures r.id !in selected ==> CardTotal(r, selected) == r.pricePerSeat
    ensures r.id in selected && selected[r.id] != 0 ==> CardTotal(r, selected) == r.pricePerSeat * selected[r.id]
  {
  }

  /** Every seat option is between 1 and both 4 and the free seats; a full ride offers none. */
  lemma SeatOptionBounds(r: Ride)
    ensures forall i :: 0 <= i < |SeatOptions(r.availableSeats)| ==>
      1 <= SeatOptions(r.availableSeats)[i] <= 4 && SeatOptions(r.availableSeats)[i] <= r.availableSeats
    ensures SelectorDisabled(r) <==> SeatOptions(r.availableSeats) == []
    ensures SelectorDisabled(r) ==> BookDisabled(r, false)
  {
  }

  /** An accepted pickup is sent trimmed and never replaced by the client's default. */
  lemma PickupSentTrimmed(rideId: int, seats: int, pickup: string, u: UserInfo)
    requires !PickupMissing(Some(pickup))
    ensures BookingRequest(rideId, seats, pickup, u).pickupPoint == Trim(pickup)
    ensures BookingRequest(rideId, seats, pickup, u).pickupPoint != "Default pickup point" || Trim(pickup) == "Default pickup point"
  {
  }

  /** The passenger name falls back from first name to name to "Passenger". */
  lemma PassengerNameFallback(rideId: int, seats: int, pickup: string, u: UserInfo)
    ensures Truthy(u.firstName) ==> BookingRequest(rideId, seats, pickup, u).passengerName == u.firstName.value
    ensures !Truthy(u.firstName) && !Truthy(u.name) ==> BookingRequest(rideId, seats, pickup, u).passengerName == "Passenger"
    ensures !Truthy(u.phoneNumber) && !Truthy(u.phone) ==> BookingRequest(rideId, seats, pickup, u).passengerPhone == "0000000000"
  {
  }
}
