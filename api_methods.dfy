// The method table of the client's `ApiService` class: which names a call `apiService.<name>(...)`
// can reach. A name the class body does not define evaluates to `undefined`, and calling it throws.
module ApiMethods {
  /** The method names of the `ApiService` class body in source order, duplicates included,
    * in groups of eight. */
  const Names1: seq<string> := [
    "setToken", "getAuthHeaders", "apiCall", "testConnection", "register", "verifyOtp",
    "resendOtp", "login"
  ]
  const Names2: seq<string> := [
    "adminLogin", "getUserProfile", "updateUserProfile", "getAllUsers", "deleteUser",
    "addDriverDetails", "getDriverDetails", "updateDriverDetails"
  ]
  const Names3: seq<string> := [
    "postRide", "getMyRides", "getMyUpcomingRides", "searchRides", "getAllAvailableRides",
    "getRideById", "getRideBookings", "updateRideStatus"
  ]
  const Names4: seq<string> := [
    "deleteRide", "calculateFare", "createBooking", "bookRide", "getMyBookings",
    "getMyUpcomingBookings", "cancelBooking", "getDriverBookings"
  ]
  const Names5: seq<string> := [
    "cancelRide", "completeRide", "activateRide", "confirmBooking", "cancelBookingByDriver",
    "getRideBookings", "getAdminProfile", "getPendingDrivers"
  ]
  const Names6: seq<string> := [
    "getAllDriverDetails", "verifyDriver", "getAllUsers", "getUserById", "deleteUser",
    "adminVerifyDriver", "adminRejectDriver", "createPaymentOrder"
  ]
  const Names7: seq<string> := [
    "verifyPayment", "handlePaymentFailure", "getPassengerPaymentHistory",
    "getDriverPaymentHistory", "getPaymentHistoryByDateRange", "releasePaymentToDriver",
    "getDriverTotalEarnings", "getPassengerTotalSpending"
  ]
  /** Calling `apiService.<name>(...)` reaches a method of the class; any other name is `undefined`
    * and the call throws a TypeError. */
  predicate Defines(name: string)
  {
    name in Names1 || name in Names2 || name in Names3 || name in Names4
    || name in Names5 || name in Names6 || name in Names7
  }

  // ---- properties -------------------------------------------------------

  /** No name in a group of lengths other than 3, 4, 6 and 24 is one of the four missing names. */
  lemma NoGenericVerb(names: seq<string>)
    requires forall i :: 0 <= i < |names| ==> |names[i]| >= 5 && |names[i]| != 6 && |names[i]| != 24
    ensures "get" !in names && "post" !in names && "delete" !in names && "getAllDriversWithRatings" !in names
  {
  }

  /** No group holds one of the four missing names. */
  lemma MissingNames()
    ensures !Defines("get") && !Defines("post") && !Defines("delete") && !Defines("getAllDriversWithRatings")
  {
    NoGenericVerb(Names1);
    NoGenericVerb(Names2);
    NoGenericVerb(Names3);
    NoGenericVerb(Names4);
    NoGenericVerb(Names5);
    NoGenericVerb(Names6);
    NoGenericVerb(Names7);
  }

  /** The class has no generic `get`, `post` or `delete` and no `getAllDriversWithRatings`, all of
    * which components call; the named calls of the booking and ride handlers exist. */
  lemma GenericVerbsUndefined()
    ensures !Defines("get") && !Defines("post") && !Defines("delete") && !Defines("getAllDriversWithRatings")
    ensures Defines("postRide") && Defines("bookRide") && Defines("getMyBookings") && Defines("getDriverBookings")
      && Defines("calculateFare") && Defines("getAllUsers")
  {
    MissingNames();
    assert Names3[0] == "postRide" && Names4[3] == "bookRide" && Names4[4] == "getMyBookings";
    assert Names4[7] == "getDriverBookings" && Names4[1] == "calculateFare" && Names2[3] == "getAllUsers";
  }
}
