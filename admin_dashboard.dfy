// The admin dashboard (current version): driver verification status, the user
// and driver filters, the statistics cards, the status badge and action
// buttons, tab switching, page resets and the reject-with-reason dialog.
module AdminDashboard {
  import opened Wrappers
  import opened JsStrings
  import Seqs
  import Pagination
  import Toasts

  /** A driver row as the backend sends it; absent JSON fields are None. */
  datatype Driver = Driver(driverDetailId: Option<int>, id: Option<int>, isVerified: Option<bool>, rejectionReason: Option<string>)

  /** A user row as the backend sends it. */
  datatype User = User(firstName: Option<string>, lastName: Option<string>, email: Option<string>, phoneNumber: Option<string>, role: Option<string>)

  /** `getVerificationStatus`: 1 (Verified), 0 (Rejected) or null (Pending). */
  datatype Verification = Verified | Rejected | Pending

  datatype Stats = Stats(totalUsers: nat, totalDrivers: nat, pendingVerifications: nat, verifiedDrivers: nat)

  function VerificationStatus(d: Driver): Verification
  {
    if d.isVerified == Some(true) then Verified
    else if d.isVerified == Some(false) && Truthy(d.rejectionReason) then Rejected
    else Pending
  }

  /** Whether a driver passes the status drop-down (`all`, `pending`, `verified`, `rejected`). */
  predicate MatchesStatus(filter: string, d: Driver)
  {
    var status := VerificationStatus(d);
    filter == "all" || (filter == "pending" && status == Pending)
    || (filter == "verified" && status == Verified) || (filter == "rejected" && status == Rejected)
  }

  function FilteredDrivers(drivers: seq<Driver>, filter: string): (r: seq<Driver>)
    ensures forall i :: 0 <= i < |r| ==> r[i] in drivers && MatchesStatus(filter, r[i])
    ensures forall i :: 0 <= i < |drivers| && MatchesStatus(filter, drivers[i]) ==> drivers[i] in r
    ensures Seqs.Subsequence(r, drivers)
    ensures forall d :: multiset(r)[d] == if MatchesStatus(filter, d) then multiset(drivers)[d] else 0
  {
    Seqs.FilterIsSubsequence(drivers, (d: Driver) => MatchesStatus(filter, d));
    Seqs.FilterMultiplicity(drivers, (d: Driver) => MatchesStatus(filter, d));
    Seqs.Filter(drivers, (d: Driver) => MatchesStatus(filter, d))
  }

  function CountStatus(drivers: seq<Driver>, v: Verification): nat
  {
    Seqs.Count(drivers, (d: Driver) => VerificationStatus(d) == v)
  }

  /** `updateStats`: totals plus pending and verified driver counts. */
  function UpdateStats(users: seq<User>, drivers: seq<Driver>): Stats
  {
    Stats(|users|, |drivers|, CountStatus(drivers, Pending), CountStatus(drivers, Verified))
  }

  /** `field?.toLowerCase().includes(q.toLowerCase())` */
  predicate FieldContainsFolded(field: Option<string>, q: string)
  {
    field.Some? && Contains(Lower(field.value), Lower(q))
  }

  predicate MatchesSearch(u: User, q: string)
  {
    FieldContainsFolded(u.firstName, q) || FieldContainsFolded(u.lastName, q)
    || FieldContainsFolded(u.email, q) || (u.phoneNumber.Some? && Contains(u.phoneNumber.value, q))
  }

  predicate MatchesType(u: User, typeFilter: string)
  {
    typeFilter == "all" || (u.role.Some? && Lower(u.role.value) == Lower(typeFilter))
  }

  function FilteredUsers(users: seq<User>, q: string, typeFilter: string): (r: seq<User>)
    ensures forall i :: 0 <= i < |r| ==> r[i] in users && MatchesSearch(r[i], q) && MatchesType(r[i], typeFilter)
    ensures forall i :: 0 <= i < |users| && MatchesSearch(users[i], q) && MatchesType(users[i], typeFilter) ==> users[i] in r
    ensures Seqs.Subsequence(r, users)
    ensures forall u :: multiset(r)[u] == if MatchesSearch(u, q) && MatchesType(u, typeFilter) then multiset(users)[u] else 0
  {
    Seqs.FilterIsSubsequence(users, (u: User) => MatchesSearch(u, q) && MatchesType(u, typeFilter));
    Seqs.FilterMultiplicity(users, (u: User) => MatchesSearch(u, q) && MatchesType(u, typeFilter));
    Seqs.Filter(users, (u: User) => MatchesSearch(u, q) && MatchesType(u, typeFilter))
  }

  /** The badge text of a driver card. */
  function BadgeLabel(d: Driver): string
  {
    match VerificationStatus(d)
    case Verified => "Verified"
    case Rejected => "Rejected"
    case Pending => "Pending"
  }

  /** The "Reason: ..." line under the badge. */
  predicate ShowsReason(d: Driver)
  {
    VerificationStatus(d) == Rejected && Truthy(d.rejectionReason)
  }

  /** The Verify and Reject buttons are drawn unless the driver is verified. */
  predicate ShowsActions(d: Driver)
  {
    VerificationStatus(d) != Verified
  }

  /** `driver.driverDetailId || driver.id`: the identifier the buttons act on. */
  function ActionTarget(d: Driver): Option<int>
  {
    if d.driverDetailId.Some? && d.driverDetailId.value != 0 then d.driverDetailId else d.id
  }

  /** `'...' + x` where `x` may be undefined. */
  function Concat(prefix: string, x: Option<string>): string
  {
    prefix + x.GetOr("undefined")
  }

  /** What the reject call answered: a response body, or a thrown error with its message. */
  datatype Reply = Replied(status: Option<string>, message: Option<string>) | Threw(error: string)

  /** The admin dashboard's React state. */
  class Dashboard {
    var activeTab: string
    var userSearch: string
    var userTypeFilter: string
    var driverStatusFilter: string
    var userCurrentPage: int
    var driverCurrentPage: int
    var showRejectModal: bool
    var rejectionReason: string
    var rejectingDriverId: Option<int>
    var allUsers: seq<User>
    var allDrivers: seq<Driver>

    constructor ()
      ensures activeTab == "overview" && userSearch == "" && userTypeFilter == "all" && driverStatusFilter == "all"
      ensures userCurrentPage == 1 && driverCurrentPage == 1
      ensures !showRejectModal && rejectionReason == "" && rejectingDriverId == None
      ensures allUsers == [] && allDrivers == []
    {
      activeTab := "overview";
      userSearch := "";
      userTypeFilter := "all";
      driverStatusFilter := "all";
      userCurrentPage := 1;
      driverCurrentPage := 1;
      showRejectModal := false;
      rejectionReason := "";
      rejectingDriverId := None;
      allUsers := [];
      allDrivers := [];
    }

    /** `handleTabSwitch`: switching to the tab already shown does nothing. */
    method SwitchTab(newTab: string) returns (switched: bool)
      modifies this`activeTab
      ensures switched <==> old(activeTab) != newTab
      ensures activeTab == newTab
    {
      if newTab == activeTab {
        return false;
      }
      activeTab := newTab;
      return true;
    }

    /** Typing in the user search box; the page resets to 1 when the text changed. */
    method SetUserSearch(q: string)
      modifies this`userSearch, this`userCurrentPage
      ensures userSearch == q
      ensures userCurrentPage == if q != old(userSearch) then 1 else old(userCurrentPage)
    {
      if q != userSearch {
        userSearch := q;
        userCurrentPage := 1;
      }
    }

    /** Choosing a user type; the page resets to 1 when the choice changed. */
    method SetUserTypeFilter(t: string)
      modifies this`userTypeFilter, this`userCurrentPage
      ensures userTypeFilter == t
      ensures userCurrentPage == if t != old(userTypeFilter) then 1 else old(userCurrentPage)
    {
      if t != userTypeFilter {
        userTypeFilter := t;
        userCurrentPage := 1;
      }
    }

    /** Choosing a driver status; the driver page resets to 1 when the choice changed. */
    method SetDriverStatusFilter(f: string)
      modifies this`driverStatusFilter, this`driverCurrentPage
      ensures driverStatusFilter == f
      ensures driverCurrentPage == if f != old(driverStatusFilter) then 1 else old(driverCurrentPage)
    {
      if f != driverStatusFilter {
        driverStatusFilter := f;
        driverCurrentPage := 1;
      }
    }

    /** The Reject button of a driver card opens the dialog with an empty reason. */
    method OpenRejectModal(d: Driver)
      modifies this`rejectingDriverId, this`showRejectModal, this`rejectionReason
      ensures rejectingDriverId == ActionTarget(d) && showRejectModal && rejectionReason == ""
    {
      rejectingDriverId := ActionTarget(d);
      showRejectModal := true;
      rejectionReason := "";
    }

    /** Typing the reason in the dialog. */
    method SetRejectionReason(reason: string)
      modifies this`rejectionReason
      ensures rejectionReason == reason
    {
      rejectionReason := reason;
    }

    /** `rejectDriverWithReason`: `reply` is what the server answers if it is called.
      * Returns the request sent (driver id, reason) if any, and the toast shown. */
    method SubmitRejection(reply: Reply) returns (sent: Option<(Option<int>, string)>, toast: (Toasts.Kind, string))
      modifies this`showRejectModal, this`rejectionReason, this`rejectingDriverId
      ensures IsBlank(old(rejectionReason)) ==>
        sent == None && toast == (Toasts.Error, "Please provide a rejection reason")
        && showRejectModal == old(showRejectModal) && rejectionReason == old(rejectionReason)
        && rejectingDriverId == old(rejectingDriverId)
      ensures !IsBlank(old(rejectionReason)) ==> sent == Some((old(rejectingDriverId), old(rejectionReason)))
      ensures !IsBlank(old(rejectionReason)) && reply.Replied? && reply.status == Some("SUCCESS") ==>
        toast == (Toasts.Success, "Driver rejected successfully with reason: " + old(rejectionReason))
        && !showRejectModal && rejectionReason == "" && rejectingDriverId == None
      ensures !IsBlank(old(rejectionReason)) && !(reply.Replied? && reply.status == Some("SUCCESS")) ==>
        toast == (Toasts.Error, if reply.Threw? then "Failed to reject driver: " + reply.error
                                else Concat("Failed to reject driver: ", reply.message))
        && showRejectModal == old(showRejectModal) && rejectionReason == old(rejectionReason)
        && rejectingDriverId == old(rejectingDriverId)
    {
      if IsBlank(rejectionReason) {
        return None, (Toasts.Error, "Please provide a rejection reason");
      }
      sent := Some((rejectingDriverId, rejectionReason));
      match reply
      case Threw(e) =>
        toast := (Toasts.Error, "Failed to reject driver: " + e);
      case Replied(status, message) =>
        if status == Some("SUCCESS") {
          toast := (Toasts.Success, "Driver rejected successfully with reason: " + rejectionReason);
          showRejectModal := false;
          rejectionReason := "";
          rejectingDriverId := None;
        } else {
          toast := (Toasts.Error, Concat("Failed to reject driver: ", message));
        }
    }

    function VisibleUsers(): seq<User>
      reads this
    {
      Pagination.Page(FilteredUsers(allUsers, userSearch, userTypeFilter), userCurrentPage)
    }

    function VisibleDrivers(): seq<Driver>
      reads this
    {
      Pagination.Page(FilteredDrivers(allDrivers, driverStatusFilter), driverCurrentPage)
    }
  }

  // ---- properties -------------------------------------------------------

  /** Every driver has exactly one of the three statuses, and the status reads as documented:
    * verified iff `isVerified === true`; rejected iff `isVerified === false` with a reason. */
  lemma StatusMeaning(d: Driver)
    ensures VerificationStatus(d) == Verified <==> d.isVerified == Some(true)
    ensures VerificationStatus(d) == Rejected <==> d.isVerified == Some(false) && Truthy(d.rejectionReason)
    ensures VerificationStatus(d) == Pending <==> !(d.isVerified == Some(true)) && !(d.isVerified == Some(false) && Truthy(d.rejectionReason))
  {
  }

  /** Pending, verified and rejected drivers together are all drivers, and the two stats
    * cards count exactly what the `pending` and `verified` filters show. */
  lemma StatsMatchFilters(users: seq<User>, drivers: seq<Driver>)
    ensures var s := UpdateStats(users, drivers);
      s.pendingVerifications + s.verifiedDrivers + CountStatus(drivers, Rejected) == s.totalDrivers
      && s.pendingVerifications == |FilteredDrivers(drivers, "pending")|
      && s.verifiedDrivers == |FilteredDrivers(drivers, "verified")|
      && CountStatus(drivers, Rejected) == |FilteredDrivers(drivers, "rejected")|
      && |FilteredDrivers(drivers, "all")| == s.totalDrivers
  {
    var p := (d: Driver) => VerificationStatus(d) == Pending;
    var v := (d: Driver) => VerificationStatus(d) == Verified;
    var r := (d: Driver) => VerificationStatus(d) == Rejected;
    Seqs.CountPartition3(drivers, p, v, r);
    Seqs.FilterCongruent(drivers, (d: Driver) => MatchesStatus("pending", d), p);
    Seqs.FilterCongruent(drivers, (d: Driver) => MatchesStatus("verified", d), v);
    Seqs.FilterCongruent(drivers, (d: Driver) => MatchesStatus("rejected", d), r);
    Seqs.FilterCongruent(drivers, (d: Driver) => MatchesStatus("all", d), (d: Driver) => true);
    AllPass(drivers);
  }

  lemma {:induction false} AllPass(drivers: seq<Driver>)
    ensures Seqs.Filter(drivers, (d: Driver) => true) == drivers
    decreases |drivers|
  {
    if drivers != [] {
      AllPass(drivers[1..]);
      assert drivers == [drivers[0]] + drivers[1..];
    }
  }

  /** A status value outside the drop-down's four options shows no driver. */
  lemma UnknownStatusFilterShowsNone(drivers: seq<Driver>, filter: string)
    requires filter != "all" && filter != "pending" && filter != "verified" && filter != "rejected"
    ensures FilteredDrivers(drivers, filter) == []
  {
  }

  /** The badge agrees with the status filter: a driver is listed under `pending`,
    * `verified` or `rejected` exactly when its badge reads that word. */
  lemma BadgeAgreesWithFilter(d: Driver)
    ensures MatchesStatus("pending", d) <==> BadgeLabel(d) == "Pending"
    ensures MatchesStatus("verified", d) <==> BadgeLabel(d) == "Verified"
    ensures MatchesStatus("rejected", d) <==> BadgeLabel(d) == "Rejected"
  {
  }

  /** Verify/Reject are offered exactly for drivers whose `isVerified` is not `true`;
    * a reason line appears exactly for rejected drivers. */
  lemma ActionsGating(d: Driver)
    ensures ShowsActions(d) <==> d.isVerified != Some(true)
    ensures ShowsReason(d) <==> VerificationStatus(d) == Rejected
  {
  }

  /** An empty search matches a user exactly when one of the four searched fields is present. */
  lemma EmptySearch(u: User)
    ensures MatchesSearch(u, "") <==> u.firstName.Some? || u.lastName.Some? || u.email.Some? || u.phoneNumber.Some?
  {
    if u.firstName.Some? { ContainsEmpty(Lower(u.firstName.value)); }
    if u.lastName.Some? { ContainsEmpty(Lower(u.lastName.value)); }
    if u.email.Some? { ContainsEmpty(Lower(u.email.value)); }
    if u.phoneNumber.Some? { ContainsEmpty(u.phoneNumber.value); }
  }

  /** The type filter ignores ASCII case: the role `USER` is shown under the option `user`,
    * and a user without a role is shown only under `all`. */
  lemma TypeFilterFoldsCase(u: User, t: string)
    ensures u.role == Some("USER") ==> MatchesType(u, "user")
    ensures u.role == Some("DRIVER") ==> MatchesType(u, "driver") && !MatchesType(u, "user")
    ensures u.role.None? ==> (MatchesType(u, t) <==> t == "all")
  {
    UserRoleLowered();
    DriverRoleLowered();
  }

  lemma UserRoleLowered()
    ensures Lower("USER") == "user" && Lower("user") == "user"
  {
    assert forall i :: 0 <= i < 4 ==> Lower("USER")[i] == "user"[i];
    assert forall i :: 0 <= i < 4 ==> Lower("user")[i] == "user"[i];
  }

  lemma DriverRoleLowered()
    ensures Lower("DRIVER") == "driver" && Lower("driver") == "driver"
  {
    UpperDriverLowered();
    assert forall i :: 0 <= i < 6 ==> Lower("driver")[i] == "driver"[i];
  }

  lemma UpperDriverLowered()
    ensures Lower("DRIVER") == "driver"
  {
    var l := Lower("DRIVER");
    assert l[0] == 'd' && l[1] == 'r' && l[2] == 'i';
    assert l[3] == 'v' && l[4] == 'e' && l[5] == 'r';
  }

  /** A search for a name fragment finds the users whose first name carries it, in any ASCII case. */
  lemma SearchFindsFirstName(u: User, before: string, q: string, after: string)
    requires u.firstName == Some(before + q + after)
    ensures MatchesSearch(u, q)
  {
    LowerConcat(before, q);
    LowerConcat(before + q, after);
    ContainsInfix(Lower(before), Lower(q), Lower(after));
  }
}
