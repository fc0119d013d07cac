// The older admin dashboard: a two-state driver rule on the truthiness of
// `verified`, the same user filter as the current dashboard, normalisation of
// list responses in the fetch handlers, and fixed overview numbers.
module AdminDashboardNew {
  import opened Wrappers
  import Seqs
  import AdminDashboard

  /** A driver row; the older dashboard reads `verified`, the current one `isVerified`. */
  datatype LegacyDriver = LegacyDriver(id: Option<int>, verified: Option<bool>, isVerified: Option<bool>, rejectionReason: Option<string>)

  /** `driver.verified` is truthy. */
  predicate IsVerified(d: LegacyDriver)
  {
    d.verified == Some(true)
  }

  /** The same record as the current dashboard sees it. */
  function AsCurrent(d: LegacyDriver): AdminDashboard.Driver
  {
    AdminDashboard.Driver(None, d.id, d.isVerified, d.rejectionReason)
  }

  predicate MatchesStatus(filter: string, d: LegacyDriver)
  {
    filter == "all" || (filter == "verified" && IsVerified(d)) || (filter == "pending" && !IsVerified(d))
  }

  function FilteredDrivers(drivers: seq<LegacyDriver>, filter: string): (r: seq<LegacyDriver>)
    ensures forall i :: 0 <= i < |r| ==> r[i] in drivers && MatchesStatus(filter, r[i])
    ensures forall i :: 0 <= i < |drivers| && MatchesStatus(filter, drivers[i]) ==> drivers[i] in r
    ensures Seqs.Subsequence(r, drivers)
    ensures forall d :: multiset(r)[d] == if MatchesStatus(filter, d) then multiset(drivers)[d] else 0
  {
    Seqs.FilterIsSubsequence(drivers, (d: LegacyDriver) => MatchesStatus(filter, d));
    Seqs.FilterMultiplicity(drivers, (d: LegacyDriver) => MatchesStatus(filter, d));
    Seqs.Filter(drivers, (d: LegacyDriver) => MatchesStatus(filter, d))
  }

  /** The badge shows only two words. */
  function BadgeLabel(d: LegacyDriver): string
  {
    if IsVerified(d) then "Verified" else "Pending"
  }

  /** The approve and reject icons are drawn exactly for drivers that are not verified. */
  predicate ShowsActions(d: LegacyDriver)
  {
    !IsVerified(d)
  }

  /** `response.data` as a fetch handler sees it. */
  datatype Data<T> = NoData | ArrayData(items: seq<T>) | ObjectData

  /** What an API call resolved to (or the error it threw). */
  datatype Response<T> = Envelope(status: Option<string>, data: Data<T>) | BareArray(items: seq<T>) | NoResponse | Thrown(message: string)

  /** The list and the error text a fetch handler leaves behind (`""` is no error). */
  function Normalise<T>(r: Response<T>, emptyMessage: string, errorPrefix: string): (seq<T>, string)
  {
    match r
    case Envelope(status, data) =>
      if status == Some("SUCCESS") && !data.NoData? then
        (if data.ArrayData? then data.items else [], "")
      else ([], emptyMessage)
    case BareArray(items) => (items, "")
    case NoResponse => ([], emptyMessage)
    case Thrown(m) => ([], errorPrefix + m)
  }

  datatype Overview = Overview(totalUsers: int, totalDrivers: int, pendingVerifications: int, totalRevenue: int)

  /** The older dashboard's React state. */
  class Dashboard {
    var overview: Overview
    var allUsers: seq<AdminDashboard.User>
    var allDrivers: seq<LegacyDriver>
    var pendingDrivers: seq<LegacyDriver>
    var error: string

    constructor ()
      ensures overview == Overview(0, 0, 0, 0) && allUsers == [] && allDrivers == [] && pendingDrivers == [] && error == ""
    {
      overview := Overview(0, 0, 0, 0);
      allUsers := [];
      allDrivers := [];
      pendingDrivers := [];
      error := "";
    }

    /** `fetchDashboardData`: the overview numbers are written as fixed values. */
    method FetchDashboardData()
      modifies this`overview
      ensures overview == Overview(1234, 456, 23, 125000)
    {
      overview := Overview(1234, 456, 23, 125000);
    }

    /** `fetchAllUsers` */
    method FetchAllUsers(r: Response<AdminDashboard.User>)
      modifies this`allUsers, this`error
      ensures (allUsers, error) == Normalise(r, "No users found", "Error fetching users: ")
    {
      error := "";
      match r {
        case Envelope(status, data) =>
          if status == Some("SUCCESS") && !data.NoData? {
            allUsers := if data.ArrayData? then data.items else [];
          } else {
            allUsers := [];
            error := "No users found";
          }
        case BareArray(items) =>
          allUsers := items;
        case NoResponse =>
          allUsers := [];
          error := "No users found";
        case Thrown(m) =>
          error := "Error fetching users: " + m;
          allUsers := [];
      }
    }

    /** `fetchAllDrivers` */
    method FetchAllDrivers(r: Response<LegacyDriver>)
      modifies this`allDrivers, this`error
      ensures (allDrivers, error) == Normalise(r, "No drivers found", "Error fetching drivers: ")
    {
      error := "";
      match r {
        case Envelope(status, data) =>
          if status == Some("SUCCESS") && !data.NoData? {
            allDrivers := if data.ArrayData? then data.items else [];
          } else {
            allDrivers := [];
            error := "No drivers found";
          }
        case BareArray(items) =>
          allDrivers := items;
        case NoResponse =>
          allDrivers := [];
          error := "No drivers found";
        case Thrown(m) =>
          error := "Error fetching drivers: " + m;
          allDrivers := [];
      }
    }

    /** `fetchPendingDrivers` */
    method FetchPendingDrivers(r: Response<LegacyDriver>)
      modifies this`pendingDrivers, this`error
      ensures (pendingDrivers, error) == Normalise(r, "No pending verifications found", "Error fetching pending drivers: ")
    {
      error := "";
      match r {
        case Envelope(status, data) =>
          if status == Some("SUCCESS") && !data.NoData? {
            pendingDrivers := if data.ArrayData? then data.items else [];
          } else {
            pendingDrivers := [];
            error := "No pending verifications found";
          }
        case BareArray(items) =>
          pendingDrivers := items;
        case NoResponse =>
          pendingDrivers := [];
          error := "No pending verifications found";
        case Thrown(m) =>
          error := "Error fetching pending drivers: " + m;
          pendingDrivers := [];
      }
    }

    function VisibleDrivers(filter: string): seq<LegacyDriver>
      reads this
    {
      FilteredDrivers(allDrivers, filter)
    }

    function VisibleUsers(q: string, typeFilter: string): seq<AdminDashboard.User>
      reads this
    {
      AdminDashboard.FilteredUsers(allUsers, q, typeFilter)
    }
  }

  // ---- properties -------------------------------------------------------

  /** The normalisation rule: a SUCCESS envelope with data yields the data when it is an array and
    * an empty list otherwise, without error; a bare array is used as is; everything else is an
    * empty list with the handler's error. */
  lemma NormaliseCases<T>(r: Response<T>, emptyMessage: string, errorPrefix: string)
    requires emptyMessage != "" && errorPrefix != ""
    ensures var (rows, err) := Normalise(r, emptyMessage, errorPrefix);
      (err == "" <==> (r.Envelope? && r.status == Some("SUCCESS") && !r.data.NoData?) || r.BareArray?)
      && (r.Envelope? && r.status == Some("SUCCESS") && r.data.ArrayData? ==> rows == r.data.items)
      && (r.BareArray? ==> rows == r.items)
      && (err != "" ==> rows == [])
  {
  }

  /** A SUCCESS envelope whose data is a non-array object silently yields no rows and no error. */
  lemma ObjectDataIsSilentlyEmpty<T>(emptyMessage: string, errorPrefix: string)
    ensures Normalise(Response<T>.Envelope(Some("SUCCESS"), ObjectData), emptyMessage, errorPrefix) == ([], "")
  {
  }

  /** 'all' keeps every driver, and 'verified' and 'pending' split the list between them. */
  lemma TwoStatePartition(drivers: seq<LegacyDriver>)
    ensures FilteredDrivers(drivers, "all") == drivers
    ensures |FilteredDrivers(drivers, "verified")| + |FilteredDrivers(drivers, "pending")| == |drivers|
    ensures forall d :: d in drivers ==> (d in FilteredDrivers(drivers, "verified") <==> d !in FilteredDrivers(drivers, "pending"))
  {
    Seqs.FilterCongruent(drivers, (d: LegacyDriver) => MatchesStatus("all", d), (d: LegacyDriver) => true);
    AllPass(drivers);
    Seqs.CountComplement(drivers, (d: LegacyDriver) => MatchesStatus("verified", d), (d: LegacyDriver) => MatchesStatus("pending", d));
  }

  lemma {:induction false} AllPass(drivers: seq<LegacyDriver>)
    ensures Seqs.Filter(drivers, (d: LegacyDriver) => true) == drivers
    decreases |drivers|
  {
    if drivers != [] {
      AllPass(drivers[1..]);
      assert drivers == [drivers[0]] + drivers[1..];
    }
  }

  /** There is no 'rejected' option here: that value shows no driver at all. */
  lemma NoRejectedOption(drivers: seq<LegacyDriver>)
    ensures FilteredDrivers(drivers, "rejected") == []
  {
  }

  /** Badge, filter and buttons agree: 'Verified' exactly for the 'verified' filter, and the
    * buttons exactly for the rest. */
  lemma BadgeAndActions(d: LegacyDriver)
    ensures BadgeLabel(d) == "Verified" <==> MatchesStatus("verified", d)
    ensures BadgeLabel(d) == "Pending" <==> MatchesStatus("pending", d)
    ensures ShowsActions(d) <==> MatchesStatus("pending", d)
  {
  }

  /** The two dashboards disagree on a rejected driver: the current one labels it Rejected, the
    * older one (whatever `verified` mirrors) labels it Pending and offers approve/reject again. */
  lemma RejectedShowsAsPending(d: LegacyDriver)
    requires AdminDashboard.VerificationStatus(AsCurrent(d)) == AdminDashboard.Rejected
    requires d.verified == d.isVerified
    ensures AdminDashboard.BadgeLabel(AsCurrent(d)) == "Rejected"
    ensures BadgeLabel(d) == "Pending" && ShowsActions(d)
    ensures MatchesStatus("pending", d) && !AdminDashboard.MatchesStatus("pending", AsCurrent(d))
  {
  }

  /** A concrete rejected driver on which the dashboards disagree. */
  lemma DisagreementWitness()
    ensures var d := LegacyDriver(Some(7), Some(false), Some(false), Some("Expired licence"));
      AdminDashboard.BadgeLabel(AsCurrent(d)) == "Rejected" && BadgeLabel(d) == "Pending"
  {
  }

  /** When `verified` mirrors `isVerified`, the two dashboards agree on who is verified, and the
    * older 'pending' list is the current pending and rejected drivers together. */
  lemma AgreeOnVerified(d: LegacyDriver)
    requires d.verified == d.isVerified
    ensures MatchesStatus("verified", d) <==> AdminDashboard.MatchesStatus("verified", AsCurrent(d))
    ensures MatchesStatus("pending", d) <==>
      AdminDashboard.MatchesStatus("pending", AsCurrent(d)) || AdminDashboard.MatchesStatus("rejected", AsCurrent(d))
  {
  }
}
