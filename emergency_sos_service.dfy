// The SOS service: triggering an alert (type default, ride lookup, links, save, the per-contact
// notification loop and its three flags), resolving an alert, and the active and recent lists.
module EmergencySOSService {
  import opened Wrappers
  import opened EmergencyAlertEntity
  import opened EmergencyContactEntity
  import EmergencyContactService
  import Seqs

  /** The three Twilio properties; each defaults to the empty string when not configured. */
  datatype TwilioConfig = TwilioConfig(accountSid: Option<string>, authToken: Option<string>,
                                       phoneNumber: Option<string>)

  predicate Filled(o: Option<string>)
  {
    o.Some? && o.value != ""
  }

  /** `isTwilioConfigured`: all three properties are non-empty. */
  predicate IsTwilioConfigured(c: TwilioConfig)
  {
    Filled(c.accountSid) && Filled(c.authToken) && Filled(c.phoneNumber)
  }

  const TwilioNotConfigured := "Twilio credentials not configured"

  /** `initializeTwilio`: only the account sid and the token are checked. */
  function InitializeTwilio(c: TwilioConfig): Result<Unit>
  {
    if Filled(c.accountSid) && Filled(c.authToken) then Ok(Unit) else Err(TwilioNotConfigured)
  }

  /** The body of a `POST /api/emergency/sos` request. */
  datatype SOSRequest = SOSRequest(rideId: Option<int>, latitude: Option<real>, longitude: Option<real>,
                                   message: Option<string>, alertType: Option<string>)

  datatype AlertResponse = AlertResponse(alertId: int, status: string, message: string,
                                         trackingLink: Link, trackingExpiry: int,
                                         emailSent: bool, smsSent: bool, callInitiated: bool)

  /** The three notification flags of the contact loop. */
  datatype Flags = Flags(emailSent: bool, smsSent: bool, callInitiated: bool)

  const TriggerFailurePrefix := "Failed to trigger emergency alert: "
  const UserNotFound := "User not found"
  const AlertNotFound := "Alert not found"
  const TriggeredStatus := "ALERT_TRIGGERED"
  const TriggeredMessage := "Emergency alert sent successfully"

  /** The requested alert type: SOS when none is named, otherwise `valueOf` of the name. */
  function RequestedType(name: Option<string>): Result<AlertType>
  {
    if name.Some? then ParseAlertType(name.value) else Ok(Sos)
  }

  predicate HasEmail(c: ContactRow)
  {
    c.contactEmail.Some? && c.contactEmail.value != ""
  }

  /** A contact is processed to the end unless its e-mail, attempted and failed, threw. */
  predicate Processed(c: ContactRow, mailOk: ContactRow -> bool)
  {
    !HasEmail(c) || mailOk(c)
  }

  /** One pass of the loop body for contact `c`. SMS and call failures are swallowed inside their
    * senders, so their flags depend on the guard alone; a null `isPrimary` throws when unboxed,
    * after the e-mail and SMS flags are set, and the catch skips only the call. */
  function Notify(f: Flags, c: ContactRow, t: AlertType, configured: bool, mailOk: ContactRow -> bool): Flags
  {
    if !Processed(c, mailOk) then f
    else Flags(f.emailSent || HasEmail(c),
               f.smsSent || configured,
               f.callInitiated || (c.isPrimary == Some(true) && t == EmergencyCall && configured))
  }

  /** The flags after the loop over `cs`, starting from all false. */
  function NotifyAll(cs: seq<ContactRow>, t: AlertType, configured: bool, mailOk: ContactRow -> bool): Flags
    decreases |cs|
  {
    if cs == [] then Flags(false, false, false)
    else Notify(NotifyAll(cs[..|cs| - 1], t, configured, mailOk), cs[|cs| - 1], t, configured, mailOk)
  }

  /** The stored alert, after the creation hook, for a request of type `t`. */
  function NewAlert(id: int, userId: int, rides: set<int>, req: SOSRequest, t: AlertType, now: int): AlertRow
  {
    var ride := if req.rideId.Some? && req.rideId.value in rides then req.rideId else None;
    AlertRow(id, userId, ride, req.latitude, req.longitude,
             Some(MapsLink(req.latitude, req.longitude)),
             Some(TrackingLink(userId, req.latitude, req.longitude)),
             Some(now + OneHour), Some(t), Active, req.message, None, None, now, now)
  }

  predicate IsActiveAlert(a: AlertRow)
  {
    a.status == Active
  }

  /** `getActiveAlerts`: `findByStatus(ACTIVE)`. */
  function ActiveAlerts(alerts: seq<AlertRow>): (r: seq<AlertRow>)
    ensures forall i :: 0 <= i < |r| ==> r[i].status == Active && r[i] in alerts
    ensures forall i :: 0 <= i < |alerts| && alerts[i].status == Active ==> alerts[i] in r
    ensures Seqs.Subsequence(r, alerts)
    ensures forall a :: multiset(r)[a] == if a.status == Active then multiset(alerts)[a] else 0
  {
    Seqs.FilterIsSubsequence(alerts, IsActiveAlert);
    Seqs.FilterMultiplicity(alerts, IsActiveAlert);
    Seqs.Filter(alerts, IsActiveAlert)
  }

  /** `getRecentAlerts(hours)` at time `now`: `findByCreatedAtAfter(now - hours)`, strictly after. */
  function RecentAlerts(alerts: seq<AlertRow>, hours: int, now: int): (r: seq<AlertRow>)
    ensures forall i :: 0 <= i < |r| ==> r[i].createdAt > now - hours * OneHour && r[i] in alerts
    ensures forall i :: 0 <= i < |alerts| && alerts[i].createdAt > now - hours * OneHour ==> alerts[i] in r
    ensures Seqs.Subsequence(r, alerts)
    ensures forall a :: multiset(r)[a] == if a.createdAt > now - hours * OneHour then multiset(alerts)[a] else 0
  {
    Seqs.FilterIsSubsequence(alerts, (a: AlertRow) => a.createdAt > now - hours * OneHour);
    Seqs.FilterMultiplicity(alerts, (a: AlertRow) => a.createdAt > now - hours * OneHour);
    Seqs.Filter(alerts, (a: AlertRow) => a.createdAt > now - hours * OneHour)
  }

  /** `findById`: the index of the alert with `id`, `|alerts|` when there is none. */
  function IndexOfAlert(alerts: seq<AlertRow>, id: int): nat
  {
    Seqs.FirstIndex(alerts, (a: AlertRow) => a.id == id)
  }

  /** The alert after `resolveAlert` by `adminId` at `now`, the update hook included. */
  function ResolvedAlert(a: AlertRow, adminId: int, now: int): AlertRow
  {
    a.(status := Resolved, resolvedAt := Some(now), resolvedBy := Some(adminId), updatedAt := now)
  }

  /** The answer of `resolveAlert` and the alert table after it. */
  function ResolveOutcome(alerts: seq<AlertRow>, alertId: int, adminId: int, now: int): (Result<Unit>, seq<AlertRow>)
  {
    var i := IndexOfAlert(alerts, alertId);
    if i == |alerts| then (Err(AlertNotFound), alerts)
    else (Ok(Unit), alerts[i := ResolvedAlert(alerts[i], adminId, now)])
  }

  predicate UniqueAlertIds(alerts: seq<AlertRow>)
  {
    forall i, j :: 0 <= i < j < |alerts| ==> alerts[i].id != alerts[j].id
  }

  /** Appending an alert stored under the next identity value keeps the ids distinct and below
    * the advanced counter. */
  lemma FreshIdAppended(alerts: seq<AlertRow>, nextId: int, row: AlertRow)
    requires UniqueAlertIds(alerts) && forall i :: 0 <= i < |alerts| ==> alerts[i].id < nextId
    requires row.id == nextId
    ensures UniqueAlertIds(alerts + [row])
    ensures forall i :: 0 <= i < |alerts + [row]| ==> (alerts + [row])[i].id < nextId + 1
  {
    var s := alerts + [row];
    assert forall i :: 0 <= i < |alerts| ==> s[i] == alerts[i];
  }

  /** Replacing an alert by one with the same id leaves every id where it was. */
  lemma SameIdReplaced(alerts: seq<AlertRow>, i: nat, row: AlertRow)
    requires i < |alerts| && row.id == alerts[i].id
    ensures |alerts[i := row]| == |alerts|
    ensures forall j :: 0 <= j < |alerts| ==> alerts[i := row][j].id == alerts[j].id
  {
  }

  class SOSService {
    /** The ids of the existing users and rides. */
    const users: set<int>
    const rides: set<int>
    const twilio: TwilioConfig
    var alerts: seq<AlertRow>
    /** The next identity value of the alert table. */
    var nextId: int

    /** Ids are unique and below the next identity value. */
    predicate Valid()
      reads this
    {
      UniqueAlertIds(alerts) && forall i :: 0 <= i < |alerts| ==> alerts[i].id < nextId
    }

    constructor (users: set<int>, rides: set<int>, twilio: TwilioConfig)
      ensures this.users == users && this.rides == rides && this.twilio == twilio
      ensures alerts == [] && nextId == 1 && Valid()
    {
      this.users := users;
      this.rides := rides;
      this.twilio := twilio;
      alerts := [];
      nextId := 1;
    }

    /** The answer of `triggerSOS`, the alert table and the next identity value after it; `contacts`
      * is the whole contact table and `mailOk` tells which e-mails would be delivered. A failure
      * rolls the transaction back. */
    function TriggerOutcome(alerts: seq<AlertRow>, nextId: int, userId: int, req: SOSRequest,
                            contacts: seq<ContactRow>, mailOk: ContactRow -> bool, now: int)
      : (Result<AlertResponse>, seq<AlertRow>, int)
    {
      if userId !in users then (Err(TriggerFailurePrefix + UserNotFound), alerts, nextId)
      else
        match RequestedType(req.alertType)
        case Err(m) => (Err(TriggerFailurePrefix + m), alerts, nextId)
        case Ok(t) =>
          var f := NotifyAll(EmergencyContactService.OwnedBy(contacts, userId), t, IsTwilioConfigured(twilio), mailOk);
          var response := AlertResponse(nextId, TriggeredStatus, TriggeredMessage,
                                        TrackingLink(userId, req.latitude, req.longitude), now + OneHour,
                                        f.emailSent, f.smsSent, f.callInitiated);
          (Ok(response), alerts + [NewAlert(nextId, userId, rides, req, t, now)], nextId + 1)
    }

    /** The contact loop of `triggerSOS` for an alert of type `t`. */
    method NotifyContacts(contacts: seq<ContactRow>, t: AlertType, mailOk: ContactRow -> bool) returns (flags: Flags)
      ensures flags == NotifyAll(contacts, t, IsTwilioConfigured(twilio), mailOk)
    {
      var emailSent, smsSent, callInitiated := false, false, false;
      var i := 0;
      while i < |contacts|
        invariant 0 <= i <= |contacts|
        invariant Flags(emailSent, smsSent, callInitiated) == NotifyAll(contacts[..i], t, IsTwilioConfigured(twilio), mailOk)
      {
        var c := contacts[i];
        var thrown := false;
        if c.contactEmail.Some? && c.contactEmail.value != "" {
          if mailOk(c) {
            emailSent := true;
          } else {
            thrown := true;
          }
        }
        if !thrown {
          if IsTwilioConfigured(twilio) {
            smsSent := true;
          }
          if c.isPrimary == Some(true) && t == EmergencyCall && IsTwilioConfigured(twilio) {
            callInitiated := true;
          }
        }
        assert contacts[..i + 1][..i] == contacts[..i];
        i := i + 1;
      }
      assert contacts[..i] == contacts;
      flags := Flags(emailSent, smsSent, callInitiated);
    }

    /** `triggerSOS(userId, request)` at time `now`. */
    method TriggerSOS(userId: int, req: SOSRequest, contacts: seq<ContactRow>, mailOk: ContactRow -> bool, now: int)
      returns (r: Result<AlertResponse>)
      requires Valid()
      modifies this`alerts, this`nextId
      ensures Valid()
      ensures (r, alerts, nextId) == TriggerOutcome(old(alerts), old(nextId), userId, req, contacts, mailOk, now)
    {
      if userId !in users {
        return Err(TriggerFailurePrefix + UserNotFound);
      }
      var t: AlertType;
      if req.alertType.Some? {
        var parsed := ParseAlertType(req.alertType.value);
        if parsed.Err? {
          return Err(TriggerFailurePrefix + parsed.msg);
        }
        t := parsed.value;
      } else {
        t := Sos;
      }
      assert RequestedType(req.alertType) == Ok(t);
      var saved := BuildAlert(nextId, userId, req, t, now);
      FreshIdAppended(alerts, nextId, saved);
      alerts := alerts + [saved];
      nextId := nextId + 1;
      var flags := NotifyContacts(EmergencyContactService.OwnedBy(contacts, userId), t, mailOk);
      r := Ok(AlertResponse(saved.id, TriggeredStatus, TriggeredMessage, saved.trackingLink.value,
                            saved.trackingExpiry.value, flags.emailSent, flags.smsSent, flags.callInitiated));
    }

    /** The first block of setters of `triggerSOS`: owner, coordinates, message, type, and the ride
      * when an id is given and the ride exists. */
    method DescribeAlert(userId: int, req: SOSRequest, t: AlertType) returns (a: EmergencyAlert)
      ensures fresh(a)
      ensures a.userId == Some(userId) && a.latitude == req.latitude && a.longitude == req.longitude
      ensures a.message == req.message && a.alertType == Some(t) && a.status == Some(Active)
      ensures a.rideId == if req.rideId.Some? && req.rideId.value in rides then req.rideId else None
      ensures a.resolvedAt == None && a.resolvedBy == None
    {
      a := new EmergencyAlert();
      a.userId := Some(userId);
      a.latitude := req.latitude;
      a.longitude := req.longitude;
      a.message := req.message;
      a.alertType := Some(t);
      if req.rideId.Some? {
        a.rideId := if req.rideId.value in rides then req.rideId else None;
      }
    }

    /** The second block of setters: the map link, the tracking link and its one-hour expiry. */
    method AttachLinks(a: EmergencyAlert, userId: int, req: SOSRequest, now: int)
      modifies a`locationLink, a`trackingLink, a`trackingExpiry
      ensures a.locationLink == Some(MapsLink(req.latitude, req.longitude))
      ensures a.trackingLink == Some(TrackingLink(userId, req.latitude, req.longitude))
      ensures a.trackingExpiry == Some(now + OneHour)
    {
      a.locationLink := Some(MapsLink(req.latitude, req.longitude));
      a.trackingLink := Some(TrackingLink(userId, req.latitude, req.longitude));
      a.trackingExpiry := Some(now + OneHour);
    }

    /** The row `triggerSOS` saves under `id`: the entity filled in through its setters, after the
      * creation hook. */
    method BuildAlert(id: int, userId: int, req: SOSRequest, t: AlertType, now: int) returns (saved: AlertRow)
      ensures saved == NewAlert(id, userId, rides, req, t, now)
    {
      var a := DescribeAlert(userId, req, t);
      AttachLinks(a, userId, req, now);
      a.OnCreate(now);
      saved := a.Row(id);
    }

    /** The setters of `resolveAlert`: status RESOLVED, the resolution time and the admin. */
    method MarkResolved(a: EmergencyAlert, adminId: int, now: int)
      modifies a`status, a`resolvedAt, a`resolvedBy
      ensures a.status == Some(Resolved) && a.resolvedAt == Some(now) && a.resolvedBy == Some(adminId)
    {
      a.status := Some(Resolved);
      a.resolvedAt := Some(now);
      a.resolvedBy := Some(adminId);
    }

    /** The entity side of `resolveAlert`: the stored alert loaded, resolved by `adminId`, passed
      * through the update hook and saved back under its id. */
    method ResolveStored(stored: AlertRow, adminId: int, now: int) returns (row: AlertRow)
      ensures row == ResolvedAlert(stored, adminId, now)
    {
      var a := new EmergencyAlert.Load(stored);
      MarkResolved(a, adminId, now);
      a.OnUpdate(now);
      row := a.Row(stored.id);
    }

    /** `resolveAlert(alertId, adminId)` at time `now`. */
    method ResolveAlert(alertId: int, adminId: int, now: int) returns (r: Result<Unit>)
      requires Valid()
      modifies this`alerts
      ensures Valid()
      ensures (r, alerts) == ResolveOutcome(old(alerts), alertId, adminId, now)
    {
      var i := IndexOfAlert(alerts, alertId);
      if i == |alerts| {
        return Err(AlertNotFound);
      }
      var row := ResolveStored(alerts[i], adminId, now);
      SameIdReplaced(alerts, i, row);
      alerts := alerts[i := row];
      r := Ok(Unit);
    }
  }

  // ---- properties ---------------------------------------------------------

  /** Every configuration `isTwilioConfigured` accepts initializes, but not conversely: a missing
    * phone number still initializes and yet counts as not configured. */
  lemma ConfiguredInitializes(c: TwilioConfig)
    ensures IsTwilioConfigured(c) ==> InitializeTwilio(c) == Ok(Unit)
    ensures InitializeTwilio(c).Ok? && !Filled(c.phoneNumber) ==> !IsTwilioConfigured(c)
  {
  }

  /** The e-mail to `c` was delivered. */
  predicate Delivered(c: ContactRow, mailOk: ContactRow -> bool)
  {
    HasEmail(c) && mailOk(c)
  }

  /** `c` was processed to the end and is a primary contact. */
  predicate PrimaryProcessed(c: ContactRow, mailOk: ContactRow -> bool)
  {
    Processed(c, mailOk) && c.isPrimary == Some(true)
  }

  /** Some element of `init + [last]` satisfies `p` iff one of `init` does or `last` does. */
  lemma ExistsSnoc(cs: seq<ContactRow>, init: seq<ContactRow>, p: ContactRow -> bool)
    requires cs != [] && init == cs[..|cs| - 1]
    ensures (exists i :: 0 <= i < |cs| && p(cs[i])) <==>
      (exists i :: 0 <= i < |init| && p(init[i])) || p(cs[|cs| - 1])
  {
    if exists i :: 0 <= i < |cs| && p(cs[i]) {
      var i :| 0 <= i < |cs| && p(cs[i]);
      if i < |cs| - 1 {
        assert p(init[i]);
      }
    }
    if exists i :: 0 <= i < |cs| - 1 && p(init[i]) {
      var i :| 0 <= i < |cs| - 1 && p(init[i]);
      assert p(cs[i]);
    }
  }

  /** The flags in closed form: `emailSent` iff some contact's non-empty e-mail was delivered;
    * `smsSent` iff Twilio is configured and some contact was processed; `callInitiated` iff
    * Twilio is configured, the type is EMERGENCY_CALL and some processed contact is primary. */
  lemma {:induction false} NotifyAllMeaning(cs: seq<ContactRow>, t: AlertType, configured: bool, mailOk: ContactRow -> bool)
    ensures NotifyAll(cs, t, configured, mailOk).emailSent <==>
      exists i :: 0 <= i < |cs| && Delivered(cs[i], mailOk)
    ensures NotifyAll(cs, t, configured, mailOk).smsSent <==>
      configured && exists i :: 0 <= i < |cs| && Processed(cs[i], mailOk)
    ensures NotifyAll(cs, t, configured, mailOk).callInitiated <==>
      configured && t == EmergencyCall && exists i :: 0 <= i < |cs| && PrimaryProcessed(cs[i], mailOk)
    decreases |cs|
  {
    if cs != [] {
      NotifyAllMeaning(cs[..|cs| - 1], t, configured, mailOk);
      ExistsSnoc(cs, cs[..|cs| - 1], c => Delivered(c, mailOk));
      ExistsSnoc(cs, cs[..|cs| - 1], c => Processed(c, mailOk));
      ExistsSnoc(cs, cs[..|cs| - 1], c => PrimaryProcessed(c, mailOk));
    }
  }

  /** With no contacts all three flags stay false. */
  lemma NoContactsNoFlags(t: AlertType, configured: bool, mailOk: ContactRow -> bool)
    ensures NotifyAll([], t, configured, mailOk) == Flags(false, false, false)
  {
  }

  /** A contact whose e-mail fails contributes nothing, not even its SMS or call. */
  lemma FailedEmailSkipsContact(f: Flags, c: ContactRow, t: AlertType, configured: bool, mailOk: ContactRow -> bool)
    requires HasEmail(c) && !mailOk(c)
    ensures Notify(f, c, t, configured, mailOk) == f
  {
  }

  /** `triggerSOS` fails exactly for an unknown user or an unknown type name, with the service's
    * prefix on the message, and then stores nothing. */
  lemma TriggerFailure(svc: SOSService, alerts: seq<AlertRow>, nextId: int, userId: int, req: SOSRequest,
                       contacts: seq<ContactRow>, mailOk: ContactRow -> bool, now: int)
    ensures var (r, a, n) := svc.TriggerOutcome(alerts, nextId, userId, req, contacts, mailOk, now);
      (r.Err? <==> userId !in svc.users || (req.alertType.Some? && req.alertType.value !in AlertTypeNames))
      && (r.Err? ==> a == alerts && n == nextId)
      && (userId !in svc.users ==> r == Err(TriggerFailurePrefix + UserNotFound))
      && (userId in svc.users && req.alertType.Some? && req.alertType.value !in AlertTypeNames ==>
            r == Err(TriggerFailurePrefix + NoEnumConstant(req.alertType.value)))
  {
  }

  /** A successful `triggerSOS` appends one ACTIVE alert of the requested type (SOS by default),
    * stamped `now`, whose tracking link expires an hour later; the response carries its id and
    * expiry, the fixed status, and the loop's flags over the caller's contacts. */
  lemma TriggerSuccess(svc: SOSService, alerts: seq<AlertRow>, nextId: int, userId: int, req: SOSRequest,
                       contacts: seq<ContactRow>, mailOk: ContactRow -> bool, now: int)
    ensures var (r, a, n) := svc.TriggerOutcome(alerts, nextId, userId, req, contacts, mailOk, now);
      r.Ok? ==>
        var row := a[|a| - 1];
        |a| == |alerts| + 1 && a[..|alerts|] == alerts && n == nextId + 1
        && row.id == nextId == r.value.alertId && row.userId == userId
        && row.status == Active && row.createdAt == now && row.updatedAt == now
        && row.trackingExpiry == Some(now + OneHour) && r.value.trackingExpiry == now + OneHour
        && row.alertType == Some(if req.alertType.None? then Sos else ParseAlertType(req.alertType.value).value)
        && (row.rideId.Some? <==> req.rideId.Some? && req.rideId.value in svc.rides)
        && row.resolvedAt == None && row.resolvedBy == None
        && r.value.status == TriggeredStatus
        && Flags(r.value.emailSent, r.value.smsSent, r.value.callInitiated)
           == NotifyAll(EmergencyContactService.OwnedBy(contacts, userId), row.alertType.value,
                        IsTwilioConfigured(svc.twilio), mailOk)
  {
    var (r, a, n) := svc.TriggerOutcome(alerts, nextId, userId, req, contacts, mailOk, now);
    if r.Ok? {
      assert a[..|alerts|] == alerts;
    }
  }

  /** A freshly triggered alert is on the active list and on every recent list with a positive window. */
  lemma TriggeredAlertIsListed(svc: SOSService, alerts: seq<AlertRow>, nextId: int, userId: int, req: SOSRequest,
                               contacts: seq<ContactRow>, mailOk: ContactRow -> bool, now: int, hours: int)
    requires hours > 0
    ensures var (r, a, n) := svc.TriggerOutcome(alerts, nextId, userId, req, contacts, mailOk, now);
      r.Ok? ==> a[|a| - 1] in ActiveAlerts(a) && a[|a| - 1] in RecentAlerts(a, hours, now)
  {
  }

  /** `resolveAlert` fails exactly when no alert has that id, and then changes nothing. */
  lemma ResolveUnknown(alerts: seq<AlertRow>, alertId: int, adminId: int, now: int)
    ensures var (r, a) := ResolveOutcome(alerts, alertId, adminId, now);
      (r.Err? <==> forall i :: 0 <= i < |alerts| ==> alerts[i].id != alertId)
      && (r.Err? ==> r.msg == AlertNotFound && a == alerts)
  {
    var i := IndexOfAlert(alerts, alertId);
    if i < |alerts| {
      assert alerts[i].id == alertId;
    }
  }

  /** `resolveAlert` marks that one alert RESOLVED by `adminId` at `now` (the update hook also
    * stamps `updatedAt`) and leaves every other field and every other alert as it was. */
  lemma ResolveChangesOnlyThatAlert(alerts: seq<AlertRow>, alertId: int, adminId: int, now: int)
    ensures var (r, a) := ResolveOutcome(alerts, alertId, adminId, now);
      |a| == |alerts|
      && (r.Ok? ==>
            exists k :: 0 <= k < |a| && alerts[k].id == alertId
              && a[k].status == Resolved && a[k].resolvedBy == Some(adminId) && a[k].resolvedAt == Some(now)
              && a[k].updatedAt == now
              && a[k].(status := alerts[k].status, resolvedBy := alerts[k].resolvedBy,
                       resolvedAt := alerts[k].resolvedAt, updatedAt := alerts[k].updatedAt) == alerts[k]
              && forall j :: 0 <= j < |a| && j != k ==> a[j] == alerts[j])
  {
    var (r, a) := ResolveOutcome(alerts, alertId, adminId, now);
    if r.Ok? {
      var k := IndexOfAlert(alerts, alertId);
      assert alerts[k].id == alertId && a[k] == ResolvedAlert(alerts[k], adminId, now);
    }
  }

  /** The test "is not alert `alertId`". */
  function NotId(alertId: int): AlertRow -> bool
  {
    (a: AlertRow) => a.id != alertId
  }

  /** With unique ids, resolving takes exactly that alert off the active list, keeping the order of
    * the others. */
  lemma ResolveLeavesActiveList(alerts: seq<AlertRow>, alertId: int, adminId: int, now: int)
    requires UniqueAlertIds(alerts)
    ensures ActiveAlerts(ResolveOutcome(alerts, alertId, adminId, now).1)
            == Seqs.Filter(ActiveAlerts(alerts), NotId(alertId))
  {
    var i := IndexOfAlert(alerts, alertId);
    if i == |alerts| {
      OthersKeep(ActiveAlerts(alerts), alerts, alertId);
      Seqs.FilterAll(ActiveAlerts(alerts), NotId(alertId));
    } else {
      ResolvedLeavesActiveList(alerts, i, adminId, now);
    }
  }

  /** Resolving the alert at `i`, whose id no other alert has, drops it from the active list. */
  lemma ResolvedLeavesActiveList(alerts: seq<AlertRow>, i: nat, adminId: int, now: int)
    requires UniqueAlertIds(alerts) && i < |alerts|
    ensures ActiveAlerts(alerts[i := ResolvedAlert(alerts[i], adminId, now)])
            == Seqs.Filter(ActiveAlerts(alerts), NotId(alerts[i].id))
  {
    var notId := NotId(alerts[i].id);
    var s := alerts;
    var s' := alerts[i := ResolvedAlert(alerts[i], adminId, now)];
    Seqs.FilterSplit(s', i, IsActiveAlert);
    Seqs.FilterSplit(s, i, IsActiveAlert);
    assert s'[..i] == s[..i] && s'[i + 1..] == s[i + 1..];
    assert Seqs.Filter([s'[i]], IsActiveAlert) == [] by {
      assert [s'[i]][1..] == [];
    }
    var before := Seqs.Filter(s[..i], IsActiveAlert);
    var at := Seqs.Filter([s[i]], IsActiveAlert);
    var after := Seqs.Filter(s[i + 1..], IsActiveAlert);
    OthersDiffer(alerts, i, s[..i], s[i + 1..]);
    OthersKeep(before, s[..i], alerts[i].id);
    OthersKeep(after, s[i + 1..], alerts[i].id);
    Seqs.FilterAll(before, notId);
    Seqs.FilterAll(after, notId);
    assert Seqs.Filter(at, notId) == [] by {
      assert [s[i]][1..] == [];
      if at != [] {
        assert at == [s[i]];
        assert at[1..] == [];
      }
    }
    Seqs.FilterConcat(before + at, after, notId);
    Seqs.FilterConcat(before, at, notId);
  }

  /** With unique ids, the alerts before and after `i` all have ids other than its own. */
  lemma OthersDiffer(alerts: seq<AlertRow>, i: nat, head: seq<AlertRow>, tail: seq<AlertRow>)
    requires UniqueAlertIds(alerts) && i < |alerts| && head == alerts[..i] && tail == alerts[i + 1..]
    ensures forall j :: 0 <= j < |head| ==> head[j].id != alerts[i].id
    ensures forall j :: 0 <= j < |tail| ==> tail[j].id != alerts[i].id
  {
    forall j | 0 <= j < |head|
      ensures head[j].id != alerts[i].id
    {
      assert head[j] == alerts[j];
    }
    forall j | 0 <= j < |tail|
      ensures tail[j].id != alerts[i].id
    {
      assert tail[j] == alerts[i + 1 + j];
    }
  }

  /** Elements drawn from rows that all differ from `alertId` differ from it too. */
  lemma OthersKeep(part: seq<AlertRow>, rows: seq<AlertRow>, alertId: int)
    requires forall j :: 0 <= j < |part| ==> part[j] in rows
    requires forall j :: 0 <= j < |rows| ==> rows[j].id != alertId
    ensures forall j :: 0 <= j < |part| ==> part[j].id != alertId
  {
    forall j | 0 <= j < |part|
      ensures part[j].id != alertId
    {
      var k :| 0 <= k < |rows| && rows[k] == part[j];
    }
  }

  /** A wider window lists every alert a narrower one does, in the same order. */
  lemma {:induction false} RecentWindowGrows(alerts: seq<AlertRow>, h1: int, h2: int, now: int)
    requires h1 <= h2
    ensures Seqs.Subsequence(RecentAlerts(alerts, h1, now), RecentAlerts(alerts, h2, now))
    decreases |alerts|
  {
    if alerts != [] {
      RecentWindowGrows(alerts[1..], h1, h2, now);
      var r1 := RecentAlerts(alerts, h1, now);
      var r2 := RecentAlerts(alerts, h2, now);
      if alerts[0].createdAt > now - h1 * OneHour {
        assert r1 == [alerts[0]] + RecentAlerts(alerts[1..], h1, now);
        assert r2 == [alerts[0]] + RecentAlerts(alerts[1..], h2, now);
        assert r1[1..] == RecentAlerts(alerts[1..], h1, now);
        assert r2[1..] == RecentAlerts(alerts[1..], h2, now);
      } else if alerts[0].createdAt > now - h2 * OneHour {
        assert r1 == RecentAlerts(alerts[1..], h1, now);
        assert r2 == [alerts[0]] + RecentAlerts(alerts[1..], h2, now);
        assert r2[1..] == RecentAlerts(alerts[1..], h2, now);
      } else {
        assert r1 == RecentAlerts(alerts[1..], h1, now);
        assert r2 == RecentAlerts(alerts[1..], h2, now);
      }
    }
  }
}
