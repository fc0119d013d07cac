// The REST controllers over the emergency and admin services: Bearer-token extraction (the
// `Authorization: Bearer <token>` header form of RFC 6750 section 2.1) and each endpoint's mapping of
// a service outcome to a 200 or a 400 response.
module ControllerSupport {
  import opened Wrappers
  import ApiClient

  /** A response entity: 200 OK or 400 Bad Request, with its body. */
  datatype Http<T> = Ok200(body: T) | BadRequest400(body: T)

  const BearerPrefix := "Bearer "

  /** `extractTokenFromRequest`: the header must be present and start with "Bearer " (case
    * sensitive); the token is what follows. `failure` is the controller's message. */
  function ExtractToken(header: Option<string>, failure: string): (r: Result<string>)
    ensures r.Ok? <==> header.Some? && BearerPrefix <= header.value
    ensures r.Ok? ==> BearerPrefix + r.value == header.value
    ensures r.Err? ==> r.msg == failure
  {
    if header.Some? && BearerPrefix <= header.value then Ok(header.value[7..]) else Err(failure)
  }

  /** The caller as the token provider decodes it from the extracted token. */
  function Authenticate<T>(header: Option<string>, failure: string, decode: string -> Result<T>): Result<T>
  {
    var token := ExtractToken(header, failure);
    if token.Err? then Err(token.msg) else decode(token.value)
  }

  // ---- properties ---------------------------------------------------------

  /** Extraction inverts prefixing: the token of "Bearer " + t is t. */
  lemma ExtractPrefixed(t: string, failure: string)
    ensures ExtractToken(Some(BearerPrefix + t), failure) == Ok(t)
  {
    assert (BearerPrefix + t)[7..] == t;
  }

  /** The scheme name is matched case-sensitively, and an absent header is refused. */
  lemma ExtractRefuses(t: string, failure: string)
    ensures ExtractToken(Some("bearer " + t), failure) == Err(failure)
    ensures ExtractToken(None, failure) == Err(failure)
  {
    assert ("bearer " + t)[0] == 'b';
  }

  /** The header the web client sends after login is accepted and yields the stored token; a client
    * without a token sends no header at all. */
  lemma ClientHeaderAccepted(token: string, failure: string)
    requires token != ""
    ensures var h := ApiClient.AuthHeaders(Some(token));
      "Authorization" in h && ExtractToken(Some(h["Authorization"]), failure) == Ok(token)
    ensures "Authorization" !in ApiClient.AuthHeaders(None)
  {
    ExtractPrefixed(token, failure);
  }
}

/** `EmergencySOSController`: `/api/emergency`. */
module EmergencySOSController {
  import opened Wrappers
  import opened ControllerSupport
  import opened EmergencyAlertEntity
  import opened EmergencySOSService
  import EmergencyContactEntity
  import JavaNumbers

  const TokenMissing := "No valid JWT token found in request"
  const FailedStatus := "FAILED"
  const ErrorPrefix := "Error: "
  const ResolvedText := "Alert resolved successfully"
  const DefaultRecentHours := 24

  datatype SosBody = Triggered(response: AlertResponse)
                   | FailureBody(error: string, message: string, status: string)

  /** The bodies of the list and resolve endpoints: the alerts, the `message` map, or error text. */
  datatype Body = AlertList(alerts: seq<AlertRow>) | MessageMap(message: string) | ErrorText(text: string)

  /** The 400 body of `triggerSOS` for an exception message `msg`. */
  function Failure(msg: string): Http<SosBody>
  {
    BadRequest400(FailureBody(msg, TriggerFailurePrefix + msg, FailedStatus))
  }

  /** `POST /sos`: the response, the alert table and the next identity value after it. */
  function TriggerEndpointOutcome(svc: SOSService, alerts: seq<AlertRow>, nextId: int, who: Result<int>,
                                  req: SOSRequest, contacts: seq<EmergencyContactEntity.ContactRow>,
                                  mailOk: EmergencyContactEntity.ContactRow -> bool, now: int)
    : (Http<SosBody>, seq<AlertRow>, int)
  {
    if who.Err? then (Failure(who.msg), alerts, nextId)
    else
      var (r, alerts', nextId') := svc.TriggerOutcome(alerts, nextId, who.value, req, contacts, mailOk, now);
      (if r.Ok? then Ok200(Triggered(r.value)) else Failure(r.msg), alerts', nextId')
  }

  method TriggerSOS(svc: SOSService, header: Option<string>, decode: string -> Result<int>, req: SOSRequest,
                    contacts: seq<EmergencyContactEntity.ContactRow>,
                    mailOk: EmergencyContactEntity.ContactRow -> bool, now: int)
    returns (reply: Http<SosBody>)
    requires svc.Valid()
    modifies svc`alerts, svc`nextId
    ensures svc.Valid()
    ensures (reply, svc.alerts, svc.nextId)
            == TriggerEndpointOutcome(svc, old(svc.alerts), old(svc.nextId), Authenticate(header, TokenMissing, decode),
                                      req, contacts, mailOk, now)
  {
    var who := Authenticate(header, TokenMissing, decode);
    if who.Err? {
      return Failure(who.msg);
    }
    var r := svc.TriggerSOS(who.value, req, contacts, mailOk, now);
    reply := if r.Ok? then Ok200(Triggered(r.value)) else Failure(r.msg);
  }

  /** `GET /alerts/active`. */
  function ActiveAlertsEndpoint(svc: SOSService): Http<Body>
    reads svc
  {
    Ok200(AlertList(ActiveAlerts(svc.alerts)))
  }

  /** `GET /alerts/recent?hours=`: the window defaults to 24 hours. */
  function RecentAlertsEndpoint(svc: SOSService, hours: Option<int>, now: int): Http<Body>
    reads svc
  {
    Ok200(AlertList(RecentAlerts(svc.alerts, hours.GetOr(DefaultRecentHours), now)))
  }

  /** `POST /alerts/{alertId}/resolve` for the principal named `principal`: the response and the
    * alert table after it. There is no status parameter. */
  function ResolveEndpointOutcome(alerts: seq<AlertRow>, alertId: int, principal: string, now: int)
    : (Http<Body>, seq<AlertRow>)
  {
    var adminId := JavaNumbers.ParseLong(principal);
    if adminId.Err? then (BadRequest400(ErrorText(ErrorPrefix + adminId.msg)), alerts)
    else
      var (r, alerts') := ResolveOutcome(alerts, alertId, adminId.value, now);
      (if r.Ok? then Ok200(MessageMap(ResolvedText)) else BadRequest400(ErrorText(ErrorPrefix + r.msg)), alerts')
  }

  method ResolveAlert(svc: SOSService, alertId: int, principal: string, now: int) returns (reply: Http<Body>)
    requires svc.Valid()
    modifies svc`alerts
    ensures svc.Valid()
    ensures (reply, svc.alerts) == ResolveEndpointOutcome(old(svc.alerts), alertId, principal, now)
  {
    var adminId := JavaNumbers.ParseLong(principal);
    if adminId.Err? {
      return BadRequest400(ErrorText(ErrorPrefix + adminId.msg));
    }
    var r := svc.ResolveAlert(alertId, adminId.value, now);
    reply := if r.Ok? then Ok200(MessageMap(ResolvedText)) else BadRequest400(ErrorText(ErrorPrefix + r.msg));
  }

  // ---- properties ---------------------------------------------------------

  /** Every failure of `POST /sos` is a 400 whose status is FAILED and whose message is the prefix and
    * the error; a missing token stores nothing. */
  lemma TriggerFailureEnvelope(svc: SOSService, alerts: seq<AlertRow>, nextId: int, who: Result<int>,
                               req: SOSRequest, contacts: seq<EmergencyContactEntity.ContactRow>,
                               mailOk: EmergencyContactEntity.ContactRow -> bool, now: int)
    ensures var (reply, alerts', nextId') := TriggerEndpointOutcome(svc, alerts, nextId, who, req, contacts, mailOk, now);
      (reply.BadRequest400? <==> who.Err? || svc.TriggerOutcome(alerts, nextId, who.value, req, contacts, mailOk, now).0.Err?)
      && (reply.BadRequest400? ==> reply.body.FailureBody? && reply.body.status == FailedStatus
                                   && reply.body.message == TriggerFailurePrefix + reply.body.error
                                   && alerts' == alerts && nextId' == nextId)
      && (reply.Ok200? ==> reply.body.Triggered? && reply.body.response.status == TriggeredStatus)
  {
  }

  /** The service already prefixes its own failures, so an unknown user reads the prefix twice. */
  lemma UnknownUserDoublePrefix(svc: SOSService, alerts: seq<AlertRow>, nextId: int, userId: int,
                                req: SOSRequest, contacts: seq<EmergencyContactEntity.ContactRow>,
                                mailOk: EmergencyContactEntity.ContactRow -> bool, now: int)
    requires userId !in svc.users
    ensures TriggerEndpointOutcome(svc, alerts, nextId, Ok(userId), req, contacts, mailOk, now).0.body.message
            == TriggerFailurePrefix + TriggerFailurePrefix + UserNotFound
  {
  }

  /** A principal name that is not a number gives a 400 and changes nothing. */
  lemma ResolveNeedsNumericPrincipal(alerts: seq<AlertRow>, alertId: int, principal: string, now: int)
    requires JavaNumbers.ParseLong(principal).Err?
    ensures ResolveEndpointOutcome(alerts, alertId, principal, now)
            == (BadRequest400(ErrorText(ErrorPrefix + JavaNumbers.NumberFormat(principal))), alerts)
  {
  }

  /** A successful resolve always records RESOLVED by the numeric principal: no request can set
    * another status. */
  lemma ResolveAlwaysResolved(alerts: seq<AlertRow>, alertId: int, principal: string, now: int)
    ensures var (reply, alerts') := ResolveEndpointOutcome(alerts, alertId, principal, now);
      reply.Ok200? ==>
        reply.body == MessageMap(ResolvedText)
        && exists k :: 0 <= k < |alerts'| && alerts'[k].id == alertId && alerts'[k].status == Resolved
                       && alerts'[k].resolvedBy == Some(JavaNumbers.ParseLong(principal).value)
  {
    var (reply, alerts') := ResolveEndpointOutcome(alerts, alertId, principal, now);
    if reply.Ok200? {
      var adminId := JavaNumbers.ParseLong(principal).value;
      var k := IndexOfAlert(alerts, alertId);
      assert alerts'[k] == ResolvedAlert(alerts[k], adminId, now);
    }
  }

  /** Without the parameter the recent list covers the last 24 hours. */
  lemma RecentDefaultsToOneDay(svc: SOSService, now: int)
    ensures RecentAlertsEndpoint(svc, None, now) == Ok200(AlertList(RecentAlerts(svc.alerts, 24, now)))
  {
  }
}

/** `EmergencyContactController`: `/api/emergency/contacts`; the user is always the token's. */
module EmergencyContactController {
  import opened Wrappers
  import opened ControllerSupport
  import opened EmergencyContactEntity
  import opened EmergencyContactService
  import Seqs

  const TokenMissing := "No valid JWT token found in request"
  const ErrorPrefix := "Error: "
  const Deleted := "Emergency contact deleted successfully"

  datatype Body = Contact(contact: ContactDto) | Contacts(contacts: seq<ContactDto>) | Text(text: string)

  function ErrorReply(msg: string): Http<Body>
  {
    BadRequest400(Text(ErrorPrefix + msg))
  }

  /** `POST`: the response, the table and the next identity value after it. */
  function AddEndpointOutcome(users: set<int>, rows: seq<ContactRow>, nextId: int, who: Result<int>,
                              dto: ContactDto, now: int)
    : (Http<Body>, seq<ContactRow>, int)
  {
    if who.Err? then (ErrorReply(who.msg), rows, nextId)
    else
      var (r, rows', nextId') := AddOutcome(users, rows, nextId, who.value, dto, now);
      (if r.Ok? then Ok200(Contact(r.value)) else ErrorReply(r.msg), rows', nextId')
  }

  /** `GET`. */
  function ListEndpoint(users: set<int>, rows: seq<ContactRow>, who: Result<int>): Http<Body>
  {
    if who.Err? then ErrorReply(who.msg)
    else if who.value !in users then ErrorReply(UserNotFound)
    else Ok200(Contacts(Seqs.MapSeq(OwnedBy(rows, who.value), ToDto)))
  }

  /** `PUT /{contactId}`. */
  function UpdateEndpointOutcome(users: set<int>, rows: seq<ContactRow>, who: Result<int>, contactId: int,
                                 dto: ContactDto, now: int)
    : (Http<Body>, seq<ContactRow>)
  {
    if who.Err? then (ErrorReply(who.msg), rows)
    else
      var (r, rows') := UpdateOutcome(users, rows, who.value, contactId, dto, now);
      (if r.Ok? then Ok200(Contact(r.value)) else ErrorReply(r.msg), rows')
  }

  /** `DELETE /{contactId}`. */
  function DeleteEndpointOutcome(users: set<int>, rows: seq<ContactRow>, who: Result<int>, contactId: int)
    : (Http<Body>, seq<ContactRow>)
  {
    if who.Err? then (ErrorReply(who.msg), rows)
    else
      var (r, rows') := DeleteOutcome(users, rows, who.value, contactId);
      (if r.Ok? then Ok200(Text(Deleted)) else ErrorReply(r.msg), rows')
  }

  method AddContact(svc: ContactService, header: Option<string>, decode: string -> Result<int>, dto: ContactDto, now: int)
    returns (reply: Http<Body>)
    requires svc.Valid()
    modifies svc`rows, svc`nextId
    ensures svc.Valid()
    ensures (reply, svc.rows, svc.nextId)
            == AddEndpointOutcome(svc.users, old(svc.rows), old(svc.nextId), Authenticate(header, TokenMissing, decode), dto, now)
  {
    var who := Authenticate(header, TokenMissing, decode);
    if who.Err? {
      return ErrorReply(who.msg);
    }
    var r := svc.Add(who.value, dto, now);
    reply := if r.Ok? then Ok200(Contact(r.value)) else ErrorReply(r.msg);
  }

  function ListContacts(svc: ContactService, header: Option<string>, decode: string -> Result<int>): Http<Body>
    reads svc
  {
    ListEndpoint(svc.users, svc.rows, Authenticate(header, TokenMissing, decode))
  }

  method UpdateContact(svc: ContactService, header: Option<string>, decode: string -> Result<int>, contactId: int,
                       dto: ContactDto, now: int)
    returns (reply: Http<Body>)
    requires svc.Valid()
    modifies svc`rows
    ensures svc.Valid()
    ensures (reply, svc.rows)
            == UpdateEndpointOutcome(svc.users, old(svc.rows), Authenticate(header, TokenMissing, decode), contactId, dto, now)
  {
    var who := Authenticate(header, TokenMissing, decode);
    if who.Err? {
      return ErrorReply(who.msg);
    }
    var r := svc.Update(who.value, contactId, dto, now);
    reply := if r.Ok? then Ok200(Contact(r.value)) else ErrorReply(r.msg);
  }

  method DeleteContact(svc: ContactService, header: Option<string>, decode: string -> Result<int>, contactId: int)
    returns (reply: Http<Body>)
    requires svc.Valid()
    modifies svc`rows
    ensures svc.Valid()
    ensures (reply, svc.rows) == DeleteEndpointOutcome(svc.users, old(svc.rows), Authenticate(header, TokenMissing, decode), contactId)
  {
    var who := Authenticate(header, TokenMissing, decode);
    if who.Err? {
      return ErrorReply(who.msg);
    }
    var r := svc.Delete(who.value, contactId);
    reply := if r.Ok? then Ok200(Text(Deleted)) else ErrorReply(r.msg);
  }

  // ---- properties ---------------------------------------------------------

  /** Every failure of every endpoint is a 400 whose text is "Error: " and the message, and leaves
    * the table as it was; without a valid header the message is the controller's. */
  lemma ErrorMapping(users: set<int>, rows: seq<ContactRow>, nextId: int, who: Result<int>, contactId: int,
                     dto: ContactDto, now: int)
    ensures var (a, rowsA, idA) := AddEndpointOutcome(users, rows, nextId, who, dto, now);
      a.BadRequest400? ==> a.body.Text? && ErrorPrefix <= a.body.text && rowsA == rows && idA == nextId
    ensures var (u, rowsU) := UpdateEndpointOutcome(users, rows, who, contactId, dto, now);
      u.BadRequest400? ==> u.body.Text? && ErrorPrefix <= u.body.text && rowsU == rows
    ensures var (d, rowsD) := DeleteEndpointOutcome(users, rows, who, contactId);
      d.BadRequest400? ==> d.body.Text? && ErrorPrefix <= d.body.text && rowsD == rows
    ensures var l := ListEndpoint(users, rows, who);
      l.BadRequest400? ==> l.body.Text? && ErrorPrefix <= l.body.text
    ensures who == Err(TokenMissing) ==>
      DeleteEndpointOutcome(users, rows, who, contactId) == (ErrorReply(TokenMissing), rows)
  {
    AddMeaning(users, rows, nextId, if who.Ok? then who.value else 0, dto, now);
    UpdateMeaning(users, rows, if who.Ok? then who.value else 0, contactId, dto, now);
  }

  /** Operations are scoped to the caller: the listed contacts are the caller's own, a delete keeps
    * every contact the caller does not own, and an update of someone else's contact is refused
    * with "Unauthorized access" and changes nothing. */
  lemma ScopedToCaller(users: set<int>, rows: seq<ContactRow>, userId: int, contactId: int, dto: ContactDto, now: int)
    requires userId in users
    ensures var l := ListEndpoint(users, rows, Ok(userId));
      l.Ok200? && l.body.Contacts? && forall i :: 0 <= i < |l.body.contacts| ==> l.body.contacts[i].userId == Some(userId)
    ensures var (d, rows') := DeleteEndpointOutcome(users, rows, Ok(userId), contactId);
      d == Ok200(Text(Deleted))
      && forall i :: 0 <= i < |rows| && rows[i].userId != userId ==> rows[i] in rows'
    ensures var i := IndexOfId(rows, contactId);
      i < |rows| && rows[i].userId != userId ==>
        UpdateEndpointOutcome(users, rows, Ok(userId), contactId, dto, now) == (ErrorReply(Unauthorized), rows)
  {
    ListIsOwnersContacts(rows, userId);
    DeleteOnlyOwned(rows, userId, contactId);
  }
}

/** `AdminController`: `/api/admin`. */
module AdminController {
  import opened Wrappers
  import opened ControllerSupport
  import opened AdminService

  const TokenMissing := "No valid JWT token found"
  const ErrorStatus := "ERROR"

  function ErrorResponse(msg: string): Http<ApiResponse>
  {
    BadRequest400(ApiResponse(ErrorStatus, msg, None))
  }

  /** `POST /login`: the response and the admin table after it. */
  function LoginEndpointOutcome(admins: seq<AdminRow>, dto: AdminLoginDto, access: Result<string>,
                                refresh: Result<string>, expirationMs: int, now: int)
    : (Http<ApiResponse>, seq<AdminRow>)
  {
    var (r, admins') := LoginOutcome(admins, dto, access, refresh, expirationMs, now);
    (if r.Ok? then Ok200(r.value) else ErrorResponse(r.msg), admins')
  }

  method AdminLogin(svc: AdminAccounts, dto: AdminLoginDto, access: Result<string>, refresh: Result<string>,
                    expirationMs: int, now: int)
    returns (reply: Http<ApiResponse>)
    modifies svc`admins
    ensures (reply, svc.admins) == LoginEndpointOutcome(old(svc.admins), dto, access, refresh, expirationMs, now)
  {
    var r := svc.AuthenticateAdmin(dto, access, refresh, expirationMs, now);
    reply := if r.Ok? then Ok200(r.value) else ErrorResponse(r.msg);
  }

  /** `GET /profile`: the token's subject is the e-mail looked up. */
  function ProfileEndpoint(admins: seq<AdminRow>, header: Option<string>, subjectOf: string -> Result<string>)
    : Http<ApiResponse>
  {
    var email := Authenticate(header, TokenMissing, subjectOf);
    if email.Err? then ErrorResponse(email.msg)
    else
      var r := ProfileOutcome(admins, email.value);
      if r.Ok? then Ok200(r.value) else ErrorResponse(r.msg)
  }

  /** `GET /drivers` and `GET /drivers/pending`: the driver-detail service's answer passed through. */
  function DriverListEndpoint(service: Result<ApiResponse>): Http<ApiResponse>
  {
    if service.Ok? then Ok200(service.value) else ErrorResponse(service.msg)
  }

  // ---- properties ---------------------------------------------------------

  /** A login failure is always the same 400 ERROR envelope with no data, whatever went wrong. */
  lemma LoginFailureEnvelope(admins: seq<AdminRow>, dto: AdminLoginDto, access: Result<string>,
                             refresh: Result<string>, expirationMs: int, now: int)
    ensures var (reply, admins') := LoginEndpointOutcome(admins, dto, access, refresh, expirationMs, now);
      reply.BadRequest400? ==> reply.body == ApiResponse(ErrorStatus, InvalidCredentials, None) && admins' == admins
  {
    LoginSucceedsIff(admins, dto, access, refresh, expirationMs, now);
    LastLoginOnlyOnSuccess(admins, dto, access, refresh, expirationMs, now);
  }

  /** The profile endpoint: a missing or non-Bearer header gives the controller's message, and with
    * a subject the answer is the service's profile of that e-mail, "Admin not found" for an e-mail
    * with no active admin. */
  lemma ProfileEnvelope(admins: seq<AdminRow>, header: Option<string>, subjectOf: string -> Result<string>)
    ensures (header.None? || !(BearerPrefix <= header.value)) ==>
      ProfileEndpoint(admins, header, subjectOf) == ErrorResponse(TokenMissing)
    ensures header.Some? && BearerPrefix <= header.value && subjectOf(header.value[7..]).Ok? ==>
      var email := subjectOf(header.value[7..]).value;
      ((forall i :: 0 <= i < |admins| ==> admins[i].email != email || admins[i].isActive != Some(true)) ==>
         ProfileEndpoint(admins, header, subjectOf) == ErrorResponse(AdminNotFound))
      && (ProfileEndpoint(admins, header, subjectOf).Ok200? ==>
            ProfileEndpoint(admins, header, subjectOf).body == ProfileOutcome(admins, email).value)
  {
    if header.Some? && BearerPrefix <= header.value && subjectOf(header.value[7..]).Ok? {
      ProfileMeaning(admins, subjectOf(header.value[7..]).value);
    }
  }

  /** The driver endpoints pass a successful answer through unchanged and turn a failure into the
    * ERROR envelope. */
  lemma DriverListPassThrough(service: Result<ApiResponse>)
    ensures service.Ok? ==> DriverListEndpoint(service) == Ok200(service.value)
    ensures service.Err? ==> DriverListEndpoint(service).body == ApiResponse(ErrorStatus, service.msg, None)
  {
  }
}
