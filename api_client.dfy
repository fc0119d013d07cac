// The web client's API service: the token kept in memory and in local storage,
// the request headers, the response envelope of `apiCall`, the request bodies
// of registration, ride posting, ride search and booking, and which of two
// same-named methods the class keeps.
module ApiClient {
  import opened Wrappers
  import opened JsStrings
  import JsNumbers
  import DriverDashboard

  const BaseUrl := "http://localhost:8080/api"

  /** The browser's `localStorage`, a string-to-string store. */
  class LocalStorage {
    var items: map<string, string>

    constructor (initial: map<string, string>)
      ensures items == initial
    {
      items := initial;
    }

    /** `getItem(key)`: null for a missing key. */
    function GetItem(key: string): (r: Option<string>)
      reads this
      ensures r.Some? <==> key in items
      ensures r.Some? ==> r.value == items[key]
    {
      if key in items then Some(items[key]) else None
    }

    method SetItem(key: string, value: string)
      modifies this
      ensures items == old(items)[key := value]
    {
      items := items[key := value];
    }

    method RemoveItem(key: string)
      modifies this
      ensures items == old(items) - {key}
    {
      items := items - {key};
    }
  }

  /** What the browser's `fetch` produced: a response, or a network error. */
  datatype HttpReply = HttpReply(ok: bool, status: int, contentType: Option<string>, json: Option<Body>, text: string)
                     | NetworkError(error: string)

  /** A response body: its `message` and `status` fields and any other fields. */
  datatype Body = Body(message: Option<string>, status: Option<string>, fields: map<string, string>)

  /** The request `apiCall` hands to `fetch`. */
  datatype Request = Request(url: string, headers: map<string, string>, httpMethod: string, body: Option<string>)

  /** `getAuthHeaders()` for a token value. */
  function AuthHeaders(token: Option<string>): (h: map<string, string>)
    ensures "Content-Type" in h && h["Content-Type"] == "application/json"
    ensures "Authorization" in h <==> Truthy(token)
    ensures "Authorization" in h ==> h["Authorization"] == "Bearer " + token.value
    ensures h.Keys <= {"Content-Type", "Authorization"}
  {
    var base := map["Content-Type" := "application/json"];
    if token.Some? && token.value != "" then base["Authorization" := "Bearer " + token.value] else base
  }

  /** The body `apiCall` builds for a response that is not JSON. */
  function TextEnvelope(text: string, ok: bool): (b: Body)
    ensures b.message == Some(text)
    ensures b.status == Some(if ok then "SUCCESS" else "ERROR")
    ensures b.fields == map[]
  {
    Body(Some(text), Some(if ok then "SUCCESS" else "ERROR"), map[])
  }

  /** `contentType && contentType.includes('application/json')` */
  predicate IsJson(contentType: Option<string>)
  {
    contentType.Some? && Contains(contentType.value, "application/json")
  }

  /** The body `apiCall` settles for: parsed JSON (or the placeholder when parsing fails), else the
    * text envelope. */
  function ParsedBody(r: HttpReply): Body
    requires r.HttpReply?
  {
    if IsJson(r.contentType) then
      (if r.json.Some? then r.json.value else Body(Some("Invalid response format"), None, map[]))
    else TextEnvelope(r.text, r.ok)
  }

  /** The outcome of `apiCall`: the body when the status is ok, else an error whose message is the
    * body's message, or the text of an object (`[object Object]`) when it has none. */
  function CallOutcome(r: HttpReply): Result<Body>
  {
    match r
    case NetworkError(e) => Err(e)
    case HttpReply(ok, _, _, _, _) =>
      var data := ParsedBody(r);
      if !ok then Err(if Truthy(data.message) then data.message.value else "[object Object]")
      else Ok(data)
  }

  class ApiService {
    var token: Option<string>
    const storage: LocalStorage

    /** `new ApiService()` reads the token saved in storage. */
    constructor (storage: LocalStorage)
      ensures this.storage == storage
      ensures token == storage.GetItem("token")
    {
      this.storage := storage;
      token := storage.GetItem("token");
    }

    /** `setToken(t)`: a truthy token is saved, any other value removes the saved one. */
    method SetToken(t: Option<string>)
      modifies this, storage
      ensures token == t
      ensures Truthy(t) ==> storage.items == old(storage.items)["token" := t.value]
      ensures !Truthy(t) ==> storage.items == old(storage.items) - {"token"}
    {
      token := t;
      if t.Some? && t.value != "" {
        storage.SetItem("token", t.value);
      } else {
        storage.RemoveItem("token");
      }
    }

    function GetAuthHeaders(): map<string, string>
      reads this
    {
      AuthHeaders(token)
    }

    /** `apiCall(endpoint, options)`: the token is read again from storage first; `reply` is what
      * the network answers to the request. */
    method ApiCall(endpoint: string, httpMethod: string, body: Option<string>, reply: HttpReply)
      returns (req: Request, outcome: Result<Body>)
      modifies this`token
      ensures token == storage.GetItem("token")
      ensures req == Request(BaseUrl + endpoint, AuthHeaders(storage.GetItem("token")), httpMethod, body)
      ensures outcome == CallOutcome(reply)
    {
      token := storage.GetItem("token");
      req := Request(BaseUrl + endpoint, GetAuthHeaders(), httpMethod, body);
      match reply
      case NetworkError(e) =>
        outcome := Err(e);
      case HttpReply(ok, status, contentType, json, text) =>
        var data: Body;
        if contentType.Some? && Contains(contentType.value, "application/json") {
          data := if json.Some? then json.value else Body(Some("Invalid response format"), None, map[]);
        } else {
          data := Body(Some(text), Some(if ok then "SUCCESS" else "ERROR"), map[]);
        }
        if !ok {
          outcome := Err(if data.message.Some? && data.message.value != "" then data.message.value else "[object Object]");
        } else {
          outcome := Ok(data);
        }
    }
  }

  // ---- request bodies -----------------------------------------------------

  /** The sign-up form. */
  datatype RegisterForm = RegisterForm(name: string, phone: string, email: string, password: string, userType: string)

  datatype Registration = Registration(firstName: string, lastName: string, phoneNumber: string, email: string, password: string, role: string)

  /** The name split of `register`: trimmed, split on single spaces, first piece and the rest re-joined. */
  function SplitName(name: string): (string, string)
  {
    var parts := Split(Trim(name), ' ');
    (parts[0], Join(parts[1..], " "))
  }

  function RoleFor(userType: string): string
  {
    if userType == "passenger" then "USER" else "DRIVER"
  }

  function RegistrationBody(f: RegisterForm): Registration
  {
    var (first, last) := SplitName(f.name);
    Registration(first, last, f.phone, f.email, f.password, RoleFor(f.userType))
  }

  datatype RideBody = RideBody(source: string, destination: string, departureDate: string,
                               availableSeats: Option<int>, pricePerSeat: Option<real>, notes: string)

  /** The body of `postRide` (None stands for NaN). */
  function PostRideBody(f: DriverDashboard.Form): RideBody
  {
    RideBody(f.from, f.to, f.date + "T" + f.time + ":00", JsNumbers.ParseInt(f.seats), JsNumbers.ParseFloat(f.price),
             OrElse(Some(f.notes), ""))
  }

  /** The search parameters a caller passes: either naming style may be used. */
  datatype SearchParams = SearchParams(from: Option<string>, source: Option<string>, to: Option<string>,
                                       destination: Option<string>, date: Option<string>, maxPrice: Option<string>)

  datatype SearchBody = SearchBody(source: string, destination: string, departureDate: string, maxPrice: Option<Option<real>>)

  /** The body of `searchRides`; `maxPrice` is null (None) or a parsed number (Some, None inside for NaN). */
  function SearchBodyOf(p: SearchParams): SearchBody
  {
    SearchBody(OrElse(p.from, OrElse(p.source, "")), OrElse(p.to, OrElse(p.destination, "")),
               if Truthy(p.date) then p.date.value + "T00:00:00" else "",
               if Truthy(p.maxPrice) then Some(JsNumbers.ParseFloat(p.maxPrice.value)) else None)
  }

  datatype BookingBody = BookingBody(rideId: int, seatsBooked: int, passengerName: string, passengerPhone: string, pickupPoint: string)

  /** The body of `bookRide`, with its own fallbacks for empty values. */
  function BookRideBody(rideId: int, seats: int, name: string, phone: string, pickup: string): BookingBody
  {
    BookingBody(rideId, seats, OrElse(Some(name), "Passenger"), OrElse(Some(phone), "0000000000"),
                OrElse(Some(pickup), "Default pickup point"))
  }

  // ---- same-named methods -------------------------------------------------

  /** A method definition in the class body: its name and the endpoint it calls. */
  datatype MethodDef = MethodDef(name: string, path: string)

  /** The definitions of the class body that share a name, in source order. */
  const DuplicatedDefs: seq<MethodDef> := [
    MethodDef("getAllUsers", "/users/all"),
    MethodDef("deleteUser", "/users/{userId}"),
    MethodDef("getRideBookings", "/rides/{rideId}/bookings"),
    MethodDef("getRideBookings", "/rides/{rideId}/bookings"),
    MethodDef("getAllUsers", "/admin/users"),
    MethodDef("deleteUser", "/admin/users/{userId}")
  ]

  /** The endpoint of the method a class body keeps under `name`: the last definition wins. */
  function Resolve(defs: seq<MethodDef>, name: string): Option<string>
    decreases |defs|
  {
    if defs == [] then None
    else if defs[|defs| - 1].name == name then Some(defs[|defs| - 1].path)
    else Resolve(defs[..|defs| - 1], name)
  }

  // ---- properties -------------------------------------------------------

  /** The header built by the client is one the server's Bearer extraction accepts, and the
    * token comes back unchanged. */
  lemma AuthHeaderShape(token: string)
    requires token != ""
    ensures AuthHeaders(Some(token))["Authorization"] == "Bearer " + token
    ensures "Bearer " <= AuthHeaders(Some(token))["Authorization"]
    ensures AuthHeaders(Some(token))["Authorization"][7..] == token
  {
  }

  /** Without a truthy token only the content type is sent. */
  lemma NoTokenNoAuthorization(token: Option<string>)
    requires !Truthy(token)
    ensures AuthHeaders(token) == map["Content-Type" := "application/json"]
  {
  }

  /** A non-JSON reply settles to the text envelope exactly when the status is ok, and every
    * not-ok status fails the call. */
  lemma TextRepliesAndFailures(r: HttpReply)
    requires r.HttpReply?
    ensures !IsJson(r.contentType) && r.ok ==> CallOutcome(r) == Ok(TextEnvelope(r.text, true))
    ensures !r.ok ==> CallOutcome(r).Err?
    ensures !IsJson(r.contentType) && r.text != "" && !r.ok ==> CallOutcome(r) == Err(r.text)
  {
  }

  /** A name with a space splits at its first space; the two halves rejoin around it. */
  lemma {:induction false} NameSplitAtFirstSpace(first: string, rest: string)
    requires ' ' !in first
    requires Trim(first + " " + rest) == first + " " + rest
    ensures SplitName(first + " " + rest) == (first, rest)
    ensures SplitName(first + " " + rest).0 + " " + SplitName(first + " " + rest).1 == first + " " + rest
  {
    SplitFirst(first, ' ', rest);
    assert first + " " + rest == first + [' '] + rest;
  }

  /** A name with no space is all first name, with an empty last name. */
  lemma NameWithoutSpace(name: string)
    requires Trim(name) == name && ' ' !in name
    ensures SplitName(name) == (name, "")
  {
    SplitWithoutSeparator(name, ' ');
  }

  /** Only the user type 'passenger' registers as USER. */
  lemma RoleMapping(userType: string)
    ensures RoleFor(userType) == "USER" <==> userType == "passenger"
    ensures RoleFor(userType) == "DRIVER" <==> userType != "passenger"
  {
  }

  /** The departure sent for a ride is the date, "T", the time and zero seconds. */
  lemma DepartureString(f: DriverDashboard.Form)
    requires |f.date| == 10 && |f.time| == 5
    ensures |PostRideBody(f).departureDate| == 19
    ensures PostRideBody(f).departureDate[..10] == f.date && PostRideBody(f).departureDate[10] == 'T'
    ensures PostRideBody(f).departureDate[11..16] == f.time && PostRideBody(f).departureDate[16..] == ":00"
  {
  }

  /** The search body prefers `from` over `source` (and `to` over `destination`), and sends a date
    * at midnight only when one is given. */
  lemma SearchBodyFallbacks(p: SearchParams)
    ensures Truthy(p.from) ==> SearchBodyOf(p).source == p.from.value
    ensures !Truthy(p.from) && Truthy(p.source) ==> SearchBodyOf(p).source == p.source.value
    ensures !Truthy(p.from) && !Truthy(p.source) ==> SearchBodyOf(p).source == ""
    ensures Truthy(p.to) ==> SearchBodyOf(p).destination == p.to.value
    ensures !Truthy(p.to) && !Truthy(p.destination) ==> SearchBodyOf(p).destination == ""
    ensures SearchBodyOf(p).departureDate == (if Truthy(p.date) then p.date.value + "T00:00:00" else "")
    ensures SearchBodyOf(p).maxPrice.None? <==> !Truthy(p.maxPrice)
  {
  }

  /** In a class body the last definition of a name is the one that is kept. */
  lemma {:induction false} LastDefinitionWins(defs: seq<MethodDef>, d: MethodDef, others: seq<MethodDef>)
    requires forall i :: 0 <= i < |others| ==> others[i].name != d.name
    ensures Resolve(defs + [d] + others, d.name) == Some(d.path)
    decreases |others|
  {
    if others == [] {
      assert defs + [d] + others == defs + [d];
    } else {
      var all := defs + [d] + others;
      assert all[..|all| - 1] == defs + [d] + others[..|others| - 1];
      LastDefinitionWins(defs, d, others[..|others| - 1]);
    }
  }

  /** `getAllUsers` and `deleteUser` resolve to the admin endpoints. */
  lemma DuplicatesTargetAdminEndpoints()
    ensures Resolve(DuplicatedDefs, "getAllUsers") == Some("/admin/users")
    ensures Resolve(DuplicatedDefs, "deleteUser") == Some("/admin/users/{userId}")
    ensures Resolve(DuplicatedDefs, "getRideBookings") == Some("/rides/{rideId}/bookings")
  {
    assert DuplicatedDefs[..5] + [DuplicatedDefs[5]] == DuplicatedDefs;
    assert DuplicatedDefs[..4] + [DuplicatedDefs[4]] + [DuplicatedDefs[5]] == DuplicatedDefs;
    LastDefinitionWins(DuplicatedDefs[..5], DuplicatedDefs[5], []);
    LastDefinitionWins(DuplicatedDefs[..4], DuplicatedDefs[4], [DuplicatedDefs[5]]);
    LastDefinitionWins(DuplicatedDefs[..3], DuplicatedDefs[3], [DuplicatedDefs[4], DuplicatedDefs[5]]);
    assert DuplicatedDefs[..3] + [DuplicatedDefs[3]] + [DuplicatedDefs[4], DuplicatedDefs[5]] == DuplicatedDefs;
  }
}
