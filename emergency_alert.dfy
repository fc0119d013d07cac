// The emergency-alert entity: its two enumerations, the ACTIVE default of the status column and
// the persistence hooks that stamp the times and the one-hour tracking expiry.
module EmergencyAlertEntity {
  import opened Wrappers

  datatype AlertType = Sos | EmergencyCall | PanicButton
  datatype AlertStatus = Active | Resolved | FalseAlarm

  /** How long a tracking link stays valid after the alert is stored, in seconds. */
  const OneHour := 3600

  const AlertTypeNames: seq<string> := ["SOS", "EMERGENCY_CALL", "PANIC_BUTTON"]
  const AlertStatusNames: seq<string> := ["ACTIVE", "RESOLVED", "FALSE_ALARM"]

  /** The constant name of an alert type, as stored in the `alert_type` column. */
  function TypeName(t: AlertType): string
  {
    match t
    case Sos => "SOS"
    case EmergencyCall => "EMERGENCY_CALL"
    case PanicButton => "PANIC_BUTTON"
  }

  /** The constant name of a status, as stored in the `status` column. */
  function StatusName(s: AlertStatus): string
  {
    match s
    case Active => "ACTIVE"
    case Resolved => "RESOLVED"
    case FalseAlarm => "FALSE_ALARM"
  }

  const AlertTypeClass := "com.ridesharing.entity.EmergencyAlert.AlertType"

  /** The message of the IllegalArgumentException `valueOf` throws for an unknown name. */
  function NoEnumConstant(name: string): string
  {
    "No enum constant " + AlertTypeClass + "." + name
  }

  /** `AlertType.valueOf(name)`: exact, case-sensitive match against the constant names. */
  function ParseAlertType(name: string): (r: Result<AlertType>)
    ensures r.Ok? <==> name in AlertTypeNames
    ensures r.Ok? ==> TypeName(r.value) == name
    ensures r.Err? ==> r.msg == NoEnumConstant(name)
  {
    if name == "SOS" then Ok(Sos)
    else if name == "EMERGENCY_CALL" then Ok(EmergencyCall)
    else if name == "PANIC_BUTTON" then Ok(PanicButton)
    else Err(NoEnumConstant(name))
  }

  /** A link built from the alert's coordinates: the map link, or the tracking page of a user.
    * The textual `%f` rendering of the coordinates is not modelled. */
  datatype Link = MapsLink(latitude: Option<real>, longitude: Option<real>)
                | TrackingLink(userId: int, latitude: Option<real>, longitude: Option<real>)

  /** A stored alert. The owner, the status and the two stamps are always present once stored;
    * times are seconds. */
  datatype AlertRow = AlertRow(id: int, userId: int, rideId: Option<int>,
                               latitude: Option<real>, longitude: Option<real>,
                               locationLink: Option<Link>, trackingLink: Option<Link>,
                               trackingExpiry: Option<int>, alertType: Option<AlertType>,
                               status: AlertStatus, message: Option<string>,
                               resolvedAt: Option<int>, resolvedBy: Option<int>,
                               createdAt: int, updatedAt: int)

  class EmergencyAlert {
    var userId: Option<int>
    var rideId: Option<int>
    var latitude: Option<real>
    var longitude: Option<real>
    var locationLink: Option<Link>
    var trackingLink: Option<Link>
    var trackingExpiry: Option<int>
    var alertType: Option<AlertType>
    var status: Option<AlertStatus>
    var message: Option<string>
    var resolvedAt: Option<int>
    var resolvedBy: Option<int>
    var createdAt: Option<int>
    var updatedAt: Option<int>

    /** The no-argument constructor: every field null except the status, which starts ACTIVE. */
    constructor ()
      ensures userId == None && rideId == None && latitude == None && longitude == None
      ensures locationLink == None && trackingLink == None && trackingExpiry == None
      ensures alertType == None && status == Some(Active) && message == None
      ensures resolvedAt == None && resolvedBy == None && createdAt == None && updatedAt == None
    {
      userId := None;
      rideId := None;
      latitude := None;
      longitude := None;
      locationLink := None;
      trackingLink := None;
      trackingExpiry := None;
      alertType := None;
      status := Some(Active);
      message := None;
      resolvedAt := None;
      resolvedBy := None;
      createdAt := None;
      updatedAt := None;
    }

    /** The entity loaded from a stored row. */
    constructor Load(r: AlertRow)
      ensures userId == Some(r.userId) && rideId == r.rideId && latitude == r.latitude && longitude == r.longitude
      ensures locationLink == r.locationLink && trackingLink == r.trackingLink && trackingExpiry == r.trackingExpiry
      ensures alertType == r.alertType && status == Some(r.status) && message == r.message
      ensures resolvedAt == r.resolvedAt && resolvedBy == r.resolvedBy
      ensures createdAt == Some(r.createdAt) && updatedAt == Some(r.updatedAt)
    {
      userId := Some(r.userId);
      rideId := r.rideId;
      latitude := r.latitude;
      longitude := r.longitude;
      locationLink := r.locationLink;
      trackingLink := r.trackingLink;
      trackingExpiry := r.trackingExpiry;
      alertType := r.alertType;
      status := Some(r.status);
      message := r.message;
      resolvedAt := r.resolvedAt;
      resolvedBy := r.resolvedBy;
      createdAt := Some(r.createdAt);
      updatedAt := Some(r.updatedAt);
    }

    /** `@PrePersist onCreate` at time `now`: both stamps, a null status made ACTIVE, and the
      * tracking expiry one hour ahead whatever it held before. */
    method OnCreate(now: int)
      modifies this`createdAt, this`updatedAt, this`status, this`trackingExpiry
      ensures createdAt == Some(now) && updatedAt == Some(now)
      ensures status == if old(status).None? then Some(Active) else old(status)
      ensures trackingExpiry == Some(now + OneHour)
    {
      createdAt := Some(now);
      updatedAt := Some(now);
      if status.None? {
        status := Some(Active);
      }
      trackingExpiry := Some(now + OneHour);
    }

    /** `@PreUpdate onUpdate` at time `now`. */
    method OnUpdate(now: int)
      modifies this`updatedAt
      ensures updatedAt == Some(now)
    {
      updatedAt := Some(now);
    }

    /** The owner and the status are present and the hooks have stamped the times. */
    predicate Storable()
      reads this
    {
      userId.Some? && status.Some? && createdAt.Some? && updatedAt.Some?
    }

    /** The row stored for this entity under `id`. */
    function Row(id: int): AlertRow
      requires Storable()
      reads this
    {
      AlertRow(id, userId.value, rideId, latitude, longitude, locationLink, trackingLink, trackingExpiry,
               alertType, status.value, message, resolvedAt, resolvedBy, createdAt.value, updatedAt.value)
    }
  }

  // ---- properties ---------------------------------------------------------

  /** There are exactly three alert types and three statuses, each with its own name. */
  lemma EnumerationsHaveThreeNames()
    ensures forall t: AlertType :: TypeName(t) in AlertTypeNames
    ensures forall t: AlertType, u: AlertType :: TypeName(t) == TypeName(u) ==> t == u
    ensures forall s: AlertStatus :: StatusName(s) in AlertStatusNames
    ensures forall s: AlertStatus, z: AlertStatus :: StatusName(s) == StatusName(z) ==> s == z
    ensures |AlertTypeNames| == 3 && |AlertStatusNames| == 3
  {
  }

  /** `valueOf` inverts the constant name. */
  lemma ParseTypeName(t: AlertType)
    ensures ParseAlertType(TypeName(t)) == Ok(t)
  {
  }
}
