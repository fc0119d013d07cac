// The emergency SOS button: the location fallback, the request payload and its defaults, the
// notification summary shown on success, and the modal's button gating and reset.
module SOSButton {
  import opened Wrappers
  import opened JsStrings
  import ApiMethods
  import Seqs

  datatype Location = Location(latitude: real, longitude: real)

  /** The location used when none is cached and the lookup fails. */
  const DefaultLocation := Location(0.0, 0.0)

  /** The cached location, else the looked-up one, else the default. */
  function ChooseLocation(cached: Option<Location>, lookup: Option<Location>): Location
  {
    if cached.Some? then cached.value
    else if lookup.Some? then lookup.value
    else DefaultLocation
  }

  /** The body posted to `/emergency/sos`. */
  datatype SosRequest = SosRequest(rideId: Option<int>, latitude: real, longitude: real, message: string, alertType: string)

  function DefaultMessage(alertType: string): string
  {
    "Emergency " + alertType + " alert triggered"
  }

  /** The payload of `triggerSOS`; `rideId` is `ride?.id`, `message` the text typed in the modal. */
  function RequestOf(rideId: Option<int>, loc: Location, message: string, alertType: string): SosRequest
  {
    SosRequest(if rideId.Some? && rideId.value != 0 then rideId else None,
               loc.latitude, loc.longitude, OrElse(Some(message), DefaultMessage(alertType)), alertType)
  }

  const SummaryPrefix := "Emergency alert sent successfully! Notifications: "
  const LocationDefaultWarning := "Unable to get location. Using default."
  const LocationWarning := "Unable to get current location. Please enable location services."
  const SendFailure := "Failed to send SOS alert. Please try again or call emergency services directly."
  const RefusedFailure := "Failed to send emergency alert"

  /** The channels reported on success, in the fixed order Email, SMS, Voice Call. */
  function NotificationList(emailSent: bool, smsSent: bool, callInitiated: bool): seq<string>
  {
    (if emailSent then ["Email"] else []) + (if smsSent then ["SMS"] else []) + (if callInitiated then ["Voice Call"] else [])
  }

  function SummaryText(emailSent: bool, smsSent: bool, callInitiated: bool): string
  {
    SummaryPrefix + OrElse(Some(Join(NotificationList(emailSent, smsSent, callInitiated), ", ")), "Email")
  }

  /** The success toast, built as the component does: push each flagged channel, then join. */
  method BuildSummary(emailSent: bool, smsSent: bool, callInitiated: bool) returns (text: string)
    ensures text == SummaryText(emailSent, smsSent, callInitiated)
  {
    var notifications: seq<string> := [];
    if emailSent {
      notifications := notifications + ["Email"];
    }
    if smsSent {
      notifications := notifications + ["SMS"];
    }
    if callInitiated {
      notifications := notifications + ["Voice Call"];
    }
    assert notifications == NotificationList(emailSent, smsSent, callInitiated);
    var joined := Join(notifications, ", ");
    if joined == "" {
      joined := "Email";
    }
    text := SummaryPrefix + joined;
  }

  /** The reply of the SOS request. */
  datatype SosReply = SosReplied(status: Option<string>, trackingLink: Option<string>, emailSent: bool, smsSent: bool, callInitiated: bool)
                    | SosThrew(error: string)

  datatype Toast = SuccessToast(text: string) | ErrorToast(text: string)

  predicate Succeeded(reply: SosReply)
  {
    reply.SosReplied? && reply.status == Some("ALERT_TRIGGERED")
  }

  /** The toast that closes a trigger. */
  function ReplyToast(reply: SosReply): Toast
  {
    match reply
    case SosThrew(_) => ErrorToast(SendFailure)
    case SosReplied(status, _, e, s, c) =>
      if status == Some("ALERT_TRIGGERED") then SuccessToast(SummaryText(e, s, c))
      else ErrorToast(RefusedFailure)
  }

  /** The call as the component writes it: `apiService.post`, which the service does not define,
    * so the call throws before any request leaves. */
  function PostAsWritten(reply: SosReply): SosReply
  {
    if ApiMethods.Defines("post") then reply else SosThrew("apiService.post is not a function")
  }

  class Button {
    var showModal: bool
    var loading: bool
    var location: Option<Location>
    var message: string
    var alertType: string
    var sosTriggered: bool
    var trackingLink: Option<string>

    constructor ()
      ensures !showModal && !loading && location == None && message == "" && alertType == "SOS"
      ensures !sosTriggered && trackingLink == Some("")
      ensures SendDisabled()
    {
      showModal := false;
      loading := false;
      location := None;
      message := "";
      alertType := "SOS";
      sosTriggered := false;
      trackingLink := Some("");
    }

    /** Both send buttons are disabled while a request runs or before a location is known. */
    predicate SendDisabled()
      reads this
    {
      loading || location.None?
    }

    method Open()
      modifies this`showModal
      ensures showModal
    {
      showModal := true;
    }

    /** The lookup started when the modal opens: a found location is kept, a failure only warns. */
    method LocationArrived(lookup: Option<Location>) returns (toast: Option<Toast>)
      modifies this`location
      ensures lookup.Some? ==> location == lookup && toast == None
      ensures lookup.None? ==>
        location == old(location) && toast == Some(ErrorToast(LocationWarning))
      ensures lookup.Some? ==> (SendDisabled() <==> loading)
    {
      if lookup.Some? {
        location := lookup;
        toast := None;
      } else {
        toast := Some(ErrorToast(LocationWarning));
      }
    }

    method SetMessage(m: string)
      modifies this`message
      ensures message == m
    {
      message := m;
    }

    /** Closing the modal, from its corner button or the confirmation's close button. */
    method Close()
      modifies this`showModal, this`sosTriggered, this`message
      ensures !showModal && !sosTriggered && message == ""
    {
      showModal := false;
      sosTriggered := false;
      message := "";
    }

    /** The location step of `triggerSOS`: the cached location, else the lookup's result (which is
      * cached), else the default with a warning. */
    method ResolveLocation(lookup: Option<Location>) returns (current: Location, warnings: seq<Toast>)
      modifies this`location
      ensures current == ChooseLocation(old(location), lookup)
      ensures location == if old(location).Some? then old(location) else lookup
      ensures warnings == if old(location).None? && lookup.None? then [ErrorToast(LocationDefaultWarning)] else []
    {
      warnings := [];
      if location.Some? {
        current := location.value;
      } else if lookup.Some? {
        current := lookup.value;
        location := lookup;
      } else {
        warnings := [ErrorToast(LocationDefaultWarning)];
        current := DefaultLocation;
      }
    }

    /** The reply step of `triggerSOS`: a triggered alert opens the confirmation with its tracking
      * link; the toast names the notified channels or the failure. */
    method ApplyReply(reply: SosReply) returns (closing: Toast)
      modifies this`sosTriggered, this`trackingLink
      ensures closing == ReplyToast(reply)
      ensures Succeeded(reply) ==> sosTriggered && trackingLink == reply.trackingLink
      ensures !Succeeded(reply) ==> sosTriggered == old(sosTriggered) && trackingLink == old(trackingLink)
    {
      match reply {
      case SosThrew(_) =>
        closing := ErrorToast(SendFailure);
      case SosReplied(status, link, e, s, c) =>
        if status == Some("ALERT_TRIGGERED") {
          sosTriggered := true;
          trackingLink := link;
          var text := BuildSummary(e, s, c);
          closing := SuccessToast(text);
        } else {
          closing := ErrorToast(RefusedFailure);
        }
      }
    }

    /** `triggerSOS(alertType)`: `lookup` is the geolocation result, used only when no location is
      * cached; `reply` is the server's answer to the posted request. */
    method TriggerSOS(t: string, rideId: Option<int>, lookup: Option<Location>, reply: SosReply)
      returns (sent: SosRequest, toasts: seq<Toast>)
      modifies this`loading, this`alertType, this`location, this`sosTriggered, this`trackingLink
      ensures sent == RequestOf(rideId, ChooseLocation(old(location), lookup), message, t)
      ensures !loading && alertType == t
      ensures location == if old(location).Some? then old(location) else lookup
      ensures SendDisabled() <==> old(location).None? && lookup.None?
      ensures toasts == (if old(location).None? && lookup.None? then [ErrorToast(LocationDefaultWarning)] else [])
                        + [ReplyToast(reply)]
      ensures Succeeded(reply) ==> sosTriggered && trackingLink == reply.trackingLink
      ensures !Succeeded(reply) ==> sosTriggered == old(sosTriggered) && trackingLink == old(trackingLink)
    {
      loading := true;
      alertType := t;
      var current, warnings := ResolveLocation(lookup);
      sent := RequestOf(rideId, current, message, t);
      var closing := ApplyReply(reply);
      toasts := warnings + [closing];
      loading := false;
    }
  }

  // ---- properties -------------------------------------------------------

  /** With nothing cached and a failed lookup the request carries latitude = longitude = 0. */
  lemma LocationFallback(cached: Option<Location>, lookup: Option<Location>)
    ensures cached.Some? ==> ChooseLocation(cached, lookup) == cached.value
    ensures cached.None? && lookup.Some? ==> ChooseLocation(cached, lookup) == lookup.value
    ensures cached.None? && lookup.None? ==> ChooseLocation(cached, lookup).latitude == 0.0 && ChooseLocation(cached, lookup).longitude == 0.0
  {
  }

  /** Only an empty message takes the default text (a whitespace-only one is sent as typed), and
    * a missing or zero ride id is sent as null. */
  lemma PayloadDefaults(rideId: Option<int>, loc: Location, message: string, t: string)
    ensures message == "" ==> RequestOf(rideId, loc, message, t).message == "Emergency " + t + " alert triggered"
    ensures message != "" ==> RequestOf(rideId, loc, message, t).message == message
    ensures RequestOf(rideId, loc, message, t).rideId.Some? <==> rideId.Some? && rideId.value != 0
    ensures RequestOf(rideId, loc, message, t).rideId.Some? ==> RequestOf(rideId, loc, message, t).rideId == rideId
    ensures RequestOf(rideId, loc, message, t).alertType == t
  {
  }

  /** A trigger succeeds exactly when the server answers with status ALERT_TRIGGERED. */
  lemma SuccessIffAlertTriggered(reply: SosReply)
    ensures ReplyToast(reply).SuccessToast? <==> Succeeded(reply)
  {
  }

  /** The listed channels are exactly the flagged ones, in the order Email, SMS, Voice Call. */
  lemma NotificationOrder(e: bool, s: bool, c: bool)
    ensures Seqs.Subsequence(NotificationList(e, s, c), ["Email", "SMS", "Voice Call"])
    ensures ("Email" in NotificationList(e, s, c) <==> e) && ("SMS" in NotificationList(e, s, c) <==> s)
      && ("Voice Call" in NotificationList(e, s, c) <==> c)
    ensures |NotificationList(e, s, c)| == (if e then 1 else 0) + (if s then 1 else 0) + (if c then 1 else 0)
  {
    NotificationsInOrder(e, s, c);
    NotificationMembers(e, s, c);
  }

  lemma NotificationsInOrder(e: bool, s: bool, c: bool)
    ensures Seqs.Subsequence(NotificationList(e, s, c), ["Email", "SMS", "Voice Call"])
  {
    var call: seq<string> := if c then ["Voice Call"] else [];
    var sms: seq<string> := if s then ["SMS"] else [];
    var email: seq<string> := if e then ["Email"] else [];
    Seqs.SubsequenceOptionalHead(c, "Voice Call", [], []);
    assert call + [] == call && ["Voice Call"] + [] == ["Voice Call"];
    Seqs.SubsequenceOptionalHead(s, "SMS", call, ["Voice Call"]);
    Seqs.SubsequenceOptionalHead(e, "Email", sms + call, ["SMS", "Voice Call"]);
    assert NotificationList(e, s, c) == email + (sms + call);
    assert ["Email"] + ["SMS", "Voice Call"] == ["Email", "SMS", "Voice Call"];
    assert ["SMS"] + ["Voice Call"] == ["SMS", "Voice Call"];
  }

  lemma NotificationMembers(e: bool, s: bool, c: bool)
    ensures ("Email" in NotificationList(e, s, c) <==> e) && ("SMS" in NotificationList(e, s, c) <==> s)
      && ("Voice Call" in NotificationList(e, s, c) <==> c)
    ensures |NotificationList(e, s, c)| == (if e then 1 else 0) + (if s then 1 else 0) + (if c then 1 else 0)
  {
    assert "Email" != "SMS" && "Email" != "Voice Call" && "SMS" != "Voice Call";
  }

  lemma JoinTwo(a: string, b: string, sep: string)
    ensures Join([a, b], sep) == a + sep + b
  {
    assert [a, b][1..] == [b];
  }

  /** The summary falls back to "Email" only when no flag is set; otherwise it joins the channels. */
  lemma SummaryExamples()
    ensures SummaryText(false, false, false) == SummaryPrefix + "Email"
    ensures SummaryText(true, false, false) == SummaryText(false, false, false)
    ensures SummaryText(false, true, true) == SummaryPrefix + "SMS, Voice Call"
  {
    assert NotificationList(false, true, true) == ["SMS", "Voice Call"];
    JoinTwo("SMS", "Voice Call", ", ");
  }

  /** As the component is written the post is never made, so every trigger ends with the generic
    * failure toast, whatever the server would have answered. */
  lemma SosNeverSentAsWritten(reply: SosReply)
    ensures PostAsWritten(reply).SosThrew?
    ensures ReplyToast(PostAsWritten(reply)) == ErrorToast(SendFailure)
    ensures !Succeeded(PostAsWritten(reply))
  {
    ApiMethods.GenericVerbsUndefined();
  }
}
