/** The backend client's response classification. Every call yields exactly one outcome:
    success with a payload, license expired (with whatever license payload the error body
    held), device deregistered, or a generic failure. Transport exceptions are generic
    failures. */
module Repository {
  import opened Wrappers
  import opened Models
  import Text

  /** What the transport delivered: an exception (with its message, possibly null), or a
      response with a status code, a status message, the parsed success body (absent when the
      body was empty) and the parsed error body (absent when missing or not parseable). */
  datatype HttpReply<T> =
    | Threw(message: Option<string>)
    | Reply(code: int, statusMessage: string, body: Option<T>, errorBody: Option<T>)

  /** The three exception classes of the repository and the generic `Exception`. */
  datatype ApiError =
    | RegisterLicenseExpired(message: string, response: Option<RegisterResponse>)
    | TimelineLicenseExpired(message: string, timeline: Option<TimelineResponse>)
    | DeviceDeregistered(message: string)
    | Failed(reason: Option<string>)
  {
    /** `error.message` */
    function Message(): Option<string> {
      match this
      case RegisterLicenseExpired(m, _) => Some(m)
      case TimelineLicenseExpired(m, _) => Some(m)
      case DeviceDeregistered(m) => Some(m)
      case Failed(m) => m
    }
  }

  /** Kotlin's `Result<T>`. */
  datatype Result<T> = Success(value: T) | Failure(error: ApiError)

  /** Retrofit's `isSuccessful`. */
  predicate IsSuccessful(code: int) {
    200 <= code < 300
  }

  const EmptyBody: string := "Empty response body"
  const DeregisteredMessage: string := "Device has been deregistered"

  function StatusError(code: int, statusMessage: string): string {
    "Error: " + Text.IntToString(code) + " " + statusMessage
  }

  /** A 2xx answer: its body, or the "empty body" failure. */
  function SuccessBody<T>(body: Option<T>): Result<T> {
    match body
    case Some(b) => Success(b)
    case None => Failure(Failed(Some(EmptyBody)))
  }

  /** The outcome shared by every call: success exactly for a 2xx answer with a body. */
  ghost predicate CommonOutcome<T>(reply: HttpReply<T>, r: Result<T>) {
    && (reply.Threw? ==> r == Failure(Failed(reply.message)))
    && (r.Success? <==> reply.Reply? && IsSuccessful(reply.code) && reply.body.Some?)
    && (r.Success? ==> r.value == reply.body.value)
    && (reply.Reply? && IsSuccessful(reply.code) && reply.body.None? ==> r == Failure(Failed(Some(EmptyBody))))
  }

  function InitRegistration(reply: HttpReply<InitRegistrationResponse>): (r: Result<InitRegistrationResponse>)
    ensures CommonOutcome(reply, r)
    ensures r.Failure? ==> r.error.Failed?
    ensures reply.Reply? && !IsSuccessful(reply.code) ==> r == Failure(Failed(Some(StatusError(reply.code, reply.statusMessage))))
  {
    match reply
    case Threw(m) => Failure(Failed(m))
    case Reply(code, msg, body, _) =>
      if IsSuccessful(code) then SuccessBody(body)
      else Failure(Failed(Some(StatusError(code, msg))))
  }

  function RegisterDevice(reply: HttpReply<RegisterResponse>): (r: Result<RegisterResponse>)
    ensures CommonOutcome(reply, r)
    // 403 is the only license-expired answer; it carries the parsed error body if any.
    ensures (r.Failure? && r.error.RegisterLicenseExpired?) <==> reply.Reply? && reply.code == 403
    ensures reply.Reply? && reply.code == 403 ==> r.error == RegisterLicenseExpired(reply.statusMessage, reply.errorBody)
    // No other status is special: a 410 here is a generic failure.
    ensures r.Failure? ==> !r.error.DeviceDeregistered? && !r.error.TimelineLicenseExpired?
    ensures reply.Reply? && !IsSuccessful(reply.code) && reply.code != 403
            ==> r == Failure(Failed(Some(StatusError(reply.code, reply.statusMessage))))
  {
    match reply
    case Threw(m) => Failure(Failed(m))
    case Reply(code, msg, body, errorBody) =>
      if IsSuccessful(code) then SuccessBody(body)
      else if code == 403 then Failure(RegisterLicenseExpired(msg, errorBody))
      else Failure(Failed(Some(StatusError(code, msg))))
  }

  function GetPlaylistTimeline(reply: HttpReply<TimelineResponse>): (r: Result<TimelineResponse>)
    ensures CommonOutcome(reply, r)
    ensures (r.Failure? && r.error.TimelineLicenseExpired?) <==> reply.Reply? && reply.code == 403
    ensures reply.Reply? && reply.code == 403 ==> r.error == TimelineLicenseExpired(reply.statusMessage, reply.errorBody)
    ensures (r.Failure? && r.error.DeviceDeregistered?) <==> reply.Reply? && reply.code == 410
    ensures reply.Reply? && reply.code == 410 ==> r.error == DeviceDeregistered(DeregisteredMessage)
    ensures r.Failure? ==> !r.error.RegisterLicenseExpired?
    ensures reply.Reply? && !IsSuccessful(reply.code) && reply.code != 403 && reply.code != 410
            ==> r == Failure(Failed(Some(StatusError(reply.code, reply.statusMessage))))
  {
    match reply
    case Threw(m) => Failure(Failed(m))
    case Reply(code, msg, body, errorBody) =>
      if IsSuccessful(code) then SuccessBody(body)
      else if code == 403 then Failure(TimelineLicenseExpired(msg, errorBody))
      else if code == 410 then Failure(DeviceDeregistered(DeregisteredMessage))
      else Failure(Failed(Some(StatusError(code, msg))))
  }

  /** Deregistration: `true` exactly for a 2xx answer (its body is ignored); every exception is
      turned into a generic failure rather than propagated. */
  function DeregisterDevice(reply: HttpReply<()>): (r: Result<bool>)
    ensures r.Success? <==> reply.Reply? && IsSuccessful(reply.code)
    ensures r.Success? ==> r.value
    ensures r.Failure? ==> r.error.Failed?
    ensures reply.Threw? ==> r == Failure(Failed(reply.message))
    ensures reply.Reply? && !IsSuccessful(reply.code) ==> r == Failure(Failed(Some("Error: " + Text.IntToString(reply.code))))
  {
    match reply
    case Threw(m) => Failure(Failed(m))
    case Reply(code, _, _, _) =>
      if IsSuccessful(code) then Success(true)
      else Failure(Failed(Some("Error: " + Text.IntToString(code))))
  }
}
