/**
 * The records the core passes around: the raw OpenF1 session as decoded from
 * the API, the domain session the services return, and the errors they report.
 */
module Domain {
  import opened Wrappers

  /** An instant, in nanoseconds since the Unix epoch (Go's `time.Time`). */
  type Time = int

  /**
   * The live/upcoming/finished classification that `Session.State` computes.
   * Its definition is not part of this model: it is an opaque code, and
   * `Unclassified` is the zero value a freshly built record carries.
   */
  type SessionState = int

  const Unclassified: SessionState := 0

  /** `openf1.Session`: the API's record, with dates still as text. */
  datatype ApiSession = ApiSession(
    sessionKey: int,
    sessionName: string,
    dateStart: string,
    dateEnd: string,
    location: string,
    countryName: string,
    circuitName: string,
    meetingKey: int,
    year: int)

  /** `domain.Session`: dates parsed, plus the state derived at mapping time. */
  datatype Session = Session(
    sessionKey: int,
    sessionName: string,
    dateStart: Time,
    dateEnd: Time,
    location: string,
    countryName: string,
    circuitName: string,
    meetingKey: int,
    year: int,
    state: SessionState)

  /**
   * What the mapping step consults outside its argument: `utils.ParseDate`
   * (RFC 3339 parsing, a partial function), `Session.State` and the reading
   * of `time.Now()` taken by `mapToDomain`.
   */
  datatype Env = Env(
    parseDate: string -> Option<Time>,
    stateAt: (Session, Time) -> SessionState,
    now: Time)

  /** The errors the services hand back to their callers. */
  datatype Error =
    | RemoteFailure(cause: string)   // the OpenF1 client's error, passed through
    | BadDate(text: string)          // `time.Parse` rejected this date string
}
