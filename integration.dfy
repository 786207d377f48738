/**
 * The event record the API receives, its validation, and what an
 * integration (a destination such as Drip or Mixpanel) offers to the
 * handlers.
 */
module Integration {
  import opened Wrappers
  import opened Values

  /**
   * One incoming call. The identify, track and page payloads share this
   * record: `traits` holds the user traits of an identification or the
   * properties of an event or page view, `name` the event or page name and
   * `url` the page address (empty where a payload has none).
   */
  datatype Event = Event(
    userID: string,
    name: string,
    url: string,
    traits: Props,
    timestamp: int,
    receivedAt: int)

  /** The names of the missing required fields, in a fixed order. */
  function Validate(e: Event): (missing: seq<string>)
    ensures "userID" in missing <==> e.userID == ""
    ensures "timestamp" in missing <==> e.timestamp == 0
    ensures forall p :: p in missing ==> p == "userID" || p == "timestamp"
    ensures |missing| <= 2
    ensures |missing| == 2 ==> missing == ["userID", "timestamp"]
    ensures missing == [] <==> e.userID != "" && e.timestamp != 0
  {
    (if e.userID == "" then ["userID"] else [])
      + (if e.timestamp == 0 then ["timestamp"] else [])
  }

  /**
   * How one call into an integration ends: no error, an error value, or a
   * crash (a failed type assertion, an index out of range or `logrus.Fatal`)
   * that never returns to the handler.
   */
  datatype CallResult = Ok | Err(error: string) | Abort(reason: string)

  /**
   * A call's result together with the caller's traits/properties map as the
   * call left it: Go maps are references, so the keys an integration writes
   * or deletes are seen by every later integration of the same request.
   */
  datatype Reply = Reply(result: CallResult, props: Props)

  /** What an adapter did: its result, the caller's map after it, and the
      request it sent to the destination, if it sent one. */
  datatype Attempt<R> = Attempt(result: CallResult, props: Props, request: Option<R>)
  {
    function ToReply(): Reply
    {
      Reply(result, props)
    }
  }

  /** One operation of an integration, given the environment it reads its
      configuration from. */
  type Capability = (Env, Event) -> Reply

  /** An integration: whether it is configured, and its three operations. */
  datatype Integration = Integration(
    enabled: Env -> bool,
    identify: Capability,
    track: Capability,
    page: Capability)

  /** The provenance keys every destination receives. */
  const ReceivedAtKey := "forwardlyticsReceivedAt"
  const TimestampKey := "forwardlyticsTimestamp"

  /** The panic of a failed `v.(string)` or `v.(float64)` type assertion. */
  const TypeAssertionPanic := "interface conversion: unexpected dynamic type"

  /** What the HTTP client returned for a request to a destination, with
      the body as far as the destination's client looks at it. */
  datatype Exchange<B> =
    | TransportFailed(error: string)
    | Answered(status: int, body: BodyRead<B>)

  /** Reading the response body, which can itself fail. */
  datatype BodyRead<B> = ReadFailed(error: string) | Read(content: B)
}
