/**
 * The Drip destination: subscribers for identifications, events for track
 * calls and page views, and how the production client reads Drip's answer.
 */
module Drip {
  import opened Wrappers
  import opened Values
  import opened Integration

  const EmailRequired := "Email is required for doing a drip request"

  /** The reason `logrus.Fatal` gives when a page view's request fails. */
  const PageRequestFatal := "Error from the Drip API..."

  datatype Subscriber = Subscriber(customFields: Props, email: string, userId: string)

  /** A Drip event. `occurredAt` carries the timestamp the date string is
      formatted from. */
  datatype DripEvent = DripEvent(action: string, email: string, occurredAt: int, properties: Props)

  /** The JSON document sent: `{"subscribers": [...]}` or `{"events": [...]}`. */
  datatype Payload = Subscribers(subscribers: seq<Subscriber>) | Events(events: seq<DripEvent>)

  /** A call of the adapter's `service`: method, endpoint and payload. */
  datatype ApiRequest = ApiRequest(verb: string, endpoint: string, payload: Payload)

  /** The `service` the adapter sends through: its error, or none. */
  type Service = ApiRequest -> CallResult

  function Enabled(env: Env): bool
  {
    Getenv(env, "DRIP_API_TOKEN") != "" && Getenv(env, "DRIP_ACCOUNT_ID") != ""
  }

  /** `apiUrl()`: the account's API root. */
  function ApiUrl(env: Env): (url: string)
    ensures url == "https://api.getdrip.com/v2/" + Getenv(env, "DRIP_ACCOUNT_ID") + "/"
  {
    "https://api.getdrip.com/v2/" + Getenv(env, "DRIP_ACCOUNT_ID") + "/"
  }

  /** Credentials are both needed: each alone leaves Drip disabled. */
  lemma EnabledNeedsBothCredentials(env: Env)
    ensures Enabled(env) <==> Getenv(env, "DRIP_API_TOKEN") != "" && Getenv(env, "DRIP_ACCOUNT_ID") != ""
    ensures !Enabled(map[])
    ensures !Enabled(map["DRIP_API_TOKEN" := "123"])
    ensures !Enabled(map["DRIP_ACCOUNT_ID" := "123"])
    ensures Enabled(map["DRIP_API_TOKEN" := "123", "DRIP_ACCOUNT_ID" := "321"])
  {
  }

  /**
   * The checks every operation starts with: a nil "email" is refused with
   * an error before anything is written or sent, a non-string one panics.
   */
  function CheckEmail<R>(p: Props): (r: Option<Attempt<R>>)
    ensures r.None? <==> "email" in p && p["email"].Str?
    ensures IsNil(p, "email") ==> r == Some(Attempt(Err(EmailRequired), p, None))
    ensures r.Some? && !IsNil(p, "email") ==> r == Some(Attempt(Abort(TypeAssertionPanic), p, None))
  {
    if IsNil(p, "email") then Some(Attempt(Err(EmailRequired), p, None))
    else if !p["email"].Str? then Some(Attempt(Abort(TypeAssertionPanic), p, None))
    else None
  }

  /** `Identify`: one subscriber whose custom fields are the caller's traits
      map, with both provenance keys written into it. */
  function Identify(api: Service, e: Event): (a: Attempt<ApiRequest>)
    ensures a.request.Some? <==> "email" in e.traits && e.traits["email"].Str?
    ensures a.request.None? ==> a == CheckEmail(e.traits).value
    ensures a.request.Some? ==>
      && Updated(e.traits, a.props,
                 map[ReceivedAtKey := Num(e.receivedAt), TimestampKey := Num(e.timestamp)], {})
      && a.request.value == ApiRequest("POST", "subscribers",
           Subscribers([Subscriber(a.props, e.traits["email"].s, e.userID)]))
      && a.result == api(a.request.value)
  {
    var check := CheckEmail(e.traits);
    if check.Some? then check.value
    else
      var email := e.traits["email"].s;
      var fields := e.traits[ReceivedAtKey := Num(e.receivedAt)][TimestampKey := Num(e.timestamp)];
      var request := ApiRequest("POST", "subscribers", Subscribers([Subscriber(fields, email, e.userID)]));
      Attempt(api(request), fields, Some(request))
  }

  /** `Track`: one event named after the tracked event; only the reception
      time is added to the caller's properties. */
  function Track(api: Service, e: Event): (a: Attempt<ApiRequest>)
    ensures a.request.Some? <==> "email" in e.traits && e.traits["email"].Str?
    ensures a.request.None? ==> a == CheckEmail(e.traits).value
    ensures a.request.Some? ==>
      && Updated(e.traits, a.props, map[ReceivedAtKey := Num(e.receivedAt)], {})
      && a.request.value == ApiRequest("POST", "events",
           Events([DripEvent(e.name, e.traits["email"].s, e.timestamp, a.props)]))
      && a.result == api(a.request.value)
  {
    var check := CheckEmail(e.traits);
    if check.Some? then check.value
    else
      var email := e.traits["email"].s;
      var properties := e.traits[ReceivedAtKey := Num(e.receivedAt)];
      var request := ApiRequest("POST", "events", Events([DripEvent(e.name, email, e.timestamp, properties)]));
      Attempt(api(request), properties, Some(request))
  }

  /**
   * `Page`: a "Page visited" event carrying the page's address and name; a
   * request error is fatal to the process instead of being returned.
   */
  function Page(api: Service, e: Event): (a: Attempt<ApiRequest>)
    ensures a.request.Some? <==> "email" in e.traits && e.traits["email"].Str?
    ensures a.request.None? ==> a == CheckEmail(e.traits).value
    ensures a.request.Some? ==>
      && Updated(e.traits, a.props,
                 map[ReceivedAtKey := Num(e.receivedAt), "url" := Str(e.url), "pagename" := Str(e.name)], {})
      && a.request.value == ApiRequest("POST", "events",
           Events([DripEvent("Page visited", e.traits["email"].s, e.timestamp, a.props)]))
      && a.result == (if api(a.request.value).Err? then Abort(PageRequestFatal) else api(a.request.value))
  {
    var check := CheckEmail(e.traits);
    if check.Some? then check.value
    else
      var email := e.traits["email"].s;
      var properties := e.traits[ReceivedAtKey := Num(e.receivedAt)]["url" := Str(e.url)]["pagename" := Str(e.name)];
      var request := ApiRequest("POST", "events", Events([DripEvent("Page visited", email, e.timestamp, properties)]));
      var result := api(request);
      Attempt(if result.Err? then Abort(PageRequestFatal) else result, properties, Some(request))
  }

  /**
   * Track hands a request error back to the handler; Page never does: its
   * only error is the missing email, and a request error ends the process.
   */
  lemma TrackReturnsErrorsPageAborts(api: Service, e: Event)
    ensures var t := Track(api, e);
      t.request.Some? && api(t.request.value).Err? ==> t.result == api(t.request.value)
    ensures var p := Page(api, e);
      && (p.result.Err? ==> p.result == Err(EmailRequired) && p.request.None?)
      && (p.request.Some? && api(p.request.value).Err? ==> p.result == Abort(PageRequestFatal))
  {
  }

  // The production service.

  /** One error object of Drip's error response. */
  datatype ApiError = ApiError(code: string, attribute: string, message: string)

  /** The HTTP request the production service sends. */
  datatype HttpCall = HttpCall(verb: string, url: string, basicAuthUser: string,
                               userAgent: string, contentType: string, payload: Payload)

  function Outgoing(env: Env, request: ApiRequest): (call: HttpCall)
    ensures call.url == ApiUrl(env) + request.endpoint
    ensures call.basicAuthUser == Getenv(env, "DRIP_API_TOKEN")
    ensures call.verb == request.verb && call.payload == request.payload
  {
    HttpCall(request.verb, ApiUrl(env) + request.endpoint, Getenv(env, "DRIP_API_TOKEN"),
             "forwardlytics", "application/vnd.api+json", request.payload)
  }

  const ErrorsPrefix := "Drip API returned errors: "

  /** The error a failure response becomes: the fixed prefix, then the
      first error's code in brackets, its message and its attribute. */
  function ErrorMessage(error: ApiError): (m: string)
    ensures |m| > |ErrorsPrefix| + |error.code| + 1
    ensures m[..|ErrorsPrefix|] == ErrorsPrefix
    ensures m[|ErrorsPrefix|] == '[' && m[|ErrorsPrefix| + 1..|ErrorsPrefix| + 1 + |error.code|] == error.code
    ensures m[|m| - 1] == ')'
  {
    var details := "[" + error.code + "] " + error.message + " (on attribute: " + error.attribute + ")";
    assert details[1..1 + |error.code|] == error.code;
    ErrorsPrefix + details
  }

  /** The panic of indexing an empty error list. */
  const IndexOutOfRange := "runtime error: index out of range [0] with length 0"

  /**
   * The response classification as written: success for 200 and 204, the
   * transport or read error as such, and otherwise the first reported
   * error, which is indexed without checking that there is one.
   */
  function ClassifyAsWritten(answer: Exchange<seq<ApiError>>): (r: CallResult)
    ensures r.Ok? <==> answer.Answered? && (answer.status == 200 || answer.status == 204)
    ensures r.Abort? <==> answer.Answered? && answer.status != 200 && answer.status != 204
                          && answer.body == Read([])
    ensures r.Abort? ==> r == Abort(IndexOutOfRange)
    ensures answer.TransportFailed? ==> r == Err(answer.error)
    ensures (answer.Answered? && answer.status != 200 && answer.status != 204 && answer.body.ReadFailed?)
              ==> r == Err(answer.body.error)
    ensures (answer.Answered? && answer.status != 200 && answer.status != 204 && answer.body.Read?
             && answer.body.content != []) ==> r == Err(ErrorMessage(answer.body.content[0]))
  {
    match answer
    case TransportFailed(error) => Err(error)
    case Answered(status, body) =>
      if status == 200 || status == 204 then Ok
      else match body
        case ReadFailed(error) => Err(error)
        case Read(errors) => if |errors| == 0 then Abort(IndexOutOfRange) else Err(ErrorMessage(errors[0]))
  }

  /** A failure status with an empty error list (an HTML error page decodes
      to one) crashes the request. */
  lemma EmptyErrorListCrashes(status: int)
    requires status != 200 && status != 204
    ensures ClassifyAsWritten(Answered(status, Read([]))) == Abort(IndexOutOfRange)
  {
  }

  /** The zero-valued error object that stands in for a missing one. */
  const NoDetails := ApiError("", "", "")

  /**
   * The response classification as intended: a failure status always
   * becomes an error, using the first reported error when there is one.
   */
  function Classify(answer: Exchange<seq<ApiError>>): (r: CallResult)
    ensures r.Ok? <==> answer.Answered? && (answer.status == 200 || answer.status == 204)
    ensures !r.Abort?
    ensures answer.TransportFailed? ==> r == Err(answer.error)
    ensures (answer.Answered? && answer.status != 200 && answer.status != 204 && answer.body.ReadFailed?)
              ==> r == Err(answer.body.error)
    ensures answer.Answered? && answer.status != 200 && answer.status != 204 && answer.body.Read? ==>
      r == Err(ErrorMessage(if |answer.body.content| == 0 then NoDetails else answer.body.content[0]))
  {
    match answer
    case TransportFailed(error) => Err(error)
    case Answered(status, body) =>
      if status == 200 || status == 204 then Ok
      else match body
        case ReadFailed(error) => Err(error)
        case Read(errors) => Err(ErrorMessage(if |errors| == 0 then NoDetails else errors[0]))
  }

  /** The two classifications differ only where the written one crashes. */
  lemma ClassifyAgreesExceptOnCrash(answer: Exchange<seq<ApiError>>)
    ensures !ClassifyAsWritten(answer).Abort? ==> Classify(answer) == ClassifyAsWritten(answer)
  {
  }

  /**
   * The production `service` as written: send the request and classify
   * the answer, crashing on a failure response without reported errors.
   */
  function Production(env: Env, send: HttpCall -> Exchange<seq<ApiError>>): (s: Service)
    ensures forall request :: var answer := send(Outgoing(env, request));
      && (s(request).Ok? <==> answer.Answered? && (answer.status == 200 || answer.status == 204))
      && (s(request).Abort? <==> answer.Answered? && answer.status != 200 && answer.status != 204
                                 && answer.body == Read([]))
      && (answer.TransportFailed? ==> s(request) == Err(answer.error))
  {
    (request: ApiRequest) => ClassifyAsWritten(send(Outgoing(env, request)))
  }

  /** The production `service` with the corrected classification: it never
      crashes. */
  function ProductionAsIntended(env: Env, send: HttpCall -> Exchange<seq<ApiError>>): (s: Service)
    ensures forall request :: var answer := send(Outgoing(env, request));
      && (s(request).Ok? <==> answer.Answered? && (answer.status == 200 || answer.status == 204))
      && !s(request).Abort?
      && (answer.TransportFailed? ==> s(request) == Err(answer.error))
  {
    (request: ApiRequest) => Classify(send(Outgoing(env, request)))
  }

  /**
   * Where the registered client sends: subscribers to the account's
   * "subscribers" endpoint, events and page views to its "events"
   * endpoint, always as a POST authenticated with the API token.
   */
  lemma RequestsGoToAccount(api: Service, env: Env, e: Event)
    ensures var a := Identify(api, e); a.request.Some? ==>
      && Outgoing(env, a.request.value).url
           == "https://api.getdrip.com/v2/" + Getenv(env, "DRIP_ACCOUNT_ID") + "/subscribers"
      && Outgoing(env, a.request.value).basicAuthUser == Getenv(env, "DRIP_API_TOKEN")
      && Outgoing(env, a.request.value).verb == "POST"
    ensures var a := Track(api, e); a.request.Some? ==>
      && Outgoing(env, a.request.value).url
           == "https://api.getdrip.com/v2/" + Getenv(env, "DRIP_ACCOUNT_ID") + "/events"
      && Outgoing(env, a.request.value).basicAuthUser == Getenv(env, "DRIP_API_TOKEN")
      && Outgoing(env, a.request.value).verb == "POST"
    ensures var a := Page(api, e); a.request.Some? ==>
      && Outgoing(env, a.request.value).url
           == "https://api.getdrip.com/v2/" + Getenv(env, "DRIP_ACCOUNT_ID") + "/events"
      && Outgoing(env, a.request.value).basicAuthUser == Getenv(env, "DRIP_API_TOKEN")
      && Outgoing(env, a.request.value).verb == "POST"
  {
    var root := "https://api.getdrip.com/v2/" + Getenv(env, "DRIP_ACCOUNT_ID");
    assert ApiUrl(env) + "subscribers" == root + "/subscribers";
    assert ApiUrl(env) + "events" == root + "/events";
  }
}
