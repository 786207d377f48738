/**
 * The Mixpanel destination: profile updates for identifications, events
 * for track calls (page views become events), and the production client.
 */
module Mixpanel {
  import opened Wrappers
  import opened Values
  import opened Integration

  const TooOld := "Mixpanel doesn't support importing events with a timestamp more than 5 years ago"

  const BaseUrl := "http://api.mixpanel.com/"

  /** `token()`. */
  function Token(env: Env): string
  {
    Getenv(env, "MIXPANEL_TOKEN")
  }

  function Enabled(env: Env): bool
  {
    Token(env) != ""
  }

  /** Mixpanel is enabled exactly when its token is configured. */
  lemma EnabledIffToken(env: Env)
    ensures Enabled(env) <==> Getenv(env, "MIXPANEL_TOKEN") != ""
    ensures !Enabled(map[]) && Enabled(map["MIXPANEL_TOKEN" := "123"])
  {
  }

  /** The two age thresholds, read from the clock as the call starts: five
      years ago and five days ago, in Unix seconds. */
  datatype Clock = Clock(fiveYearsAgo: int, fiveDaysAgo: int)

  /** A profile update: `$set`, `$distinct_id`, `$token`, `$name`, `$email`. */
  datatype Profile = Profile(setProps: Props, distinctId: string, token: string, name: string, email: string)

  datatype MixpanelEvent = MixpanelEvent(event: string, properties: Props)

  datatype Payload = Engage(profile: Profile) | Tracked(tracked: MixpanelEvent)

  /** A call of the adapter's `service`: method, endpoint and payload. */
  datatype ApiRequest = ApiRequest(verb: string, endpoint: string, payload: Payload)

  type Service = ApiRequest -> CallResult

  /**
   * Takes trait `key` out of the map when present: its string value is
   * returned and the key deleted; a present key whose value is not a string
   * (JSON null included) panics, with the map as it then stood.
   */
  function Take(p: Props, key: string): (r: (Option<string>, Props, bool))
    ensures key !in p ==> r == (None, p, true)
    ensures key in p && p[key].Str? ==> r == (Some(p[key].s), p - {key}, true)
    ensures key in p && !p[key].Str? ==> r == (None, p, false)
  {
    if key !in p then (None, p, true)
    else if p[key].Str? then (Some(p[key].s), p - {key}, true)
    else (None, p, false)
  }

  function OrEmpty(s: Option<string>): string
  {
    if s.Some? then s.value else ""
  }

  /**
   * `Identify`: "email" and "name" move out of the caller's traits into the
   * profile's own fields, both provenance keys are added, and the rest of
   * the traits become `$set`.
   */
  function Identify(api: Service, env: Env, e: Event): (a: Attempt<ApiRequest>)
    ensures a.request.Some? <==>
      ("email" !in e.traits || e.traits["email"].Str?) && ("name" !in e.traits || e.traits["name"].Str?)
    ensures a.request.None? ==> a.result == Abort(TypeAssertionPanic)
    ensures a.request.Some? ==>
      && Updated(e.traits, a.props,
                 map[ReceivedAtKey := Num(e.receivedAt), TimestampKey := Num(e.timestamp)], {"email", "name"})
      && a.request.value.verb == "GET" && a.request.value.endpoint == "engage"
      && a.request.value.payload == Engage(Profile(a.props, e.userID, Token(env),
           if "name" in e.traits then e.traits["name"].s else "",
           if "email" in e.traits then e.traits["email"].s else ""))
      && a.result == api(a.request.value)
  {
    var (email, afterEmail, emailOk) := Take(e.traits, "email");
    if !emailOk then Attempt(Abort(TypeAssertionPanic), afterEmail, None)
    else
      var (name, afterName, nameOk) := Take(afterEmail, "name");
      if !nameOk then Attempt(Abort(TypeAssertionPanic), afterName, None)
      else
        var setProps := afterName[ReceivedAtKey := Num(e.receivedAt)][TimestampKey := Num(e.timestamp)];
        var request := ApiRequest("GET", "engage",
          Engage(Profile(setProps, e.userID, Token(env), OrEmpty(name), OrEmpty(email))));
        Attempt(api(request), setProps, Some(request))
  }

  /** A panic on "name" comes after "email" already left the caller's map. */
  lemma NamePanicAfterEmailMoved(api: Service, env: Env, e: Event)
    requires "email" in e.traits && e.traits["email"].Str?
    requires "name" in e.traits && !e.traits["name"].Str?
    ensures Identify(api, env, e).result.Abort?
    ensures Identify(api, env, e).props == e.traits - {"email"}
  {
  }

  /**
   * `Track`: an event older than five years is refused before anything is
   * written or sent. Otherwise the caller's properties gain the reception
   * time, `time`, `token` and `distinct_id` and lose "email", and the event
   * goes to "track" when it is newer than five days and to "import"
   * otherwise, always with GET.
   */
  function Track(api: Service, env: Env, clock: Clock, e: Event): (a: Attempt<ApiRequest>)
    ensures e.timestamp < clock.fiveYearsAgo ==> a == Attempt(Err(TooOld), e.traits, None)
    ensures e.timestamp >= clock.fiveYearsAgo ==>
      && a.request.Some?
      && Updated(e.traits, a.props,
                 map[ReceivedAtKey := Num(e.receivedAt), "time" := Num(e.timestamp),
                     "token" := Str(Token(env)), "distinct_id" := Str(e.userID)], {"email"})
      && "email" !in a.props
      && a.request.value.verb == "GET"
      && (a.request.value.endpoint == "track" <==> e.timestamp > clock.fiveDaysAgo)
      && (a.request.value.endpoint == "import" <==> e.timestamp <= clock.fiveDaysAgo)
      && a.request.value.payload == Tracked(MixpanelEvent(e.name, a.props))
      && a.result == api(a.request.value)
  {
    if e.timestamp < clock.fiveYearsAgo then Attempt(Err(TooOld), e.traits, None)
    else
      var properties := (e.traits[ReceivedAtKey := Num(e.receivedAt)]["time" := Num(e.timestamp)]
        ["token" := Str(Token(env))]["distinct_id" := Str(e.userID)]) - {"email"};
      var endpoint := if e.timestamp > clock.fiveDaysAgo then "track" else "import";
      var request := ApiRequest("GET", endpoint, Tracked(MixpanelEvent(e.name, properties)));
      Attempt(api(request), properties, Some(request))
  }

  /** The event `Page` hands to `Track`: the page's name, user and times,
      and its properties with the address and `event` = "page" added. */
  function PageEvent(e: Event): (p: Event)
    ensures p.name == e.name && p.userID == e.userID && p.url == ""
    ensures p.timestamp == e.timestamp && p.receivedAt == e.receivedAt
    ensures Updated(e.traits, p.traits, map["url" := Str(e.url), "event" := Str("page")], {})
  {
    Event(e.userID, e.name, "", e.traits["url" := Str(e.url)]["event" := Str("page")], e.timestamp, e.receivedAt)
  }

  /**
   * `Page`: `Track` of the page's event. A page view is tracked as an event
   * named after the page; even when it is refused for its age, the address
   * and `event` were already written into the caller's map.
   */
  function Page(api: Service, env: Env, clock: Clock, e: Event): (a: Attempt<ApiRequest>)
    ensures e.timestamp < clock.fiveYearsAgo ==>
      && a.result == Err(TooOld) && a.request.None?
      && Updated(e.traits, a.props, map["url" := Str(e.url), "event" := Str("page")], {})
    ensures e.timestamp >= clock.fiveYearsAgo ==>
      && a.request.Some? && a.request.value.payload.Tracked? && a.request.value.payload.tracked.event == e.name
      && "url" in a.props && a.props["url"] == Str(e.url)
      && "event" in a.props && a.props["event"] == Str("page")
      && "email" !in a.props
      && a.result == api(a.request.value)
  {
    Track(api, env, clock, PageEvent(e))
  }

  // The production service.

  /** The query string: `data` (the encoded payload) and, for imports only,
      `api_key`. */
  datatype Query = Query(data: Payload, apiKey: Option<string>)

  datatype HttpCall = HttpCall(verb: string, url: string, query: Query)

  function Outgoing(env: Env, request: ApiRequest): (call: HttpCall)
    ensures call.url == BaseUrl + request.endpoint
    ensures call.query.apiKey.Some? <==> request.endpoint == "import"
    ensures call.query.apiKey.Some? ==> call.query.apiKey.value == Token(env)
    ensures call.verb == request.verb && call.query.data == request.payload
  {
    HttpCall(request.verb, BaseUrl + request.endpoint,
             Query(request.payload, if request.endpoint == "import" then Some(Token(env)) else None))
  }

  /**
   * The response classification: only a transport or read error is an
   * error; a failure status, or a 200 whose body is "0", is only logged.
   */
  function Classify(answer: Exchange<string>): (r: CallResult)
    ensures r.Ok? <==> answer.Answered? && answer.body.Read?
    ensures !r.Abort?
    ensures answer.TransportFailed? ==> r == Err(answer.error)
    ensures answer.Answered? && answer.body.ReadFailed? ==> r == Err(answer.body.error)
    ensures answer.Answered? && answer.body == Read("0") ==> r == Ok
  {
    match answer
    case TransportFailed(error) => Err(error)
    case Answered(_, body) =>
      match body
      case ReadFailed(error) => Err(error)
      case Read(_) => Ok
  }

  /** The production `service`: send the request, classify the answer. */
  function Production(env: Env, send: HttpCall -> Exchange<string>): (s: Service)
    ensures forall request :: var answer := send(Outgoing(env, request));
      && (s(request).Ok? <==> answer.Answered? && answer.body.Read?)
      && !s(request).Abort?
      && (answer.TransportFailed? ==> s(request) == Err(answer.error))
  {
    (request: ApiRequest) => Classify(send(Outgoing(env, request)))
  }

  /**
   * A tracked event goes to the production client with the `api_key`
   * exactly when `Track` chose the import endpoint, that is when the event
   * is at least five days old; the key is the project token.
   */
  lemma ImportCarriesApiKey(api: Service, env: Env, clock: Clock, e: Event)
    requires e.timestamp >= clock.fiveYearsAgo
    ensures var call := Outgoing(env, Track(api, env, clock, e).request.value);
      && call.url == BaseUrl + (if e.timestamp <= clock.fiveDaysAgo then "import" else "track")
      && (call.query.apiKey.Some? <==> e.timestamp <= clock.fiveDaysAgo)
      && (call.query.apiKey.Some? ==> call.query.apiKey.value == Token(env))
  {
    var request := Track(api, env, clock, e).request.value;
    assert request.endpoint == "import" <==> e.timestamp <= clock.fiveDaysAgo;
  }
}
