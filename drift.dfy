/**
 * The Drift destination: identifications, events and page views are all
 * posted as they come, and the production client only reports transport
 * and read errors.
 */
module Drift {
  import opened Wrappers
  import opened Values
  import opened Integration

  const BaseUrl := "https://event.api.drift.com/"

  /** `orgID()`. */
  function OrgId(env: Env): string
  {
    Getenv(env, "DRIFT_ORG_ID")
  }

  function Enabled(env: Env): bool
  {
    OrgId(env) != ""
  }

  /** Drift is enabled exactly when its organisation id is configured. */
  lemma EnabledIffOrgId(env: Env)
    ensures Enabled(env) <==> Getenv(env, "DRIFT_ORG_ID") != ""
    ensures !Enabled(map[]) && Enabled(map["DRIFT_ORG_ID" := "1234"])
  {
  }

  datatype Payload =
    | Subscriber(attributes: Props, createdAt: int, userId: string, orgId: string)
    | DriftEvent(orgId: string, userId: string, event: string, createdAt: int, attributes: Props)
    | DriftPage(orgId: string, userId: string, event: string, url: string, createdAt: int, attributes: Props)

  datatype ApiRequest = ApiRequest(verb: string, endpoint: string, payload: Payload)

  type Service = ApiRequest -> CallResult

  /**
   * `Identify`: the traits, with both provenance keys added in the caller's
   * map, are posted to "identify" together with the user, the event's
   * timestamp as creation time and the organisation.
   */
  function Identify(api: Service, env: Env, e: Event): (a: Attempt<ApiRequest>)
    ensures a.request.Some? && a.result == api(a.request.value)
    ensures Updated(e.traits, a.props,
                    map[ReceivedAtKey := Num(e.receivedAt), TimestampKey := Num(e.timestamp)], {})
    ensures a.request.value == ApiRequest("POST", "identify",
              Subscriber(a.props, e.timestamp, e.userID, OrgId(env)))
  {
    var attributes := e.traits[ReceivedAtKey := Num(e.receivedAt)][TimestampKey := Num(e.timestamp)];
    var request := ApiRequest("POST", "identify", Subscriber(attributes, e.timestamp, e.userID, OrgId(env)));
    Attempt(api(request), attributes, Some(request))
  }

  /**
   * `Track`: the event is posted to "track" under its own name, with the
   * reception time added to its properties.
   */
  function Track(api: Service, env: Env, e: Event): (a: Attempt<ApiRequest>)
    ensures a.request.Some? && a.result == api(a.request.value)
    ensures Updated(e.traits, a.props, map[ReceivedAtKey := Num(e.receivedAt)], {})
    ensures a.request.value == ApiRequest("POST", "track",
              DriftEvent(OrgId(env), e.userID, e.name, e.timestamp, a.props))
  {
    var attributes := e.traits[ReceivedAtKey := Num(e.receivedAt)];
    var request := ApiRequest("POST", "track", DriftEvent(OrgId(env), e.userID, e.name, e.timestamp, attributes));
    Attempt(api(request), attributes, Some(request))
  }

  /**
   * `Page`: a page view is posted to "track" as an event named "page", with
   * its address and with the page's name carried in the properties.
   */
  function Page(api: Service, env: Env, e: Event): (a: Attempt<ApiRequest>)
    ensures a.request.Some? && a.result == api(a.request.value)
    ensures Updated(e.traits, a.props, map[ReceivedAtKey := Num(e.receivedAt), "name" := Str(e.name)], {})
    ensures a.request.value == ApiRequest("POST", "track",
              DriftPage(OrgId(env), e.userID, "page", e.url, e.timestamp, a.props))
  {
    var attributes := e.traits[ReceivedAtKey := Num(e.receivedAt)]["name" := Str(e.name)];
    var request := ApiRequest("POST", "track", DriftPage(OrgId(env), e.userID, "page", e.url, e.timestamp, attributes));
    Attempt(api(request), attributes, Some(request))
  }

  /** Drift never refuses an event itself: every operation's outcome is the
      service's, whatever the event holds. */
  lemma NeverRefuses(api: Service, env: Env, e: Event, kind: nat)
    requires kind < 3
    ensures var a := if kind == 0 then Identify(api, env, e)
                     else if kind == 1 then Track(api, env, e) else Page(api, env, e);
            a.request.Some? && a.result == api(a.request.value)
            && (forall k :: k in e.traits && k != ReceivedAtKey && k != TimestampKey && k != "name"
                  ==> k in a.props && a.props[k] == e.traits[k])
  {
  }

  // The production service.

  datatype HttpCall = HttpCall(verb: string, url: string, userAgent: string, contentType: string, payload: Payload)

  function Outgoing(request: ApiRequest): (call: HttpCall)
    ensures call.url == BaseUrl + request.endpoint
    ensures call.verb == request.verb && call.payload == request.payload
    ensures call.userAgent == "forwardlytics" && call.contentType == "application/json"
  {
    HttpCall(request.verb, BaseUrl + request.endpoint, "forwardlytics", "application/json", request.payload)
  }

  /**
   * The response classification as written: a transport error is an error,
   * a 200 is success, and a failure status is an error only when its body
   * cannot be read: the error the read returns is local to that branch, so
   * a readable failure response is logged and reported as success.
   */
  function Classify(answer: Exchange<string>): (r: CallResult)
    ensures !r.Abort?
    ensures r.Err? <==> answer.TransportFailed? || (answer.status != 200 && answer.body.ReadFailed?)
    ensures answer.Answered? && answer.status == 200 ==> r == Ok
    ensures answer.TransportFailed? ==> r == Err(answer.error)
    ensures (answer.Answered? && answer.status != 200 && answer.body.ReadFailed?) ==> r == Err(answer.body.error)
  {
    match answer
    case TransportFailed(error) => Err(error)
    case Answered(status, body) =>
      if status != 200 && body.ReadFailed? then Err(body.error) else Ok
  }

  /** A refused request whose body is readable counts as delivered. */
  lemma ReadableFailureIsSuccess(status: int, body: string)
    requires status != 200
    ensures Classify(Answered(status, Read(body))) == Ok
  {
  }

  /** The production `service`: send the request, classify the answer. */
  function Production(send: HttpCall -> Exchange<string>): (s: Service)
    ensures forall request :: var answer := send(Outgoing(request));
      && !s(request).Abort?
      && (s(request).Err? <==> answer.TransportFailed? || (answer.status != 200 && answer.body.ReadFailed?))
      && (answer.TransportFailed? ==> s(request) == Err(answer.error))
  {
    (request: ApiRequest) => Classify(send(Outgoing(request)))
  }

  /**
   * Every request the adapter makes reaches the production client as a
   * POST of JSON to the "identify" or "track" endpoint, announcing itself
   * as "forwardlytics".
   */
  lemma EveryRequestIsJson(api: Service, env: Env, e: Event, kind: nat)
    requires kind < 3
    ensures var a := if kind == 0 then Identify(api, env, e)
                     else if kind == 1 then Track(api, env, e) else Page(api, env, e);
            var call := Outgoing(a.request.value);
            && call.verb == "POST"
            && call.userAgent == "forwardlytics" && call.contentType == "application/json"
            && call.url == BaseUrl + (if kind == 0 then "identify" else "track")
  {
  }
}
