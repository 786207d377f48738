# Forwardlytics in Dafny

Forwardlytics is a small HTTP service that receives analytics calls
(`/identify`, `/track` and `/page`) and forwards each one to every
configured destination: Drip, Mixpanel, Drift and Intercom. Destinations
register themselves by name in a process-wide registry. A handler checks
the request method, decodes and stamps the payload, and validates it. It
then walks the registry in ascending name order and calls each enabled
destination. The first error stops the walk and becomes a 500 reply.

This project models that core and proves properties of the model:

- `Registry` is a class over a name-to-integration map. Its registration
  panics on nil or duplicate names. Its listing loop is proved to return
  the sorted key set.
- `Dispatch` holds the fail-fast forwarding loop. `Run` specifies it as a
  recursive function, and the `Forward` method is proved against it. Lemmas
  show that:
  - only enabled destinations are called, in order;
  - nothing after the first failure is called;
  - a delivered request called every enabled destination.
- `Http`, `Handlers`, `Middleware` and `Forwardlytics` model the
  `ResponseWriter` as a class. Each handler is specified by a pure
  `Pipeline`, and each request outcome is proved: 404, 400 (invalid or
  missing parameters), 401, 500, or 200. The handler test scenarios are
  restated as lemmas.
- `Drip`, `Mixpanel`, `Drift` and `Intercom` each model what the adapter
  writes into the caller's map, what request it sends, and how its
  production client classifies the answer. Drip's registered client keeps
  the crash on a failure response without reported errors (see
  "Findings"); a corrected client is modelled beside it. The caller's traits/properties
  map is a Go reference, shared by every destination of one request.
  `Destinations` proves that this makes the dispatch order observable: in
  the reverse order, Mixpanel would delete the email Drip needs.

The identify, track and page payloads share one `Event` record. Time and
the environment are parameters: `now`, `Env`, and Mixpanel's `Clock`. HTTP
exchanges with destinations are functions passed in. Panics (failed type
assertions, index out of range, `logrus.Fatal`) are the `Abort` result.

Where the snapshot disagrees with itself, the model follows the code the
handlers and adapters use:

- `integrations/integration.go` declares an `Integration` with
  `Identify`/`Enabled` only, and string-valued traits.
- The handlers and adapters call `Track` and `Page`, and store arbitrary
  JSON values.
- The model uses the three-operation integration with JSON values.

## Model

| member | source | states |
|---|---|---|
| Integration.Validate | integrations/integration.go:28-36 | "userID" is reported iff the user id is empty, "timestamp" iff the timestamp is 0; nothing else, at most two, in that order; empty iff both present |
| Registry.Registry.constructor | integrations/registry.go:12 | the registry starts empty |
| Registry.Registry.Register | integrations/registry.go:17-27 | a nil integration panics with the nil message and a taken name with the duplicate message, both leaving the map unchanged; otherwise the name is added and nothing else changes |
| Registry.Registry.Get | integrations/registry.go:30-35 | the registered integration when the name is present, nil otherwise |
| Registry.Registry.List | integrations/registry.go:38-47 | the result is the registered names, each once, strictly ascending (equal to `SortedKeys` of the key set) |
| Registry.Registry.Remove | integrations/registry.go:50-57 | the name is deleted; the warning is logged iff the name lacks the `test-only-integration-` prefix |
| Sorting.SortStrings | integrations/registry.go:45 | the result is sorted and a permutation (same multiset) of the input |
| Sorting.SortedKeys | integrations/registry.go:37-47 | the ascending listing of a key set is strictly sorted and holds exactly the keys |
| Sorting.StrictlySortedUnique | integrations/registry.go:45 | two strictly sorted sequences with the same elements are equal, so the listing is unique |
| Sorting.DistinctPermutation | integrations/registry.go:42-45 | a permutation of a duplicate-free sequence is duplicate-free, so sorting the collected keys loses none |
| Strings.LessEqTotal | integrations/registry.go:45 | string order is total (with reflexivity, antisymmetry and transitivity lemmas beside it) |
| Strings.LessEqTransitive | integrations/registry.go:45 | string order is transitive |
| Strings.LessEqAntisymmetric | integrations/registry.go:45 | string order is antisymmetric |
| Strings.Contains | integrations/intercom/intercom.go:45 | true iff the substring occurs at some index |
| Dispatch.WithRetry | handlers/track.go:51-57 | with no retries the result is the single attempt's; a first attempt that is not an error is the result; an error result means the first attempt erred |
| Dispatch.RetryOfStableFailure | handlers/track.go:51-62 | a capability that always fails with one error still fails with it after every retry |
| Dispatch.EnabledNames | handlers/track.go:47-49 | exactly the listed names whose integration is enabled |
| Dispatch.Forward | handlers/track.go:47-65 | the loop's trace equals `Run` over the registry's sorted names |
| Dispatch.RunCallsAreEnabled | handlers/track.go:49 | every called integration is registered and enabled |
| Dispatch.RunFollowsEnabledNames | handlers/track.go:47-65 | the called names are a prefix of the enabled names in list order, and all of them when delivery succeeded |
| Dispatch.RunStopsAtFirstFailure | handlers/track.go:58-63 | every call but the last succeeded; delivered iff all calls succeeded; a failure or crash is the last call's own error |
| Dispatch.RunWithoutEnabledSucceeds | handlers/track.go:47-67 | with no enabled integration nothing is called, the map is untouched and the result is delivered |
| Dispatch.RunSharesEvent | handlers/track.go:52 | every call sees the same event except for the shared map, and its result is that integration's own answer |
| Dispatch.NothingAfterFailure | handlers/track.go:58-63 | when the integration at position j fails, no later one is called |
| Dispatch.EnabledNamesOrdered | handlers/track.go:47 | enabled names keep the listing's order |
| Http.AfterSetHeader | handlers/handlers.go:14 | the header is set, nothing else changes |
| Http.AfterWriteHeader | handlers/handlers.go:15 | the first status written wins |
| Http.AfterWrite | handlers/handlers.go:18 | the data is appended; a write before any status sends 200 |
| Http.AfterNotFound | handlers/track.go:21-24 | the 404 page: plain-text and nosniff headers, status 404 unless one was already sent, body "404 page not found\n" |
| Http.ResponseWriter.constructor | handlers/track_test.go:22 | a fresh writer: no header, no status, empty body |
| Http.ResponseWriter.SetHeader | handlers/handlers.go:14 | the writer's new state is `AfterSetHeader` of the old |
| Http.ResponseWriter.WriteHeader | handlers/handlers.go:15 | the writer's new state is `AfterWriteHeader` of the old |
| Http.ResponseWriter.Write | handlers/handlers.go:18 | the writer's new state is `AfterWrite` of the old |
| Http.NotFound | handlers/track.go:21-24 | the writer's new state is `AfterNotFound` of the old |
| Handlers.ParseMessageBody | handlers/handlers.go:17 | a parsed message re-renders to the same body |
| Handlers.MessageBodyRoundTrip | handlers/handlers.go:17-18 | every message parses back from the JSON body written for it |
| Handlers.AfterWriteResponse | handlers/handlers.go:13-20 | JSON content type set, status unless one was sent, message body appended |
| Handlers.WriteResponse | handlers/handlers.go:13-20 | the writer's new state is `AfterWriteResponse` of the old |
| Handlers.WriteResponseOnFreshWriter | handlers/handlers.go:13-20 | on a fresh writer the reply has exactly the given status, only the JSON content type, and a body that parses back to the message |
| Handlers.Handle | handlers/track.go:16-68 | the writer ends as the pipeline's outcome says |
| Handlers.Track | handlers/track.go:16-68 | the track handler's writer ends as the track pipeline says |
| Handlers.Page | handlers/page.go:16-68 | the page handler's writer ends as the page pipeline says |
| Handlers.Identify | handlers/identify.go:14-61 | the identify handler (no retries, `Validate`) ends as the identify pipeline says |
| Handlers.PipelineGates | handlers/track.go:21-44 | non-POST is a 404 and malformed JSON a 400 "Invalid request.", both calling nothing; missing parameters are a 400 with the joined list; calls happen only for valid POSTs |
| Handlers.PipelineStampsReceivedAt | handlers/track.go:18-35 | every integration sees the decoded event stamped with the reception time |
| Handlers.PipelineCallsEnabledInOrder | handlers/track.go:47-67 | the calls are a prefix of the enabled integrations in name order, and all of them on a 200 |
| Handlers.PipelineFirstFailureWins | handlers/track.go:58-67 | all calls but the last succeeded; a 200 means all succeeded; a 500 carries the last call's integration and error; no reply means the last call crashed |
| Handlers.PipelineWithoutEnabledSucceeds | handlers/track.go:67 | with nothing enabled a valid request gets the success reply and calls nothing |
| Handlers.PipelineCallResults | handlers/identify.go:49 | each call's result is the named integration's answer, retried for track and page, direct for identify |
| Handlers.MissingTwoMessage | handlers/identify.go:38-40 | the message for the missing user id and timestamp |
| Handlers.MissingThreeMessage | handlers/track_test.go:59 | the message listing name, userID, timestamp |
| Handlers.MissingFourMessage | handlers/page_test.go:59 | the message listing name, url, userID, timestamp |
| Handlers.EmptyIdentifyPayload | handlers/identify.go:36-41 | `{}` sent to identify is a 400 naming userID and timestamp |
| Handlers.EmptyTrackAndPagePayloads | handlers/track_test.go:57-77 | given the validators' lists, `{}` to track and page gets the 400 messages the tests expect |
| Handlers.FailingSortsFirst | handlers/track_test.go:95-101 | the failing test integration sorts before the working one |
| Handlers.FailingRun | handlers/track_test.go:79-112 | the walk stops at the failing integration, after one call |
| Handlers.FailingIntegrationStopsDispatch | handlers/track_test.go:79-112 | a failing and a working integration: 500 with the failing one's name and error, and the working one is never called |
| Handlers.CalledRun | handlers/track_test.go:130-134 | the single test integration is called once and succeeds |
| Handlers.CalledIntegrationSucceeds | handlers/track_test.go:114-147 | one enabled integration: a 200 success reply, one call, and that call sees the reception time |
| Middleware.ConstantTimeCompare | handlers/middleware.go:15 | 1 iff the two keys are equal, 0 iff they differ |
| Middleware.MismatchesZero | handlers/middleware.go:15 | no mismatching position iff equal-length strings are equal |
| Middleware.AuthorizedIffKeyMatches | handlers/middleware.go:13-15 | authorized iff the header equals the configured key; an unset key accepts a request without the header |
| Middleware.AuthMiddleware | handlers/middleware.go:9-21 | passes on iff authorized, leaving the writer untouched; otherwise the 401 reply is written |
| Middleware.Serve | handlers/middleware.go:9-21 | the wrapped handler's writer ends as the gated pipeline says |
| Middleware.GatedPassesOrRefuses | handlers/middleware.go:15-20 | a wrong key is a 401 that calls nothing; the right key gives exactly the wrapped handler's outcome and calls |
| Forwardlytics.IdentifyHandler | main.go:35-92 | the legacy handler's writer ends as its pipeline says |
| Forwardlytics.MethodCheckedBeforeKey | main.go:40-53 | a non-POST gets the 404 whatever its key, where the middleware would give a 401 for a wrong key |
| Forwardlytics.LegacyMatchesIdentify | main.go:46-91 | with the right key under `FORWARDLYTICS_API_KEY` the legacy endpoint is the identify handler; with a wrong one it is a 401 calling nothing |
| Drip.EnabledNeedsBothCredentials | integrations/drip/drip.go:123-125 | enabled iff both the token and the account id are set |
| Drip.CheckEmail | integrations/drip/drip.go:57-62 | a nil email is the "Email is required" error, a non-string one a panic, a string one passes |
| Drip.Identify | integrations/drip/drip.go:54-74 | a request is sent iff the email is a string; otherwise the email check's reply; the map gains both provenance keys and is the subscriber's custom fields |
| Drip.Track | integrations/drip/drip.go:77-94 | as for identify, with only the reception time added and an event named after the tracked event |
| Drip.Page | integrations/drip/drip.go:98-120 | a "Page visited" event with address and page name added; a request error is fatal |
| Drip.TrackReturnsErrorsPageAborts | integrations/drip/drip.go:92-117 | track returns the request error; page's only error is the missing email |
| Drip.RequestsGoToAccount | integrations/drip/drip.go:127-130 | identify posts to `https://api.getdrip.com/v2/<account>/subscribers`, track and page to `.../events`, each authenticated with the API token as basic-auth user |
| Drip.ErrorMessage | integrations/drip/drip.go:152-153 | the error text starts with "Drip API returned errors: ", then the first error's code in brackets, and ends with ")" |
| Drip.ClassifyAsWritten | integrations/drip/drip.go:138-161 | success iff 200 or 204; a transport or read error is returned as such; a crash (index out of range) iff a failure status comes with an empty error list; otherwise the first error's message |
| Drip.EmptyErrorListCrashes | integrations/drip/drip.go:150-152 | a failure status with no reported error crashes with index out of range |
| Drip.Classify | integrations/drip/drip.go:138-161 | success iff 200 or 204; never a crash; a transport or read error is returned as such; a readable failure reports the first error or an empty one |
| Drip.Production | integrations/drip/drip.go:127-162 | the registered client: success iff 200 or 204, a crash iff a failure comes with an empty error list, a transport error returned as such |
| Drip.ProductionAsIntended | integrations/drip/drip.go:127-162 | the corrected client: the same success and transport-error cases, and never a crash |
| Drip.ClassifyAgreesExceptOnCrash | integrations/drip/drip.go:142-159 | the corrected classification agrees wherever the written one does not crash |
| Mixpanel.EnabledIffToken | integrations/mixpanel/mixpanel.go:126-128 | enabled iff `MIXPANEL_TOKEN` is set |
| Mixpanel.Identify | integrations/mixpanel/mixpanel.go:43-66 | sent iff email and name are absent or strings; email and name leave the map, both provenance keys enter it, and the map is the profile's `$set`; a GET to "engage" |
| Mixpanel.NamePanicAfterEmailMoved | integrations/mixpanel/mixpanel.go:48-55 | a bad name panics after the email has already left the caller's map |
| Mixpanel.Track | integrations/mixpanel/mixpanel.go:69-107 | older than five years is the "5 years" error with nothing written or sent; otherwise four keys are added and the email removed, and the endpoint is "track" iff newer than five days, else "import" |
| Mixpanel.PageEvent | integrations/mixpanel/mixpanel.go:113-120 | the page becomes an event with its name, user and times, and url and event=page added to the map |
| Mixpanel.Page | integrations/mixpanel/mixpanel.go:110-123 | a page view is tracked under its name with url and event=page in the map, and the result is the service's; when refused for age, url and event were still written |
| Mixpanel.ImportCarriesApiKey | integrations/mixpanel/mixpanel.go:131-144 | a tracked event goes to `http://api.mixpanel.com/import` with `api_key` (the token) iff it is at least five days old, and to `.../track` without it otherwise |
| Mixpanel.Classify | integrations/mixpanel/mixpanel.go:147-175 | success iff a response was received and read; a transport or read error is returned as such; a failure status or a "0" body is only logged |
| Mixpanel.Production | integrations/mixpanel/mixpanel.go:130-176 | the registered client: success iff a response was received and read, never a crash, a transport error returned as such |
| Drift.EnabledIffOrgId | integrations/drift/drift.go:113-115 | enabled iff `DRIFT_ORG_ID` is set |
| Drift.Identify | integrations/drift/drift.go:52-68 | always sent; both provenance keys added; a POST to "identify" with the timestamp as creation time |
| Drift.Track | integrations/drift/drift.go:71-88 | always sent; the reception time added; a POST to "track" named after the event |
| Drift.Page | integrations/drift/drift.go:91-110 | always sent; reception time and page name added; a POST to "track" named "page" with the address |
| Drift.NeverRefuses | integrations/drift/drift.go:52-110 | every operation's result is the service's, and other keys keep their values |
| Drift.EveryRequestIsJson | integrations/drift/drift.go:117-121 | every operation's request is a POST to `https://event.api.drift.com/identify` or `.../track` with user agent "forwardlytics" and content type "application/json" |
| Drift.Classify | integrations/drift/drift.go:123-157 | an error iff the transport failed or a non-200 body could not be read, and that error is the one returned; 200 is success |
| Drift.Production | integrations/drift/drift.go:117-158 | the registered client: an error iff the transport failed or a failure body could not be read, never a crash |
| Drift.ReadableFailureIsSuccess | integrations/drift/drift.go:136-157 | a readable failure response is reported as success |
| Intercom.EnabledNeedsBoth | integrations/intercom/intercom.go:80-90 | enabled iff both the API key and the app id are set |
| Intercom.Merge | integrations/intercom/intercom.go:54-68 | custom attributes are the traits; non-nil email and name replace the stored ones; a non-nil createdAt sets creation and sign-up times; a wrong type panics |
| Intercom.Identify | integrations/intercom/intercom.go:42-77 | a lookup error not mentioning "not_found" is returned unsaved; otherwise the merged user is saved and the save's result returned; the traits are untouched |
| Intercom.UnknownUserIsCreated | integrations/intercom/intercom.go:45-47 | an unknown user is created with the event's id and traits, no email or name, and zero creation and sign-up times |
| Intercom.StoredUserIsUpdated | integrations/intercom/intercom.go:43-70 | a stored user keeps its id and, without an email trait, its email |
| Destinations.DripIntegration | integrations/drip/drip.go:176-180 | registered Drip is enabled iff both credentials are set; a nil email is the "Email is required" error on all three operations; page's only error is that one |
| Destinations.MixpanelIntegration | integrations/mixpanel/mixpanel.go:182-186 | registered Mixpanel is enabled iff the token is set; an event older than five years is refused unchanged; track and page never crash |
| Destinations.DriftIntegration | integrations/drift/drift.go:164-168 | registered Drift is enabled iff the org id is set; no operation crashes |
| Destinations.RegisteredDripCrashesOnEmptyErrors | integrations/drip/drip.go:150-153 | registered Drip crashes identify and track on a failure status without reported errors; the corrected client reports an error instead |
| Destinations.DripCalledBeforeMixpanel | integrations/registry.go:45 | whatever else is registered, "drip" is listed before "mixpanel" in the ascending names the handlers walk |
| Destinations.MixpanelTrackHidesEmailFromDrip | integrations/mixpanel/mixpanel.go:83 | after Mixpanel tracks an event, Drip on the same map fails for lack of email; called first, Drip sends it |
| Destinations.MixpanelIdentifyHidesEmailFromDrip | integrations/mixpanel/mixpanel.go:48-51 | after Mixpanel identifies, Drip on the same map fails for lack of email |

## Left out

- Sending HTTP requests and encoding JSON and base64. The destinations' HTTP exchange is a function parameter. Payloads stay typed values. Drip's date string is left as its Unix timestamp.
- JSON decoding of the request body. The body is either malformed or a decoded `Event`. A missing traits object decodes to an empty map here. Go decodes it to a nil map, and the first write into that map panics.
- JSON numbers are integers. Intercom's `float64` assertion and `int64` conversion become a number check.
- The retry library's backoff and timing, and how many retries it grants. `retries` is a parameter of the track and page handlers. The bound that `ErrNotReady` carries (handlers.go:11) reaches the loop only through `resourceNotReady`, which is not part of this model.
- The registry mutex. The model is sequential.
- The clock. `now` and Mixpanel's `Clock` are parameters.
- The environment is one map read at call time. Drip's and Intercom's clients read theirs when the package is initialised. That difference is not modelled.
- Logging, the Bugsnag error tracker, the keen stub, and `main()`'s start-up.
- Header canonicalisation. Headers a handler sets after writing the status are recorded, though Go would not send them.
- The track and page payload validators and the `Page` and `Identification` types are not part of this model. They are a handler parameter, and the scenario lemmas assume the lists the tests expect.
- Intercom's Track and its event service are not part of this model. The Intercom adapter is therefore not wired into `Destinations`.
- The `logrus.Fatal` paths after a failed `json.Marshal` cannot be reached with these payloads.
- Drip's Track error log.
- Dispatch.RunFollowsEnabledNames: states only that a delivered request called every enabled integration. A failed request can also have called all of them, when the last enabled one fails.

## Findings

| source | as written | input that shows it | evidently intended | confidence | as-written member | corrected member |
|---|---|---|---|---|---|---|
| integrations/drip/drip.go:152 | a failure status reads `apiResult.Errors[0]` without checking the list | a 500 whose body has no `errors` array (an HTML error page) | report the failure as an error | high, not executed | Drip.EmptyErrorListCrashes | Drip.ProductionAsIntended |
