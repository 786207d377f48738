/**
 * The identify, track and page handlers: method gate, decoding, stamping
 * the reception time, validation, the dispatch loop, and the JSON reply
 * template they all answer with.
 */
module Handlers {
  import opened Wrappers
  import opened Values
  import opened Strings
  import opened Sorting
  import opened Integration
  import opened Registry
  import opened Dispatch
  import opened Http

  // The reply template.

  const MessageOpen := "{\"message\": \""
  const MessageClose := "\"}"

  /** The reply body: the message is inserted verbatim, without escaping. */
  function MessageBody(message: string): string
  {
    MessageOpen + message + MessageClose
  }

  /** Reads a message back out of a reply body. */
  function ParseMessageBody(body: string): (message: Option<string>)
    ensures message.Some? ==> MessageBody(message.value) == body
  {
    if |body| >= |MessageOpen| + |MessageClose|
       && body[..|MessageOpen|] == MessageOpen
       && body[|body| - |MessageClose|..] == MessageClose
    then
      var m := body[|MessageOpen|..|body| - |MessageClose|];
      assert body == body[..|MessageOpen|] + m + body[|body| - |MessageClose|..];
      Some(m)
    else None
  }

  /** Every message survives the template unchanged. */
  lemma MessageBodyRoundTrip(message: string)
    ensures ParseMessageBody(MessageBody(message)) == Some(message)
  {
    var body := MessageBody(message);
    assert body[..|MessageOpen|] == MessageOpen;
    assert body[|body| - |MessageClose|..] == MessageClose;
    assert body[|MessageOpen|..|body| - |MessageClose|] == message;
  }

  /** `writeResponse` on a writer in state `s`. */
  function AfterWriteResponse(s: WriterState, message: string, status: int): (r: WriterState)
    ensures r.header == s.header["Content-Type" := "application/json"]
    ensures r.status == if s.wroteHeader then s.status else status
    ensures r.body == s.body + MessageBody(message)
  {
    AfterWrite(AfterWriteHeader(AfterSetHeader(s, "Content-Type", "application/json"), status), MessageBody(message))
  }

  /** `writeResponse(w, body, statusCode)`. */
  method WriteResponse(w: ResponseWriter, message: string, status: int)
    modifies w
    ensures w.State() == AfterWriteResponse(old(w.State()), message, status)
  {
    w.SetHeader("Content-Type", "application/json");
    w.WriteHeader(status);
    w.Write(MessageBody(message));
  }

  /** On a fresh writer the reply is exactly the status, one JSON content
      type header, and a body the message can be read back from. */
  lemma WriteResponseOnFreshWriter(message: string, status: int)
    ensures var r := AfterWriteResponse(Fresh, message, status);
      && r.status == status
      && r.header == map["Content-Type" := "application/json"]
      && ParseMessageBody(r.body) == Some(message)
  {
    MessageBodyRoundTrip(message);
    assert Fresh.body + MessageBody(message) == MessageBody(message);
  }

  // What a handler answers.

  /** A handler's reply: `http.NotFound`, a JSON message with a status, or
      nothing at all because an integration crashed the request. */
  datatype Outcome = NotFoundReply | Json(status: int, message: string) | NoResponse

  /** The writer after a handler replied with `o`. */
  function Emit(s: WriterState, o: Outcome): WriterState
  {
    match o
    case NotFoundReply => AfterNotFound(s)
    case Json(status, message) => AfterWriteResponse(s, message, status)
    case NoResponse => s
  }

  function MissingParametersMessage(missing: seq<string>): string
  {
    "Missing parameters: " + Join(missing, ", ") + "."
  }

  /** What the failure message calls the payload. */
  function Noun(kind: Kind): string
  {
    match kind
    case IdentifyKind => "identification"
    case TrackKind => "event"
    case PageKind => "page"
  }

  function SuccessMessage(kind: Kind): string
  {
    match kind
    case IdentifyKind => "Forwarding identify to integrations."
    case TrackKind => "Forwarding event to integrations."
    case PageKind => "Forwarding page to integrations."
  }

  function FailureMessage(kind: Kind, name: string, error: string): string
  {
    "Fatal error during " + Noun(kind) + " with an integration (" + name + "): " + error
  }

  /** The reply to a finished dispatch loop. */
  function Answer(kind: Kind, verdict: Verdict): Outcome
  {
    match verdict
    case Delivered => Json(200, SuccessMessage(kind))
    case Failed(name, error) => Json(500, FailureMessage(kind, name, error))
    case Crashed(_, _) => NoResponse
  }

  /** A handler's reply together with the integration calls it made. */
  datatype Handled = Handled(outcome: Outcome, calls: seq<Call>)

  /**
   * One request through a handler, given the registry's entries, the
   * environment, the clock reading taken at entry (`now`), the retry bound
   * and the payload's validation.
   */
  ghost function Pipeline(kind: Kind, r: Request, entries: map<string, Integration>, env: Env,
                          now: int, retries: nat, validate: Event -> seq<string>): Handled
  {
    if r.verb != "POST" then Handled(NotFoundReply, [])
    else if r.body.Malformed? then Handled(Json(400, "Invalid request."), [])
    else
      var e := r.body.event.(receivedAt := now);
      var missing := validate(e);
      if |missing| != 0 then Handled(Json(400, MissingParametersMessage(missing)), [])
      else
        var t := Run(SortedKeys(entries.Keys), entries, kind, env, e, retries);
        Handled(Answer(kind, t.verdict), t.calls)
  }

  /** The handler body shared by Identify, Track and Page. */
  method Handle(w: ResponseWriter, reg: Registry, kind: Kind, r: Request, env: Env,
                now: int, retries: nat, validate: Event -> seq<string>)
    modifies w
    ensures w.State() == Emit(old(w.State()), Pipeline(kind, r, reg.entries, env, now, retries, validate).outcome)
  {
    var receivedAt := now;
    if r.verb != "POST" {
      NotFound(w);
      return;
    }
    if r.body.Malformed? {
      WriteResponse(w, "Invalid request.", 400);
      return;
    }
    var event := r.body.event.(receivedAt := receivedAt);
    var missing := validate(event);
    if |missing| != 0 {
      WriteResponse(w, MissingParametersMessage(missing), 400);
      return;
    }
    var t := Forward(reg, kind, env, event, retries);
    match t.verdict {
      case Delivered =>
        WriteResponse(w, SuccessMessage(kind), 200);
      case Failed(name, error) =>
        WriteResponse(w, FailureMessage(kind, name, error), 500);
      case Crashed(_, _) =>
    }
  }

  /** `Track`: events go through the retry wrapper. The payload's own
      validation is a parameter. */
  method Track(w: ResponseWriter, reg: Registry, r: Request, env: Env, now: int, retries: nat,
               validate: Event -> seq<string>)
    modifies w
    ensures w.State() == Emit(old(w.State()), Pipeline(TrackKind, r, reg.entries, env, now, retries, validate).outcome)
  {
    Handle(w, reg, TrackKind, r, env, now, retries, validate);
  }

  /** `Page`: page views go through the retry wrapper. */
  method Page(w: ResponseWriter, reg: Registry, r: Request, env: Env, now: int, retries: nat,
              validate: Event -> seq<string>)
    modifies w
    ensures w.State() == Emit(old(w.State()), Pipeline(PageKind, r, reg.entries, env, now, retries, validate).outcome)
  {
    Handle(w, reg, PageKind, r, env, now, retries, validate);
  }

  /** `Identify`: the event's own `Validate`, and no retry. */
  method Identify(w: ResponseWriter, reg: Registry, r: Request, env: Env, now: int)
    modifies w
    ensures w.State() == Emit(old(w.State()), Pipeline(IdentifyKind, r, reg.entries, env, now, 0, Validate).outcome)
  {
    Handle(w, reg, IdentifyKind, r, env, now, 0, Validate);
  }

  // Properties of the pipeline.

  /**
   * The gates before dispatch: a non-POST gets the 404 page, an undecodable
   * body "Invalid request.", a payload with missing fields the list of their
   * names; none of them contacts an integration.
   */
  lemma PipelineGates(kind: Kind, r: Request, entries: map<string, Integration>, env: Env,
                      now: int, retries: nat, validate: Event -> seq<string>)
    ensures var h := Pipeline(kind, r, entries, env, now, retries, validate);
      && (r.verb != "POST" ==> h == Handled(NotFoundReply, []))
      && (r.verb == "POST" && r.body.Malformed? ==> h == Handled(Json(400, "Invalid request."), []))
      && (r.verb == "POST" && r.body.Decoded? && validate(r.body.event.(receivedAt := now)) != [] ==>
            h == Handled(Json(400, MissingParametersMessage(validate(r.body.event.(receivedAt := now)))), []))
      && (h.calls != [] ==>
            r.verb == "POST" && r.body.Decoded? && validate(r.body.event.(receivedAt := now)) == [])
  {
  }

  /**
   * Every integration is given the decoded event with `receivedAt` replaced
   * by the clock reading taken at entry, whatever the client sent.
   */
  lemma PipelineStampsReceivedAt(kind: Kind, r: Request, entries: map<string, Integration>, env: Env,
                                 now: int, retries: nat, validate: Event -> seq<string>)
    ensures forall c :: c in Pipeline(kind, r, entries, env, now, retries, validate).calls ==>
      r.body.Decoded? && c.seen == r.body.event.(receivedAt := now, traits := c.seen.traits)
  {
    if r.verb == "POST" && r.body.Decoded? {
      var e := r.body.event.(receivedAt := now);
      if validate(e) == [] {
        RunSharesEvent(SortedKeys(entries.Keys), entries, kind, env, e, retries);
      }
    }
  }

  /**
   * Integrations are called in ascending name order, disabled ones never;
   * with a 200 every enabled integration was called.
   */
  lemma PipelineCallsEnabledInOrder(kind: Kind, r: Request, entries: map<string, Integration>, env: Env,
                                    now: int, retries: nat, validate: Event -> seq<string>)
    ensures var h := Pipeline(kind, r, entries, env, now, retries, validate);
      && CallNames(h.calls) <= EnabledNames(SortedKeys(entries.Keys), entries, env)
      && (h.outcome.Json? && h.outcome.status == 200 ==>
            CallNames(h.calls) == EnabledNames(SortedKeys(entries.Keys), entries, env))
  {
    if r.verb == "POST" && r.body.Decoded? {
      var e := r.body.event.(receivedAt := now);
      if validate(e) == [] {
        RunFollowsEnabledNames(SortedKeys(entries.Keys), entries, kind, env, e, retries);
      }
    }
  }

  /**
   * The first failure wins: a 500 names the last integration called and
   * carries its error, every earlier call succeeded, and a 200 means every
   * call succeeded.
   */
  lemma PipelineFirstFailureWins(kind: Kind, r: Request, entries: map<string, Integration>, env: Env,
                                 now: int, retries: nat, validate: Event -> seq<string>)
    ensures var h := Pipeline(kind, r, entries, env, now, retries, validate);
      && (forall k :: 0 <= k < |h.calls| - 1 ==> h.calls[k].result == Ok)
      && (h.outcome.Json? && h.outcome.status == 200 ==> forall c :: c in h.calls ==> c.result == Ok)
      && (h.outcome.Json? && h.outcome.status == 500 ==>
            h.calls != [] &&
            var last := Last(h.calls);
            last.result.Err? && h.outcome.message == FailureMessage(kind, last.name, last.result.error))
      && (h.outcome.NoResponse? ==> h.calls != [] && Last(h.calls).result.Abort?)
  {
    if r.verb == "POST" && r.body.Decoded? {
      var e := r.body.event.(receivedAt := now);
      if validate(e) == [] {
        RunStopsAtFirstFailure(SortedKeys(entries.Keys), entries, kind, env, e, retries);
      }
    }
  }

  /** With no enabled integration a valid request succeeds and calls nothing. */
  lemma PipelineWithoutEnabledSucceeds(kind: Kind, r: Request, entries: map<string, Integration>, env: Env,
                                       now: int, retries: nat, validate: Event -> seq<string>)
    requires r.verb == "POST" && r.body.Decoded? && validate(r.body.event.(receivedAt := now)) == []
    requires forall n :: n in entries ==> !entries[n].enabled(env)
    ensures Pipeline(kind, r, entries, env, now, retries, validate) == Handled(Json(200, SuccessMessage(kind)), [])
  {
    var names := SortedKeys(entries.Keys);
    RunWithoutEnabledSucceeds(names, entries, kind, env, r.body.event.(receivedAt := now), retries);
  }

  /** Identify calls each integration's `Identify` exactly once, unwrapped;
      track and page calls end as the retry wrapper ends them. */
  lemma PipelineCallResults(kind: Kind, r: Request, entries: map<string, Integration>, env: Env,
                            now: int, retries: nat, validate: Event -> seq<string>)
    ensures forall c :: c in Pipeline(kind, r, entries, env, now, retries, validate).calls ==>
      && c.name in entries
      && c.result == (if kind == IdentifyKind then entries[c.name].identify(env, c.seen).result
                      else WithRetry(CapabilityOf(entries[c.name], kind), env, c.seen, retries).result)
  {
    if r.verb == "POST" && r.body.Decoded? {
      var e := r.body.event.(receivedAt := now);
      if validate(e) == [] {
        RunSharesEvent(SortedKeys(entries.Keys), entries, kind, env, e, retries);
      }
    }
  }

  // The handlers' test scenarios.

  /** A capability that answers `result` and leaves the map alone. */
  function Fixed(result: CallResult): Capability
  {
    (env: Env, e: Event) => Reply(result, e.traits)
  }

  /** An always-enabled integration whose every operation succeeds. */
  function Fake(): Integration
  {
    Integration((env: Env) => true, Fixed(Ok), Fixed(Ok), Fixed(Ok))
  }

  /** `Fake` whose `kind` operation always fails with `error`. */
  function FailingAt(kind: Kind, error: string): Integration
  {
    match kind
    case IdentifyKind => Fake().(identify := Fixed(Err(error)))
    case TrackKind => Fake().(track := Fixed(Err(error)))
    case PageKind => Fake().(page := Fixed(Err(error)))
  }

  const FailingName := TestOnlyPrefix + "failing"
  const WorkingName := TestOnlyPrefix + "working"
  const CalledName := TestOnlyPrefix + "called"

  /** `{}` as a track, page or identify payload. */
  function EmptyPayload(): Event
  {
    Event("", "", "", map[], 0, 0)
  }

  lemma {:induction false} JoinTwo(a: string, b: string, sep: string)
    ensures Join([a, b], sep) == a + sep + b
  {
    assert [a, b][1..] == [b];
  }

  lemma JoinThree(a: string, b: string, c: string, sep: string)
    ensures Join([a, b, c], sep) == a + sep + (b + sep + c)
  {
    assert [a, b, c][1..] == [b, c];
    JoinTwo(b, c, sep);
  }

  /** The missing-parameter messages of the three payloads' `{}` lists. */
  lemma MissingTwoMessage()
    ensures MissingParametersMessage(["userID", "timestamp"]) == "Missing parameters: userID, timestamp."
  {
    JoinTwo("userID", "timestamp", ", ");
  }

  lemma MissingThreeMessage()
    ensures MissingParametersMessage(["name", "userID", "timestamp"])
      == "Missing parameters: name, userID, timestamp."
  {
    JoinThree("name", "userID", "timestamp", ", ");
  }

  lemma MissingFourMessage()
    ensures MissingParametersMessage(["name", "url", "userID", "timestamp"])
      == "Missing parameters: name, url, userID, timestamp."
  {
    assert ["name", "url", "userID", "timestamp"][1..] == ["url", "userID", "timestamp"];
    JoinThree("url", "userID", "timestamp", ", ");
  }

  /** The identify payload `{}` lacks the user ID and the timestamp. */
  lemma EmptyIdentifyPayload(r: Request, entries: map<string, Integration>, env: Env, now: int)
    requires r.verb == "POST" && r.body == Decoded(EmptyPayload())
    ensures Pipeline(IdentifyKind, r, entries, env, now, 0, Validate).outcome
      == Json(400, "Missing parameters: userID, timestamp.")
  {
    assert Validate(EmptyPayload().(receivedAt := now)) == ["userID", "timestamp"];
    MissingTwoMessage();
  }

  /** For `{}` the track and page validations report the lists below, and
      the reply names them in that order. */
  lemma EmptyTrackAndPagePayloads(r: Request, entries: map<string, Integration>, env: Env, now: int,
                                  retries: nat, validate: Event -> seq<string>)
    requires r.verb == "POST" && r.body == Decoded(EmptyPayload())
    ensures validate(EmptyPayload().(receivedAt := now)) == ["name", "userID", "timestamp"] ==>
      Pipeline(TrackKind, r, entries, env, now, retries, validate).outcome
        == Json(400, "Missing parameters: name, userID, timestamp.")
    ensures validate(EmptyPayload().(receivedAt := now)) == ["name", "url", "userID", "timestamp"] ==>
      Pipeline(PageKind, r, entries, env, now, retries, validate).outcome
        == Json(400, "Missing parameters: name, url, userID, timestamp.")
  {
    MissingThreeMessage();
    MissingFourMessage();
  }

  lemma TestNamesDiffer()
    ensures FailingName != WorkingName
  {
    assert FailingName[|TestOnlyPrefix|] != WorkingName[|TestOnlyPrefix|];
  }

  /** The failing integration sorts before the working one. */
  lemma FailingSortsFirst()
    ensures SortedKeys({FailingName, WorkingName}) == [FailingName, WorkingName]
  {
    var a, b := "failing", "working";
    assert LessEq(a, b) by {
      assert a[0] < b[0];
    }
    LessEqCommonPrefix(TestOnlyPrefix, a, b);
    TestNamesDiffer();
    SortedKeysPair(FailingName, WorkingName);
  }

  /** The loop over the two test integrations stops at the failing one. */
  lemma FailingRun(kind: Kind, entries: map<string, Integration>, env: Env, e: Event, retries: nat)
    requires kind != IdentifyKind
    requires entries == map[FailingName := FailingAt(kind, "some random error"), WorkingName := Fake()]
    ensures var t := Run([FailingName, WorkingName], entries, kind, env, e, retries);
      t.verdict == Failed(FailingName, "some random error") && |t.calls| == 1 && t.calls[0].name == FailingName
  {
    TestNamesDiffer();
    var failing := CapabilityOf(entries[FailingName], kind);
    assert failing == Fixed(Err("some random error"));
    assert forall p: Props {:trigger e.(traits := p)} :: failing(env, e.(traits := p)).result == Err("some random error");
    RetryOfStableFailure(failing, env, e, retries, "some random error");
  }

  /**
   * A failing and a working integration: the failing one sorts first, its
   * error is the 500 reply after every retry, and the working one is never
   * called.
   */
  lemma FailingIntegrationStopsDispatch(kind: Kind, r: Request, env: Env, now: int, retries: nat,
                                        validate: Event -> seq<string>)
    requires kind != IdentifyKind
    requires r.verb == "POST" && r.body.Decoded? && validate(r.body.event.(receivedAt := now)) == []
    ensures var entries := map[FailingName := FailingAt(kind, "some random error"), WorkingName := Fake()];
      var h := Pipeline(kind, r, entries, env, now, retries, validate);
      && h.outcome == Json(500, FailureMessage(kind, FailingName, "some random error"))
      && forall c :: c in h.calls ==> c.name != WorkingName
  {
    var entries := map[FailingName := FailingAt(kind, "some random error"), WorkingName := Fake()];
    FailingSortsFirst();
    assert entries.Keys == {FailingName, WorkingName};
    FailingRun(kind, entries, env, r.body.event.(receivedAt := now), retries);
  }

  /** The loop over the one test integration calls it and succeeds. */
  lemma CalledRun(kind: Kind, entries: map<string, Integration>, env: Env, e: Event, retries: nat)
    requires entries == map[CalledName := Fake()]
    ensures var t := Run([CalledName], entries, kind, env, e, retries);
      t.verdict == Delivered && t.calls == [Call(CalledName, e, Ok)]
  {
    assert CapabilityOf(entries[CalledName], kind) == Fixed(Ok);
    assert Invoke(entries[CalledName], kind, env, e, retries).result == Ok;
  }

  /** One enabled integration that succeeds: it is called once, with the
      reception time, and the reply is the success message. */
  lemma CalledIntegrationSucceeds(kind: Kind, r: Request, env: Env, now: int, retries: nat,
                                  validate: Event -> seq<string>)
    requires r.verb == "POST" && r.body.Decoded? && validate(r.body.event.(receivedAt := now)) == []
    ensures var h := Pipeline(kind, r, map[CalledName := Fake()], env, now, retries, validate);
      && h.outcome == Json(200, SuccessMessage(kind))
      && |h.calls| == 1 && h.calls[0].name == CalledName && h.calls[0].seen.receivedAt == now
  {
    var entries := map[CalledName := Fake()];
    assert entries.Keys == {CalledName};
    SortedKeysSingle(CalledName);
    CalledRun(kind, entries, env, r.body.event.(receivedAt := now), retries);
  }
}
