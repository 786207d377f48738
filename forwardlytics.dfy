/**
 * The server's own identify endpoint, the older variant that checks the
 * API key inline, after the method check, under a different header name.
 */
module Forwardlytics {
  import opened Values
  import opened Integration
  import opened Registry
  import opened Dispatch
  import opened Http
  import opened Handlers
  import opened Middleware

  /** The header this variant reads the key from. */
  const LegacyKeyHeader := "FORWARDLYTICS_API_KEY"
  const LegacyInvalidKeyMessage :=
    "Invalid API KEY. The FORWARDLYTICS_API_KEY header must be specified, with the proper API key."

  /** One request through the legacy identify endpoint. */
  ghost function LegacyPipeline(r: Request, entries: map<string, Integration>, env: Env, now: int): Handled
  {
    if r.verb != "POST" then Handled(NotFoundReply, [])
    else if HeaderGet(r.header, LegacyKeyHeader) != Getenv(env, ApiKeyVariable) then
      Handled(Json(401, LegacyInvalidKeyMessage), [])
    else Pipeline(IdentifyKind, r, entries, env, now, 0, Validate)
  }

  /** `identifyHandler`. */
  method IdentifyHandler(w: ResponseWriter, reg: Registry, r: Request, env: Env, now: int)
    modifies w
    ensures w.State() == Emit(old(w.State()), LegacyPipeline(r, reg.entries, env, now).outcome)
  {
    var receivedAt := now;
    if r.verb != "POST" {
      NotFound(w);
      return;
    }
    var apiKey := HeaderGet(r.header, LegacyKeyHeader);
    if apiKey != Getenv(env, ApiKeyVariable) {
      WriteResponse(w, LegacyInvalidKeyMessage, 401);
      return;
    }
    Handle(w, reg, IdentifyKind, r, env, receivedAt, 0, Validate);
  }

  /**
   * The method is checked before the key: a non-POST gets the 404 page
   * whatever key it carries, while behind the middleware a wrong key is
   * refused before the handler can check the method.
   */
  lemma MethodCheckedBeforeKey(r: Request, entries: map<string, Integration>, env: Env, now: int,
                               retries: nat, validate: Event -> seq<string>)
    requires r.verb != "POST"
    ensures LegacyPipeline(r, entries, env, now) == Handled(NotFoundReply, [])
    ensures HeaderGet(r.header, ApiKeyHeader) != Getenv(env, ApiKeyVariable) ==>
      Gated(IdentifyKind, r, entries, env, now, retries, validate) == Handled(Json(401, InvalidKeyMessage), [])
  {
    GatedPassesOrRefuses(IdentifyKind, r, entries, env, now, retries, validate);
  }

  /**
   * Once past its key check, the legacy endpoint behaves exactly as the
   * identify handler does; a POST with the wrong key calls no integration.
   */
  lemma LegacyMatchesIdentify(r: Request, entries: map<string, Integration>, env: Env, now: int)
    requires r.verb == "POST"
    ensures HeaderGet(r.header, LegacyKeyHeader) == Getenv(env, ApiKeyVariable) ==>
      LegacyPipeline(r, entries, env, now) == Pipeline(IdentifyKind, r, entries, env, now, 0, Validate)
    ensures HeaderGet(r.header, LegacyKeyHeader) != Getenv(env, ApiKeyVariable) ==>
      LegacyPipeline(r, entries, env, now) == Handled(Json(401, LegacyInvalidKeyMessage), [])
  {
  }
}
