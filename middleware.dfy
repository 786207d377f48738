/**
 * The API-key gate placed in front of the handlers: the request's
 * `Forwardlytics-Api-Key` header must equal the configured key.
 */
module Middleware {
  import opened Values
  import opened Integration
  import opened Registry
  import opened Dispatch
  import opened Http
  import opened Handlers

  const ApiKeyHeader := "Forwardlytics-Api-Key"
  const ApiKeyVariable := "FORWARDLYTICS_API_KEY"
  const InvalidKeyMessage :=
    "Invalid API KEY. The Forwardlytics-Api-Key header must be specified, with the proper API key."

  /** The number of positions at which two equally long byte strings differ. */
  function Mismatches(x: string, y: string): nat
    requires |x| == |y|
  {
    if |x| == 0 then 0
    else (if x[0] != y[0] then 1 else 0) + Mismatches(x[1..], y[1..])
  }

  lemma {:induction false} MismatchesZero(x: string, y: string)
    requires |x| == |y|
    ensures Mismatches(x, y) == 0 <==> x == y
  {
    if |x| != 0 {
      MismatchesZero(x[1..], y[1..]);
      assert x == [x[0]] + x[1..] && y == [y[0]] + y[1..];
    }
  }

  /** `subtle.ConstantTimeCompare`: 1 for equal lengths and no differing
      byte, 0 otherwise. */
  function ConstantTimeCompare(x: string, y: string): (r: int)
    ensures r == 1 <==> x == y
    ensures r == 0 <==> x != y
  {
    if |x| != |y| then 0
    else
      MismatchesZero(x, y);
      if Mismatches(x, y) == 0 then 1 else 0
  }

  /** The gate's test: the header's value against the configured key. */
  predicate Authorized(r: Request, env: Env)
  {
    ConstantTimeCompare(Getenv(env, ApiKeyVariable), HeaderGet(r.header, ApiKeyHeader)) == 1
  }

  /** The gate is plain content equality; with no key configured, a
      request without the header passes. */
  lemma AuthorizedIffKeyMatches(r: Request, env: Env)
    ensures Authorized(r, env) <==> HeaderGet(r.header, ApiKeyHeader) == Getenv(env, ApiKeyVariable)
    ensures ApiKeyVariable !in env && ApiKeyHeader !in r.header ==> Authorized(r, env)
  {
  }

  /**
   * The gate itself: on a mismatch it writes the 401 reply and the wrapped
   * handler must not run (`next` is false); otherwise it writes nothing.
   */
  method AuthMiddleware(w: ResponseWriter, r: Request, env: Env) returns (next: bool)
    modifies w
    ensures next <==> Authorized(r, env)
    ensures next ==> w.State() == old(w.State())
    ensures !next ==> w.State() == AfterWriteResponse(old(w.State()), InvalidKeyMessage, 401)
  {
    var apiKey := HeaderGet(r.header, ApiKeyHeader);
    if ConstantTimeCompare(Getenv(env, ApiKeyVariable), apiKey) != 1 {
      WriteResponse(w, InvalidKeyMessage, 401);
      return false;
    }
    return true;
  }

  /** A request to a gated handler. */
  ghost function Gated(kind: Kind, r: Request, entries: map<string, Integration>, env: Env,
                       now: int, retries: nat, validate: Event -> seq<string>): Handled
  {
    if !Authorized(r, env) then Handled(Json(401, InvalidKeyMessage), [])
    else Pipeline(kind, r, entries, env, now, retries, validate)
  }

  /** `AuthMiddleware(handler).ServeHTTP(w, r)`. */
  method Serve(w: ResponseWriter, reg: Registry, kind: Kind, r: Request, env: Env,
               now: int, retries: nat, validate: Event -> seq<string>)
    modifies w
    ensures w.State() == Emit(old(w.State()), Gated(kind, r, reg.entries, env, now, retries, validate).outcome)
  {
    var next := AuthMiddleware(w, r, env);
    if next {
      Handle(w, reg, kind, r, env, now, retries, validate);
    }
  }

  /**
   * A wrong key gets the 401 reply and no integration is called; the right
   * key passes the wrapped handler's reply and calls through unchanged.
   */
  lemma GatedPassesOrRefuses(kind: Kind, r: Request, entries: map<string, Integration>, env: Env,
                             now: int, retries: nat, validate: Event -> seq<string>)
    ensures var g := Gated(kind, r, entries, env, now, retries, validate);
      && (HeaderGet(r.header, ApiKeyHeader) != Getenv(env, ApiKeyVariable) ==>
            g == Handled(Json(401, InvalidKeyMessage), []))
      && (HeaderGet(r.header, ApiKeyHeader) == Getenv(env, ApiKeyVariable) ==>
            g == Pipeline(kind, r, entries, env, now, retries, validate))
  {
    AuthorizedIffKeyMatches(r, env);
  }
}
