/**
 * The loop the three handlers share once an event is valid: walk the
 * registered integrations in ascending name order, skip the disabled ones,
 * call the others one at a time, and stop at the first error.
 */
module Dispatch {
  import opened Wrappers
  import opened Values
  import opened Sorting
  import opened Integration
  import opened Registry

  /** Which handler is dispatching, and so which operation is called. */
  datatype Kind = IdentifyKind | TrackKind | PageKind

  function CapabilityOf(i: Integration, kind: Kind): Capability
  {
    match kind
    case IdentifyKind => i.identify
    case TrackKind => i.track
    case PageKind => i.page
  }

  /**
   * The retry wrapper around a track or page call: an error is retried, at
   * most `retries` more times; each attempt sees the map as the previous
   * attempt left it. Success and crashes are final.
   */
  function WithRetry(c: Capability, env: Env, e: Event, retries: nat): (r: Reply)
    ensures !c(env, e).result.Err? ==> r == c(env, e)
    ensures r.result.Err? ==> c(env, e).result.Err?
    ensures retries == 0 ==> r == c(env, e)
    decreases retries
  {
    var reply := c(env, e);
    if reply.result.Err? && retries > 0 then
      WithRetry(c, env, e.(traits := reply.props), retries - 1)
    else
      reply
  }

  /** A call that errors whatever map it is given errors after every retry. */
  lemma {:induction false} RetryOfStableFailure(c: Capability, env: Env, e: Event, retries: nat, error: string)
    requires forall p: Props {:trigger e.(traits := p)} :: c(env, e.(traits := p)).result == Err(error)
    ensures WithRetry(c, env, e, retries).result == Err(error)
    decreases retries
  {
    assert e.(traits := e.traits) == e;
    if retries > 0 {
      var reply := c(env, e);
      var next := e.(traits := reply.props);
      assert forall p: Props {:trigger next.(traits := p)} :: next.(traits := p) == e.(traits := p);
      RetryOfStableFailure(c, env, next, retries - 1, error);
    }
  }

  /** One integration call as the handler makes it: identify is called
      once, track and page through the retry wrapper. */
  function Invoke(i: Integration, kind: Kind, env: Env, e: Event, retries: nat): Reply
  {
    if kind == IdentifyKind then i.identify(env, e)
    else WithRetry(CapabilityOf(i, kind), env, e, retries)
  }

  /** One integration that was called: its name, the event it was given,
      and how the (possibly retried) call ended. */
  datatype Call = Call(name: string, seen: Event, result: CallResult)

  /** How the loop ended. */
  datatype Verdict =
    | Delivered
    | Failed(name: string, error: string)
    | Crashed(name: string, reason: string)

  /** The loop's outcome, the calls made in order, and the shared map afterwards. */
  datatype Trace = Trace(verdict: Verdict, calls: seq<Call>, traits: Props)

  function Prefixed(calls: seq<Call>, t: Trace): Trace
  {
    Trace(t.verdict, calls + t.calls, t.traits)
  }

  /** The loop over `names`, as a function of the registry's entries. */
  function Run(names: seq<string>, entries: map<string, Integration>, kind: Kind,
               env: Env, e: Event, retries: nat): Trace
    requires forall n :: n in names ==> n in entries
    decreases |names|
  {
    if names == [] then Trace(Delivered, [], e.traits)
    else
      var i := entries[names[0]];
      if !i.enabled(env) then Run(names[1..], entries, kind, env, e, retries)
      else
        var reply := Invoke(i, kind, env, e, retries);
        var call := Call(names[0], e, reply.result);
        match reply.result
        case Ok =>
          Prefixed([call], Run(names[1..], entries, kind, env, e.(traits := reply.props), retries))
        case Err(error) => Trace(Failed(names[0], error), [call], reply.props)
        case Abort(reason) => Trace(Crashed(names[0], reason), [call], reply.props)
  }

  /** The names of the enabled integrations among `names`, in order. */
  function EnabledNames(names: seq<string>, entries: map<string, Integration>, env: Env): (r: seq<string>)
    requires forall n :: n in names ==> n in entries
    ensures forall n :: n in r <==> n in names && entries[n].enabled(env)
    decreases |names|
  {
    if names == [] then []
    else
      var rest := EnabledNames(names[1..], entries, env);
      assert forall n :: n in names <==> n == names[0] || n in names[1..];
      if entries[names[0]].enabled(env) then [names[0]] + rest else rest
  }

  function CallNames(calls: seq<Call>): (r: seq<string>)
    ensures |r| == |calls|
    ensures forall k :: 0 <= k < |calls| ==> r[k] == calls[k].name
  {
    if calls == [] then [] else [calls[0].name] + CallNames(calls[1..])
  }

  /**
   * The integrations the handler calls: the dispatch loop, run over the
   * registry's sorted listing.
   */
  method Forward(reg: Registry, kind: Kind, env: Env, e: Event, retries: nat) returns (t: Trace)
    ensures t == Run(SortedKeys(reg.entries.Keys), reg.entries, kind, env, e, retries)
  {
    var names := reg.List();
    ghost var entries := reg.entries;
    var calls: seq<Call> := [];
    var current := e;
    var i := 0;
    assert names[0..] == names;
    while i < |names|
      invariant 0 <= i <= |names|
      invariant forall n :: n in names ==> n in entries
      invariant Run(names, entries, kind, env, e, retries) == Prefixed(calls, Run(names[i..], entries, kind, env, current, retries))
    {
      var name := names[i];
      var found := reg.Get(name);
      var integration := found.value;
      assert integration == entries[names[i]];
      if integration.enabled(env) {
        var reply := Invoke(integration, kind, env, current, retries);
        if !reply.result.Ok? {
          RunStepStops(names, i, entries, kind, env, current, retries, calls);
          t := Trace(Stopped(name, reply.result), calls + [Call(name, current, reply.result)], reply.props);
          return;
        }
        RunStepContinues(names, i, entries, kind, env, current, retries, calls);
        calls := calls + [Call(name, current, Ok)];
        current := current.(traits := reply.props);
      } else {
        RunStepSkipped(names, i, entries, kind, env, current, retries);
      }
      ghost var after := Run(names[i + 1..], entries, kind, env, current, retries);
      assert Run(names, entries, kind, env, e, retries) == Prefixed(calls, after);
      i := i + 1;
      assert after == Run(names[i..], entries, kind, env, current, retries);
    }
    assert calls + [] == calls;
    t := Trace(Delivered, calls, current.traits);
  }

  /** The verdict of a call that did not succeed. */
  function Stopped(name: string, result: CallResult): (v: Verdict)
    requires !result.Ok?
    ensures result.Err? ==> v == Failed(name, result.error)
    ensures result.Abort? ==> v == Crashed(name, result.reason)
  {
    if result.Err? then Failed(name, result.error) else Crashed(name, result.reason)
  }

  /** One step of the loop at a disabled integration. */
  lemma RunStepSkipped(names: seq<string>, i: int, entries: map<string, Integration>,
                       kind: Kind, env: Env, e: Event, retries: nat)
    requires forall n :: n in names ==> n in entries
    requires 0 <= i < |names| && !entries[names[i]].enabled(env)
    ensures Run(names[i..], entries, kind, env, e, retries) == Run(names[i + 1..], entries, kind, env, e, retries)
  {
    assert names[i..][1..] == names[i + 1..];
  }

  /** One step of the loop at an enabled integration that succeeds. */
  lemma RunStepContinues(names: seq<string>, i: int, entries: map<string, Integration>,
                         kind: Kind, env: Env, e: Event, retries: nat, calls: seq<Call>)
    requires forall n :: n in names ==> n in entries
    requires 0 <= i < |names| && entries[names[i]].enabled(env)
    requires Invoke(entries[names[i]], kind, env, e, retries).result.Ok?
    ensures var reply := Invoke(entries[names[i]], kind, env, e, retries);
      Prefixed(calls, Run(names[i..], entries, kind, env, e, retries)) ==
        Prefixed(calls + [Call(names[i], e, Ok)], Run(names[i + 1..], entries, kind, env, e.(traits := reply.props), retries))
  {
    assert names[i..][1..] == names[i + 1..];
    var reply := Invoke(entries[names[i]], kind, env, e, retries);
    var rest := Run(names[i + 1..], entries, kind, env, e.(traits := reply.props), retries);
    assert calls + ([Call(names[i], e, Ok)] + rest.calls) == (calls + [Call(names[i], e, Ok)]) + rest.calls;
  }

  /** One step of the loop at an enabled integration that fails or crashes. */
  lemma RunStepStops(names: seq<string>, i: int, entries: map<string, Integration>,
                     kind: Kind, env: Env, e: Event, retries: nat, calls: seq<Call>)
    requires forall n :: n in names ==> n in entries
    requires 0 <= i < |names| && entries[names[i]].enabled(env)
    requires !Invoke(entries[names[i]], kind, env, e, retries).result.Ok?
    ensures var reply := Invoke(entries[names[i]], kind, env, e, retries);
      Prefixed(calls, Run(names[i..], entries, kind, env, e, retries)) ==
        Trace(Stopped(names[i], reply.result), calls + [Call(names[i], e, reply.result)], reply.props)
  {
    assert names[i..][1..] == names[i + 1..];
  }

  // Properties of the loop.

  /** Only enabled integrations are called, each under its listed name. */
  lemma {:induction false} RunCallsAreEnabled(names: seq<string>, entries: map<string, Integration>,
                                              kind: Kind, env: Env, e: Event, retries: nat)
    requires forall n :: n in names ==> n in entries
    ensures forall c :: c in Run(names, entries, kind, env, e, retries).calls ==>
      c.name in names && entries[c.name].enabled(env)
    decreases |names|
  {
    if names != [] {
      RunCallsAreEnabled(names[1..], entries, kind, env, e, retries);
      var reply := Invoke(entries[names[0]], kind, env, e, retries);
      RunCallsAreEnabled(names[1..], entries, kind, env, e.(traits := reply.props), retries);
    }
  }

  /**
   * The calls follow the enabled names in list order; when every call
   * succeeded they are all the enabled names, so nothing is skipped.
   */
  lemma {:induction false} RunFollowsEnabledNames(names: seq<string>, entries: map<string, Integration>,
                                                  kind: Kind, env: Env, e: Event, retries: nat)
    requires forall n :: n in names ==> n in entries
    ensures var t := Run(names, entries, kind, env, e, retries);
      && var called := CallNames(t.calls);
      && called <= EnabledNames(names, entries, env)
      && (t.verdict.Delivered? ==> called == EnabledNames(names, entries, env))
    decreases |names|
  {
    if names != [] {
      var i := entries[names[0]];
      if !i.enabled(env) {
        RunFollowsEnabledNames(names[1..], entries, kind, env, e, retries);
      } else {
        var reply := Invoke(i, kind, env, e, retries);
        var t := Run(names, entries, kind, env, e, retries);
        var enabled := EnabledNames(names, entries, env);
        assert enabled == [names[0]] + EnabledNames(names[1..], entries, env);
        if reply.result.Ok? {
          var next := e.(traits := reply.props);
          RunFollowsEnabledNames(names[1..], entries, kind, env, next, retries);
          var rest := Run(names[1..], entries, kind, env, next, retries);
          assert t.calls == [Call(names[0], e, Ok)] + rest.calls;
          assert CallNames(t.calls) == [names[0]] + CallNames(rest.calls);
        } else {
          assert CallNames(t.calls) == [names[0]];
        }
      }
    }
  }

  /**
   * Fail-fast: every call but the last succeeded, and a failure or crash is
   * reported for the last call made, with that call's own error.
   */
  lemma {:induction false} RunStopsAtFirstFailure(names: seq<string>, entries: map<string, Integration>,
                                                  kind: Kind, env: Env, e: Event, retries: nat)
    requires forall n :: n in names ==> n in entries
    ensures var t := Run(names, entries, kind, env, e, retries);
      && (forall k :: 0 <= k < |t.calls| - 1 ==> t.calls[k].result == Ok)
      && (t.verdict.Delivered? <==> forall c :: c in t.calls ==> c.result == Ok)
      && (t.verdict.Failed? ==>
            t.calls != [] && Last(t.calls) == Call(t.verdict.name, Last(t.calls).seen, Err(t.verdict.error)))
      && (t.verdict.Crashed? ==>
            t.calls != [] && Last(t.calls) == Call(t.verdict.name, Last(t.calls).seen, Abort(t.verdict.reason)))
    decreases |names|
  {
    if names != [] {
      var i := entries[names[0]];
      if !i.enabled(env) {
        RunStopsAtFirstFailure(names[1..], entries, kind, env, e, retries);
      } else {
        var reply := Invoke(i, kind, env, e, retries);
        if reply.result.Ok? {
          var next := e.(traits := reply.props);
          RunStopsAtFirstFailure(names[1..], entries, kind, env, next, retries);
          var rest := Run(names[1..], entries, kind, env, next, retries);
          var t := Run(names, entries, kind, env, e, retries);
          assert t.calls == [Call(names[0], e, Ok)] + rest.calls;
          if rest.calls != [] {
            assert Last(t.calls) == Last(rest.calls);
          }
        }
      }
    }
  }

  function Last(calls: seq<Call>): Call
    requires calls != []
  {
    calls[|calls| - 1]
  }

  /** No enabled integration: nothing is called and the request succeeds. */
  lemma {:induction false} RunWithoutEnabledSucceeds(names: seq<string>, entries: map<string, Integration>,
                                                     kind: Kind, env: Env, e: Event, retries: nat)
    requires forall n :: n in names ==> n in entries
    requires forall n :: n in names ==> !entries[n].enabled(env)
    ensures Run(names, entries, kind, env, e, retries) == Trace(Delivered, [], e.traits)
    decreases |names|
  {
    if names != [] {
      RunWithoutEnabledSucceeds(names[1..], entries, kind, env, e, retries);
    }
  }

  /**
   * Every integration sees the same event (user, name, url, timestamps);
   * only the shared traits/properties map differs from call to call. Each
   * call's result is that integration's own (retried) answer to it.
   */
  lemma {:induction false} RunSharesEvent(names: seq<string>, entries: map<string, Integration>,
                                          kind: Kind, env: Env, e: Event, retries: nat)
    requires forall n :: n in names ==> n in entries
    ensures forall c :: c in Run(names, entries, kind, env, e, retries).calls ==>
      && c.seen == e.(traits := c.seen.traits)
      && c.name in entries
      && c.result == Invoke(entries[c.name], kind, env, c.seen, retries).result
    decreases |names|
  {
    if names != [] {
      var i := entries[names[0]];
      if !i.enabled(env) {
        RunSharesEvent(names[1..], entries, kind, env, e, retries);
      } else {
        var reply := Invoke(i, kind, env, e, retries);
        if reply.result.Ok? {
          var next := e.(traits := reply.props);
          RunSharesEvent(names[1..], entries, kind, env, next, retries);
          assert forall p: Props {:trigger next.(traits := p)} :: next.(traits := p) == e.(traits := p);
        }
      }
    }
  }

  /**
   * Nothing after a failure is called: with distinct names, an integration
   * listed after the one that failed or crashed never sees the event.
   */
  lemma NothingAfterFailure(names: seq<string>, entries: map<string, Integration>,
                            kind: Kind, env: Env, e: Event, retries: nat, j: int, k: int)
    requires forall n :: n in names ==> n in entries
    requires Distinct(names)
    requires 0 <= j < k < |names|
    requires var v := Run(names, entries, kind, env, e, retries).verdict; !v.Delivered? && v.name == names[j]
    ensures forall c :: c in Run(names, entries, kind, env, e, retries).calls ==> c.name != names[k]
  {
    var t := Run(names, entries, kind, env, e, retries);
    RunFollowsEnabledNames(names, entries, kind, env, e, retries);
    RunStopsAtFirstFailure(names, entries, kind, env, e, retries);
    var enabled := EnabledNames(names, entries, env);
    var called := CallNames(t.calls);
    forall c | c in t.calls ensures c.name != names[k] {
      var m :| 0 <= m < |t.calls| && t.calls[m] == c;
      var q := |t.calls| - 1;
      assert called[q] == names[j];
      if c.name == names[k] {
        assert called[m] == names[k];
        assert enabled[m] == names[k] && enabled[q] == names[j];
        EnabledNamesOrdered(names, entries, env, j, k, m, q);
      }
    }
  }

  /** In the enabled listing of distinct names, an earlier-listed name comes first. */
  lemma {:induction false} EnabledNamesOrdered(names: seq<string>, entries: map<string, Integration>,
                                               env: Env, j: int, k: int, a: int, b: int)
    requires forall n :: n in names ==> n in entries
    requires Distinct(names)
    requires 0 <= j < k < |names|
    requires 0 <= a < |EnabledNames(names, entries, env)| && EnabledNames(names, entries, env)[a] == names[k]
    requires 0 <= b < |EnabledNames(names, entries, env)| && EnabledNames(names, entries, env)[b] == names[j]
    ensures b < a
    decreases |names|
  {
    var r := EnabledNames(names, entries, env);
    var rest := EnabledNames(names[1..], entries, env);
    assert Distinct(names[1..]);
    assert names[0] !in names[1..];
    assert names[k] != names[0];
    if entries[names[0]].enabled(env) {
      assert r == [names[0]] + rest;
      assert a > 0;
      if j > 0 {
        assert names[j] != names[0];
        assert rest[a - 1] == names[1..][k - 1] && rest[b - 1] == names[1..][j - 1];
        EnabledNamesOrdered(names[1..], entries, env, j - 1, k - 1, a - 1, b - 1);
      }
    } else {
      assert r == rest;
      assert names[j] in r;
      assert names[j] != names[0];
      assert names[1..][k - 1] == names[k] && names[1..][j - 1] == names[j];
      EnabledNamesOrdered(names[1..], entries, env, j - 1, k - 1, a, b);
    }
  }
}
