/**
 * The adapters as the registry holds them, and what their shared
 * properties map means for the order they are called in.
 */
module Destinations {
  import opened Values
  import opened Integration
  import Strings
  import Sorting
  import Drip
  import Mixpanel
  import Drift

  /** Drip as registered under "drip", sending through `send`. */
  function DripIntegration(send: Drip.HttpCall -> Exchange<seq<Drip.ApiError>>): (r: Integration)
    ensures forall env :: r.enabled(env) <==>
              Getenv(env, "DRIP_API_TOKEN") != "" && Getenv(env, "DRIP_ACCOUNT_ID") != ""
    ensures forall env, e: Event | IsNil(e.traits, "email") ::
              && r.identify(env, e) == Reply(Err(Drip.EmailRequired), e.traits)
              && r.track(env, e) == Reply(Err(Drip.EmailRequired), e.traits)
              && r.page(env, e) == Reply(Err(Drip.EmailRequired), e.traits)
    ensures forall env, e: Event :: r.page(env, e).result.Err? ==> r.page(env, e).result == Err(Drip.EmailRequired)
  {
    Integration(
      Drip.Enabled,
      (env: Env, e: Event) => Drip.Identify(Drip.Production(env, send), e).ToReply(),
      (env: Env, e: Event) => Drip.Track(Drip.Production(env, send), e).ToReply(),
      (env: Env, e: Event) => Drip.Page(Drip.Production(env, send), e).ToReply())
  }

  /** Mixpanel as registered under "mixpanel"; `clock` gives its age limits. */
  function MixpanelIntegration(send: Mixpanel.HttpCall -> Exchange<string>, clock: Mixpanel.Clock): (r: Integration)
    ensures forall env :: r.enabled(env) <==> Getenv(env, "MIXPANEL_TOKEN") != ""
    ensures forall env, e: Event | e.timestamp < clock.fiveYearsAgo ::
              r.track(env, e) == Reply(Err(Mixpanel.TooOld), e.traits)
    ensures forall env, e: Event :: !r.track(env, e).result.Abort? && !r.page(env, e).result.Abort?
  {
    Integration(
      Mixpanel.Enabled,
      (env: Env, e: Event) => Mixpanel.Identify(Mixpanel.Production(env, send), env, e).ToReply(),
      (env: Env, e: Event) => Mixpanel.Track(Mixpanel.Production(env, send), env, clock, e).ToReply(),
      (env: Env, e: Event) => Mixpanel.Page(Mixpanel.Production(env, send), env, clock, e).ToReply())
  }

  /** Drift as registered under "drift". */
  function DriftIntegration(send: Drift.HttpCall -> Exchange<string>): (r: Integration)
    ensures forall env :: r.enabled(env) <==> Getenv(env, "DRIFT_ORG_ID") != ""
    ensures forall env, e: Event ::
              && !r.identify(env, e).result.Abort?
              && !r.track(env, e).result.Abort?
              && !r.page(env, e).result.Abort?
  {
    Integration(
      Drift.Enabled,
      (env: Env, e: Event) => Drift.Identify(Drift.Production(send), env, e).ToReply(),
      (env: Env, e: Event) => Drift.Track(Drift.Production(send), env, e).ToReply(),
      (env: Env, e: Event) => Drift.Page(Drift.Production(send), env, e).ToReply())
  }

  /**
   * The registered Drip crashes the request when the API answers a failure
   * status with an empty error list, on every operation that gets as far
   * as sending; the corrected classification reports an error instead.
   */
  lemma RegisteredDripCrashesOnEmptyErrors(env: Env, e: Event, status: int)
    requires status != 200 && status != 204
    requires "email" in e.traits && e.traits["email"].Str?
    ensures var r := DripIntegration(c => Answered(status, Read([])));
      && r.identify(env, e).result == Abort(Drip.IndexOutOfRange)
      && r.track(env, e).result == Abort(Drip.IndexOutOfRange)
    ensures var api := Drip.ProductionAsIntended(env, c => Answered(status, Read([])));
      && Drip.Identify(api, e).result == Err(Drip.ErrorMessage(Drip.NoDetails))
      && Drip.Track(api, e).result == Err(Drip.ErrorMessage(Drip.NoDetails))
  {
  }

  /**
   * Whatever else is registered, the handlers call "drip" before
   * "mixpanel": the dispatch order is the names' ascending order.
   */
  lemma DripCalledBeforeMixpanel(keys: set<string>)
    requires "drip" in keys && "mixpanel" in keys
    ensures exists i, j :: 0 <= i < j < |Sorting.SortedKeys(keys)|
              && Sorting.SortedKeys(keys)[i] == "drip" && Sorting.SortedKeys(keys)[j] == "mixpanel"
  {
    var s := Sorting.SortedKeys(keys);
    assert "drip" in s && "mixpanel" in s;
    var i :| 0 <= i < |s| && s[i] == "drip";
    var j :| 0 <= j < |s| && s[j] == "mixpanel";
    assert "mixpanel"[0] > "drip"[0];
    assert !Strings.LessEq("mixpanel", "drip");
  }

  /**
   * Mixpanel deletes "email" from the shared map when it tracks an event,
   * so a Drip track call after it on the same request always lacks the
   * email; called first, Drip sends the event with it.
   */
  lemma MixpanelTrackHidesEmailFromDrip(dripApi: Drip.Service, mixpanelApi: Mixpanel.Service,
                                        env: Env, clock: Mixpanel.Clock, e: Event)
    requires e.timestamp >= clock.fiveYearsAgo
    ensures var after := Mixpanel.Track(mixpanelApi, env, clock, e).props;
            Drip.Track(dripApi, e.(traits := after)).result == Err(Drip.EmailRequired)
    ensures "email" in e.traits && e.traits["email"].Str? ==>
              Drip.Track(dripApi, e).request.Some?
              && Drip.Track(dripApi, e).request.value.payload.events[0].email == e.traits["email"].s
  {
  }

  /** The same holds for identifications: Mixpanel moves the email out of
      the traits it was given. */
  lemma MixpanelIdentifyHidesEmailFromDrip(dripApi: Drip.Service, mixpanelApi: Mixpanel.Service,
                                           env: Env, e: Event)
    requires Mixpanel.Identify(mixpanelApi, env, e).request.Some?
    ensures var after := Mixpanel.Identify(mixpanelApi, env, e).props;
            Drip.Identify(dripApi, e.(traits := after)).result == Err(Drip.EmailRequired)
  {
  }
}
