/**
 * The Intercom destination: an identification creates or updates the
 * Intercom user that carries the same user id.
 */
module Intercom {
  import opened Wrappers
  import opened Values
  import opened Integration
  import Strings

  /** `Enabled`: both the API key and the application id are configured. */
  function Enabled(env: Env): bool
  {
    Getenv(env, "INTERCOM_API_KEY") != "" && Getenv(env, "INTERCOM_APP_ID") != ""
  }

  lemma EnabledNeedsBoth(env: Env)
    ensures Enabled(env) <==>
      Getenv(env, "INTERCOM_API_KEY") != "" && Getenv(env, "INTERCOM_APP_ID") != ""
    ensures !Enabled(map["INTERCOM_API_KEY" := "key"])
  {
  }

  /** The fields of an Intercom user that the adapter reads or writes. */
  datatype User = User(userID: string, email: string, name: string, createdAt: int, signedUpAt: int,
                       customAttributes: Props)

  /** A user not yet known to Intercom: only its id is set. */
  function NewUser(userID: string): (u: User)
    ensures u.userID == userID && u.email == "" && u.name == "" && u.customAttributes == map[]
    ensures u.createdAt == 0 && u.signedUpAt == 0
  {
    User(userID, "", "", 0, 0, map[])
  }

  /** What `FindByUserID` answers: the stored user or an error message. */
  datatype Lookup = Found(user: User) | LookupFailed(error: string)

  /** The Intercom service: finding a user by id and saving a user. */
  datatype Service = Service(find: string -> Lookup, save: User -> CallResult)

  /**
   * The user to save, starting from `base`: the traits become its custom
   * attributes; a non-nil "email" or "name" must be a string and replaces
   * the stored one; a non-nil "createdAt" must be a number and sets both
   * the creation and the sign-up time. None where a type assertion panics.
   */
  function Merge(base: User, traits: Props): (u: Option<User>)
    ensures u.Some? <==>
      (IsNil(traits, "email") || traits["email"].Str?)
      && (IsNil(traits, "name") || traits["name"].Str?)
      && (IsNil(traits, "createdAt") || traits["createdAt"].Num?)
    ensures u.Some? ==>
      && u.value.userID == base.userID
      && u.value.customAttributes == traits
      && u.value.email == (if IsNil(traits, "email") then base.email else traits["email"].s)
      && u.value.name == (if IsNil(traits, "name") then base.name else traits["name"].s)
      && u.value.createdAt == (if IsNil(traits, "createdAt") then base.createdAt else traits["createdAt"].n)
      && u.value.signedUpAt == (if IsNil(traits, "createdAt") then base.signedUpAt else traits["createdAt"].n)
  {
    var u := base.(customAttributes := traits);
    if !IsNil(traits, "email") && !traits["email"].Str? then None
    else
      var u := if IsNil(traits, "email") then u else u.(email := traits["email"].s);
      if !IsNil(traits, "name") && !traits["name"].Str? then None
      else
        var u := if IsNil(traits, "name") then u else u.(name := traits["name"].s);
        if !IsNil(traits, "createdAt") && !traits["createdAt"].Num? then None
        else if IsNil(traits, "createdAt") then Some(u)
        else Some(u.(createdAt := traits["createdAt"].n, signedUpAt := traits["createdAt"].n))
  }

  /** The user an identification starts from: the one found, or a new one. */
  function Base(lookup: Lookup, userID: string): User
  {
    if lookup.Found? then lookup.user else NewUser(userID)
  }

  /**
   * `Identify`: looks the user up; a lookup error that mentions "not_found"
   * starts a new user, any other is returned without saving. The merged
   * user is saved and the save's outcome returned. The caller's traits are
   * never changed.
   */
  function Identify(api: Service, e: Event): (a: Attempt<User>)
    ensures a.props == e.traits
    ensures (api.find(e.userID).LookupFailed? && !Strings.Contains(api.find(e.userID).error, "not_found"))
      ==> a == Attempt(Err(api.find(e.userID).error), e.traits, None)
    ensures a.request.Some? ==> a.result == api.save(a.request.value)
                                && a.request.value.customAttributes == e.traits
    ensures !(api.find(e.userID).LookupFailed? && !Strings.Contains(api.find(e.userID).error, "not_found"))
      ==> && a.request == Merge(Base(api.find(e.userID), e.userID), e.traits)
          && (a.request.None? ==> a.result == Abort(TypeAssertionPanic))
  {
    var lookup := api.find(e.userID);
    if lookup.LookupFailed? && !Strings.Contains(lookup.error, "not_found") then
      Attempt(Err(lookup.error), e.traits, None)
    else
      var merged := Merge(Base(lookup, e.userID), e.traits);
      if merged.None? then Attempt(Abort(TypeAssertionPanic), e.traits, None)
      else Attempt(api.save(merged.value), e.traits, Some(merged.value))
  }

  /** An unknown user is created with the event's user id and its traits, no
      email or name, and zero creation and sign-up times. */
  lemma UnknownUserIsCreated(api: Service, e: Event)
    requires api.find(e.userID).LookupFailed?
    requires Strings.Contains(api.find(e.userID).error, "not_found")
    requires IsNil(e.traits, "email") && IsNil(e.traits, "name") && IsNil(e.traits, "createdAt")
    ensures Identify(api, e).request == Some(NewUser(e.userID).(customAttributes := e.traits))
    ensures Identify(api, e).result == api.save(NewUser(e.userID).(customAttributes := e.traits))
    ensures var u := Identify(api, e).request.value;
      && u.userID == e.userID && u.email == "" && u.name == ""
      && u.createdAt == 0 && u.signedUpAt == 0 && u.customAttributes == e.traits
  {
  }

  /** A stored user keeps its id, and keeps its email when the traits carry none. */
  lemma StoredUserIsUpdated(api: Service, e: Event)
    requires api.find(e.userID).Found?
    requires IsNil(e.traits, "email") && (IsNil(e.traits, "name") || e.traits["name"].Str?)
    requires IsNil(e.traits, "createdAt") || e.traits["createdAt"].Num?
    ensures Identify(api, e).request.Some?
    ensures Identify(api, e).request.value.userID == api.find(e.userID).user.userID
    ensures Identify(api, e).request.value.email == api.find(e.userID).user.email
  {
  }
}
