/** The Google OAuth strategy's verify callback (find-or-create by googleId)
    and the session serializer pair. */
module GoogleAuth {
  import opened Base
  import opened UserModel

  /** The parts of the Google profile the callback reads. */
  datatype Profile = Profile(id: string, displayName: string, emails: seq<string>)

  /** The store after the callback, and the user handed to `done` (`None` is
      `done(error, null)`). */
  datatype CallbackResult = CallbackResult(store: Store, user: Option<User>)

  /** The account created for a first-time Google login: empty password,
      username from the display name or else the first email. */
  function GoogleAccount(id: UserId, profile: Profile): (u: User)
    requires |profile.emails| > 0
    ensures u.googleId == Some(profile.id) && u.password == Some("")
    ensures u.email == profile.emails[0]
    ensures u.username == (if profile.displayName != "" then profile.displayName else profile.emails[0])
    ensures u.settings == DefaultSettings
  {
    User(id, OrElse(Some(profile.displayName), profile.emails[0]), profile.emails[0],
         Some(""), Some(profile.id), None, DefaultSettings)
  }

  /** The strategy callback: an existing user with this googleId is returned
      unchanged; otherwise a new account is saved and returned. A profile
      without emails, or a save the schema or an index rejects, reports an
      error and leaves the store as it was. */
  function GoogleCallback(store: Store, newId: UserId, profile: Profile): (r: CallbackResult)
    requires Indexed(store)
    ensures Indexed(r.store)
    ensures ValidStore(store) ==> ValidStore(r.store)
    ensures (exists id :: id in store && store[id].googleId == Some(profile.id)) ==>
      r.store == store && r.user.Some? && r.user.value in store.Values && r.user.value.googleId == Some(profile.id)
    ensures r.user.Some? <==>
      || (exists id :: id in store && store[id].googleId == Some(profile.id))
      || (|profile.emails| > 0 && SaveNew(store, GoogleAccount(newId, profile)).Some?)
    ensures r.user.None? ==> r.store == store
    ensures r.user.Some? ==> r.user.value.id in r.store && r.store[r.user.value.id] == r.user.value
    ensures r.user.Some? ==> r.user.value.googleId == Some(profile.id)
    ensures r.store != store ==>
      && |profile.emails| > 0
      && (forall id :: id in store ==> store[id].googleId != Some(profile.id))
      && r.store == store[newId := GoogleAccount(newId, profile)]
      && r.user == Some(GoogleAccount(newId, profile))
  {
    match FindByGoogleId(store, profile.id)
    case Some(u) => CallbackResult(store, Some(u))
    case None =>
      if |profile.emails| == 0 then
        CallbackResult(store, None)
      else
        var u := GoogleAccount(newId, profile);
        match SaveNew(store, u)
        case None => CallbackResult(store, None)
        case Some(store') => CallbackResult(store', Some(u))
  }

  /** Running the callback a second time with the same profile finds the
      account the first run produced: at most one user is ever created. */
  lemma CallbackIdempotent(store: Store, id1: UserId, id2: UserId, profile: Profile)
    requires Indexed(store)
    ensures var first := GoogleCallback(store, id1, profile);
      first.user.Some? ==> GoogleCallback(first.store, id2, profile) == first
  {
    var first := GoogleCallback(store, id1, profile);
    if first.user.Some? {
      var u := first.user.value;
      assert u.id in first.store && first.store[u.id].googleId == Some(profile.id);
      var again := FindByGoogleId(first.store, profile.id);
      assert again == Some(u);
    }
  }

  /** When another account already owns the profile's email, the save is
      rejected: the callback reports an error and creates nothing. */
  lemma CallbackEmailTaken(store: Store, newId: UserId, profile: Profile, other: UserId)
    requires Indexed(store)
    requires |profile.emails| > 0
    requires other in store && store[other].email == profile.emails[0]
    requires forall id :: id in store ==> store[id].googleId != Some(profile.id)
    ensures GoogleCallback(store, newId, profile) == CallbackResult(store, None)
  {
  }

  /** `serializeUser`: the session keeps the user's id. */
  function SerializeUser(u: User): (id: UserId)
  {
    u.id
  }

  /** `deserializeUser`: `findById`, or `null` for an unknown id. */
  function DeserializeUser(store: Store, id: UserId): (r: Option<User>)
    ensures r.Some? <==> id in store
    ensures r.Some? ==> r.value == store[id]
  {
    if id in store then Some(store[id]) else None
  }

  /** Deserializing a serialized stored user yields that same user; the other
      way round, a user found by id serializes back to that id. */
  lemma SerializeRoundTrip(store: Store, u: User, id: UserId)
    requires Indexed(store)
    ensures u in store.Values ==> DeserializeUser(store, SerializeUser(u)) == Some(u)
    ensures DeserializeUser(store, id).Some? ==> SerializeUser(DeserializeUser(store, id).value) == id
  {
    if u in store.Values {
      var k :| k in store && store[k] == u;
    }
  }
}
