/** The settings handlers: reading the profile projection, the partial update,
    and the choice of the live connection that hears about the update. */
module UserSettings {
  import opened Base
  import opened UserModel

  /** The `settings` object of an update request, restricted to the keys the
      schema declares (the database layer drops any other key). */
  datatype SettingsPatch = SettingsPatch(
    currency: Option<string>,
    notifications: Option<string>,
    whatsappNumber: Option<string>,
    whatsappConnected: Option<bool>)

  datatype UpdateRequest = UpdateRequest(
    username: Option<string>,
    email: Option<string>,
    profilePic: Option<string>,
    settings: Option<SettingsPatch>)

  /** `getUserSettings`: 404 for an unknown id, otherwise the projection, which
      carries neither the password nor the googleId. */
  datatype ReadResponse = UserNotFound | SettingsOf(view: UserView)

  function GetUserSettings(store: Store, id: UserId): (r: ReadResponse)
    ensures r.UserNotFound? <==> id !in store
    ensures r.SettingsOf? ==>
      var u := store[id];
      r.view.username == u.username && r.view.email == u.email &&
      r.view.profilePic == u.profilePic && r.view.settings == u.settings
  {
    if id in store then SettingsOf(View(store[id])) else UserNotFound
  }

  /** Each key present in the patch overwrites that key, whatever its value
      (even "" or false); the other keys are kept. */
  function ApplyPatch(s: Settings, p: SettingsPatch): (r: Settings)
    ensures p == SettingsPatch(None, None, None, None) ==> r == s
    ensures r.currency == (if p.currency.Some? then p.currency.value else s.currency)
    ensures r.notifications == (if p.notifications.Some? then p.notifications.value else s.notifications)
    ensures r.whatsappNumber == (if p.whatsappNumber.Some? then p.whatsappNumber.value else s.whatsappNumber)
    ensures r.whatsappConnected == (if p.whatsappConnected.Some? then p.whatsappConnected.value else s.whatsappConnected)
  {
    Settings(
      match p.currency case Some(v) => v case None => s.currency,
      match p.notifications case Some(v) => v case None => s.notifications,
      match p.whatsappNumber case Some(v) => v case None => s.whatsappNumber,
      match p.whatsappConnected case Some(v) => v case None => s.whatsappConnected)
  }

  /** The `$set` document applied to one user: username, email and profilePic
      only when the request supplies a truthy value, settings key by key. */
  function ApplyUpdate(u: User, req: UpdateRequest): (r: User)
    ensures r.id == u.id && r.password == u.password && r.googleId == u.googleId
    ensures r.username == OrElse(req.username, u.username)
    ensures r.email == OrElse(req.email, u.email)
    ensures r.profilePic == (if Truthy(req.profilePic) then req.profilePic else u.profilePic)
    ensures req.settings.None? ==> r.settings == u.settings
    ensures req.settings.Some? ==> r.settings == ApplyPatch(u.settings, req.settings.value)
    ensures req == UpdateRequest(None, None, None, None) ==> r == u
    ensures ValidUser(u) ==> ValidUser(r)
  {
    u.(username := OrElse(req.username, u.username),
       email := OrElse(req.email, u.email),
       profilePic := if Truthy(req.profilePic) then req.profilePic else u.profilePic,
       settings := match req.settings case Some(p) => ApplyPatch(u.settings, p) case None => u.settings)
  }

  /** The `settingsUpdated` event: the connection it goes to and its payload. */
  datatype Emit = Emit(socketId: string, payload: Option<UserView>)

  /** The user's registered connection, if a (truthy) one is registered. */
  function SocketTarget(sockets: map<UserId, string>, id: UserId): (r: Option<string>)
    ensures r.Some? <==> id in sockets && sockets[id] != ""
    ensures r.Some? ==> r.value == sockets[id]
  {
    if id in sockets && sockets[id] != "" then Some(sockets[id]) else None
  }

  /** `updateUserSettings`'s responses: 200 with the updated projection, 200
      with `null` for an unknown id, or 500 when the update is rejected. */
  datatype UpdateResponse = Updated(view: UserView) | UpdatedNothing | UpdateFailed

  datatype UpdateOutcome = UpdateOutcome(store: Store, response: UpdateResponse, emit: Option<Emit>)

  /** `findByIdAndUpdate` with `$set`, then the socket notification. An email
      that another user already owns violates the unique index: 500, nothing
      changed and nothing emitted. */
  function UpdateUserSettings(store: Store, sockets: map<UserId, string>, id: UserId, req: UpdateRequest): (o: UpdateOutcome)
    requires Indexed(store)
    ensures Indexed(o.store)
    ensures ValidStore(store) ==> ValidStore(o.store)
    ensures o.store.Keys == store.Keys
    ensures forall other :: other in store && other != id ==> o.store[other] == store[other]
    ensures id !in store ==> o.store == store
    ensures o.response.UpdatedNothing? <==> id !in store
    ensures o.response.UpdateFailed? <==>
      id in store && Truthy(req.email) &&
      exists other :: other in store && other != id && store[other].email == req.email.value
    ensures o.response.UpdateFailed? ==> o.store == store && o.emit.None?
    ensures o.response.Updated? ==> o.store == store[id := ApplyUpdate(store[id], req)]
                                    && o.response.view == View(o.store[id])
    ensures o.emit.Some? ==> SocketTarget(sockets, id) == Some(o.emit.value.socketId)
    ensures o.emit.Some? ==> o.emit.value.payload == (if o.response.Updated? then Some(o.response.view) else None)
    ensures !o.response.UpdateFailed? ==> (o.emit.Some? <==> SocketTarget(sockets, id).Some?)
  {
    if id !in store then
      var emit := match SocketTarget(sockets, id) case Some(s) => Some(Emit(s, None)) case None => None;
      UpdateOutcome(store, UpdatedNothing, emit)
    else
      var u := ApplyUpdate(store[id], req);
      if exists other :: other in store && other != id && store[other].email == u.email then
        UpdateOutcome(store, UpdateFailed, None)
      else
        var store' := store[id := u];
        var emit := match SocketTarget(sockets, id) case Some(s) => Some(Emit(s, Some(View(u)))) case None => None;
        UpdateOutcome(store', Updated(View(u)), emit)
  }

  /** An update by one user never reaches another user's connection, as long
      as each connection is registered for one user only. */
  lemma UpdateNotifiesOnlyRequester(store: Store, sockets: map<UserId, string>, id: UserId, req: UpdateRequest, other: UserId)
    requires Indexed(store)
    requires forall a, b :: a in sockets && b in sockets && sockets[a] == sockets[b] ==> a == b
    requires other != id && other in sockets
    ensures UpdateUserSettings(store, sockets, id, req).emit.Some? ==>
      UpdateUserSettings(store, sockets, id, req).emit.value.socketId != sockets[other]
  {
  }

  /** What an update answers is what the next read returns: the updated
      projection for the requester, with the new settings and profile. */
  lemma UpdateThenRead(store: Store, sockets: map<UserId, string>, id: UserId, req: UpdateRequest)
    requires Indexed(store)
    ensures var o := UpdateUserSettings(store, sockets, id, req);
      && (o.response.Updated? ==> GetUserSettings(o.store, id) == SettingsOf(o.response.view))
      && (o.response.Updated? ==>
            GetUserSettings(o.store, id).view.settings
              == (if req.settings.Some? then ApplyPatch(store[id].settings, req.settings.value) else store[id].settings))
      && (!o.response.Updated? ==> GetUserSettings(o.store, id) == GetUserSettings(store, id))
  {
  }
}
