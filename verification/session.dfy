/** The client's session (`AuthProvider`): the signed-in user and access
    token, kept both in component state and in `localStorage`, and the route
    guard that reads them. */
module Session {
  import opened Base

  /** A JSON value, as `JSON.parse` produces it. */
  datatype Json =
    | JNull
    | JBool(b: bool)
    | JNumber(n: int)
    | JString(s: string)
    | JArray(items: seq<Json>)
    | JObject(fields: seq<(string, Json)>)

  /** `JSON.stringify` and `JSON.parse` (`None` when parsing throws). */
  datatype JsonCodec = JsonCodec(stringify: Json -> string, parse: string -> Option<Json>)

  /** What the model relies on: parsing what was stringified gives the value
      back, and a stringified value is neither empty nor "undefined" (the
      text of an object, array, string, number, boolean or null). For an
      object with a repeated key this is stronger than the real pair, which
      keeps only the last value; objects built in JavaScript never repeat a
      key, and the user objects stored here are such objects. */
  ghost predicate Sound(codec: JsonCodec) {
    forall v :: codec.parse(codec.stringify(v)) == Some(v)
      && codec.stringify(v) != "" && codec.stringify(v) != "undefined"
  }

  /** `localStorage`: string keys to string values. */
  type Storage = map<string, string>

  const UserKey: string := "user"
  const TokenKey: string := "accessToken"

  /** The provider's state. `user == None` is a missing user (`null` or
      `undefined`); `Some(v)` is whatever was parsed or passed in. */
  datatype State = State(user: Option<Json>, accessToken: string)

  datatype Client = Client(state: State, storage: Storage)

  /** The stored text under `key`, as `getItem` returns it. */
  function GetItem(storage: Storage, key: string): Option<string> {
    if key in storage then Some(storage[key]) else None
  }

  /** The `useState` initialiser of `user`: nothing stored, an empty string or
      the literal "undefined" give no user; otherwise the stored text is
      parsed, and text that does not parse gives no user and is removed. */
  function InitUser(codec: JsonCodec, storage: Storage): (r: (Option<Json>, Storage))
    ensures var stored := GetItem(storage, UserKey);
      && (!Truthy(stored) || stored.value == "undefined" ==> r == (None, storage))
      && ((Truthy(stored) && stored.value != "undefined" && codec.parse(stored.value).None?)
            ==> r.0.None? && r.1 == storage - {UserKey})
      && (r.0.Some? ==> Some(r.0.value) == codec.parse(storage[UserKey]) && r.1 == storage)
      && ((Truthy(stored) && stored.value != "undefined" && codec.parse(stored.value).Some?)
            ==> r == (codec.parse(stored.value), storage))
    ensures forall k :: k != UserKey ==> GetItem(r.1, k) == GetItem(storage, k)
  {
    var stored := GetItem(storage, UserKey);
    if !Truthy(stored) || stored.value == "undefined" then (None, storage)
    else match codec.parse(stored.value)
      case None => (None, storage - {UserKey})
      case Some(v) => (Some(v), storage)
  }

  /** The `useState` initialiser of `accessToken`: the stored token, or "". */
  function InitToken(storage: Storage): (t: string)
    ensures TokenKey in storage ==> t == storage[TokenKey]
    ensures TokenKey !in storage ==> t == ""
  {
    OrElse(GetItem(storage, TokenKey), "")
  }

  /** The provider on first render, before the mount effect runs. */
  function Mount(codec: JsonCodec, storage: Storage): (c: Client)
    ensures c.state.user == InitUser(codec, storage).0
    ensures c.state.accessToken == InitToken(storage)
    ensures c.storage == InitUser(codec, storage).1
  {
    var (user, storage') := InitUser(codec, storage);
    Client(State(user, InitToken(storage)), storage')
  }

  /** `handleLogin({ user, accessToken })`: both go into state and into
      storage; a missing user is stored as `JSON.stringify(undefined)`,
      which `setItem` writes as the text "undefined". */
  function HandleLogin(codec: JsonCodec, c: Client, user: Option<Json>, accessToken: string): (r: Client)
    ensures r.state == State(user, accessToken)
    ensures GetItem(r.storage, TokenKey) == Some(accessToken)
    ensures GetItem(r.storage, UserKey) == Some(if user.Some? then codec.stringify(user.value) else "undefined")
    ensures forall k :: k != UserKey && k != TokenKey ==> GetItem(r.storage, k) == GetItem(c.storage, k)
  {
    var stored := match user case Some(v) => codec.stringify(v) case None => "undefined";
    Client(State(user, accessToken), c.storage[TokenKey := accessToken][UserKey := stored])
  }

  /** `handleLogout`: the server call's outcome is not looked at; state and
      storage are cleared either way. */
  function HandleLogout(c: Client): (r: Client)
    ensures r.state.user.None? && r.state.accessToken == ""
    ensures UserKey !in r.storage && TokenKey !in r.storage
    ensures forall k :: k != UserKey && k != TokenKey ==> GetItem(r.storage, k) == GetItem(c.storage, k)
  {
    Client(State(None, ""), c.storage - {TokenKey, UserKey})
  }

  /** How the refresh request made on mount ended. */
  datatype RefreshResult = RefreshOk(accessToken: string) | RefreshFailed

  /** The mount effect: with a token in state a refresh is attempted; its
      success replaces only the token, its failure logs out. Without a token
      nothing happens. */
  function MountRefresh(c: Client, result: RefreshResult): (r: Client)
    ensures c.state.accessToken == "" ==> r == c
    ensures c.state.accessToken != "" && result.RefreshFailed? ==> r == HandleLogout(c)
    ensures c.state.accessToken != "" && result.RefreshOk? ==>
      && r.state == c.state.(accessToken := result.accessToken)
      && r.storage == c.storage[TokenKey := result.accessToken]
  {
    if c.state.accessToken == "" then c
    else match result
      case RefreshOk(t) => Client(c.state.(accessToken := t), c.storage[TokenKey := t])
      case RefreshFailed => HandleLogout(c)
  }

  /** `ProtectedRoute`: the nested routes render only with a truthy token;
      otherwise the client is sent to "/login". */
  predicate CanEnterProtected(s: State) {
    s.accessToken != ""
  }

  /** What a login writes is what the next page load reads back: the same
      user (a missing one included) and the same token, with storage left as
      it is. */
  lemma LoginThenReload(codec: JsonCodec, c: Client, user: Option<Json>, accessToken: string)
    requires Sound(codec)
    ensures var stored := HandleLogin(codec, c, user, accessToken).storage;
      Mount(codec, stored) == Client(State(user, accessToken), stored)
  {
    var stored := HandleLogin(codec, c, user, accessToken).storage;
    if user.Some? {
      assert codec.parse(codec.stringify(user.value)) == Some(user.value);
    }
    assert GetItem(stored, UserKey) == Some(if user.Some? then codec.stringify(user.value) else "undefined");
  }

  /** After a logout the next page load has no user and no token, and the
      protected routes are closed. */
  lemma LogoutThenReload(codec: JsonCodec, c: Client)
    ensures var stored := HandleLogout(c).storage;
      && Mount(codec, stored) == Client(State(None, ""), stored)
      && !CanEnterProtected(Mount(codec, stored).state)
  {
  }

  /** Corrupt stored user text is dropped once: the reload after it starts
      with no user and nothing under the user key. */
  lemma CorruptUserDropped(codec: JsonCodec, storage: Storage)
    requires UserKey in storage && storage[UserKey] != "" && storage[UserKey] != "undefined"
    requires codec.parse(storage[UserKey]).None?
    ensures var c := Mount(codec, storage);
      && c.state.user.None? && UserKey !in c.storage
      && Mount(codec, c.storage) == Client(State(None, c.state.accessToken), c.storage)
  {
  }

  /** The first render is settled: a second page load over the storage the
      first one left behind gives the same client, and only the user key can
      have been touched. */
  lemma MountIdempotent(codec: JsonCodec, storage: Storage)
    ensures Mount(codec, Mount(codec, storage).storage) == Mount(codec, storage)
    ensures forall k :: k != UserKey ==> GetItem(Mount(codec, storage).storage, k) == GetItem(storage, k)
  {
  }

  /** A login that carries a token opens the protected routes; the mount
      refresh keeps them open exactly when it succeeds with a token. */
  lemma ProtectedAfterLogin(codec: JsonCodec, c: Client, user: Option<Json>, accessToken: string, result: RefreshResult)
    ensures CanEnterProtected(HandleLogin(codec, c, user, accessToken).state) <==> accessToken != ""
    ensures var l := HandleLogin(codec, c, user, accessToken);
      CanEnterProtected(MountRefresh(l, result).state) <==>
        accessToken != "" && result.RefreshOk? && result.accessToken != ""
  {
  }
}
