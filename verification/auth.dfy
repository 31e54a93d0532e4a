/** The authentication handlers: token generation, signup, login, refresh and
    logout, each as a function from the store and the request to the new store
    and the HTTP response. */
module Auth {
  import opened Base
  import opened Crypto
  import opened UserModel

  datatype TokenPair = TokenPair(accessToken: string, refreshToken: string)

  /** What a handler does to the `refreshToken` cookie. */
  datatype CookieEffect = KeepCookie | SetRefreshCookie(token: string) | ClearRefreshCookie

  datatype Body =
    | Message(message: string)
    | SignedUp(message: string, accessToken: string, user: PublicUser)
    | LoggedIn(message: string, accessToken: string)
    | Refreshed(accessToken: string)

  datatype Response = Response(status: nat, cookie: CookieEffect, body: Body)

  /** A handler's response together with the store after it ran. */
  datatype Outcome = Outcome(store: Store, response: Response)

  /** Both tokens carry `{userId}`; the access token is signed with the access
      secret and the refresh token with the refresh secret. */
  function GenerateTokens(c: Crypto, cfg: Config, id: UserId): (t: TokenPair)
    ensures Sound(c) ==> c.verify(t.accessToken, cfg.accessSecret) == Some(Claims(id))
    ensures Sound(c) ==> c.verify(t.refreshToken, cfg.refreshSecret) == Some(Claims(id))
    ensures Sound(c) && cfg.accessSecret != cfg.refreshSecret ==>
      && c.verify(t.accessToken, cfg.refreshSecret) == None
      && c.verify(t.refreshToken, cfg.accessSecret) == None
  {
    TokenPair(c.sign(Claims(id), cfg.accessSecret), c.sign(Claims(id), cfg.refreshSecret))
  }

  /** The user a signup creates: hashed password, no googleId, default
      settings. The stored hash, not the password, is what a later login
      compares against, and the account passes the schema exactly when
      username, email and hash are non-empty. */
  function NewAccount(c: Crypto, id: UserId, username: string, email: string, password: string): (u: User)
    ensures Sound(c) ==> Truthy(u.password) && c.compare(password, u.password.value)
    ensures ValidUser(u) <==> username != "" && email != "" && c.hash(password) != ""
    ensures u.id == id && u.email == email && u.googleId.None? && u.settings == DefaultSettings
  {
    User(id, username, email, Some(c.hash(password)), None, None, DefaultSettings)
  }

  /** `userSignUp`: a registered email gives 400 and changes nothing; otherwise
      the hashed password is saved and 201 returns the access token and the
      public user, with the refresh token in the cookie. A failed save (an
      empty username or email, or an ObjectId already in use) gives 500. */
  function SignUp(c: Crypto, cfg: Config, store: Store, newId: UserId,
                  username: string, email: string, password: string): (o: Outcome)
    requires Indexed(store)
    ensures Indexed(o.store)
    ensures ValidStore(store) ==> ValidStore(o.store)
    ensures o.response.status in {201, 400, 500}
    ensures o.response.status != 201 ==> o.store == store && o.response.cookie == KeepCookie
    ensures (exists id :: id in store && store[id].email == email) <==> o.response.status == 400
    ensures o.response.status == 201 <==>
      && (forall id :: id in store ==> store[id].email != email)
      && newId !in store && username != "" && email != "" && c.hash(password) != ""
    ensures o.response.status == 201 ==>
      && o.store == store[newId := User(newId, username, email, Some(c.hash(password)), None, None, DefaultSettings)]
      && o.response.body.SignedUp?
      && o.response.body.user == PublicUser(newId, username, email)
      && o.response.cookie == SetRefreshCookie(GenerateTokens(c, cfg, newId).refreshToken)
      && o.response.body.accessToken == GenerateTokens(c, cfg, newId).accessToken
  {
    if FindByEmail(store, email).Some? then
      Outcome(store, Response(400, KeepCookie, Message("User Already Exist")))
    else
      var u := NewAccount(c, newId, username, email, password);
      match SaveNew(store, u)
      case None =>
        Outcome(store, Response(500, KeepCookie, Message("Error in Signing Up")))
      case Some(store') =>
        var tokens := GenerateTokens(c, cfg, newId);
        Outcome(store', Response(201, SetRefreshCookie(tokens.refreshToken),
                                 SignedUp("User Created Successfully", tokens.accessToken,
                                          PublicUser(newId, username, email))))
  }

  /** Where a login stops. */
  datatype LoginStep = MissingFields | UnknownEmail | NoStoredPassword | WrongPassword | LoginAccepted(user: User)

  /** The decision table of `userLogin`, before any response is built. */
  function LoginDecision(c: Crypto, store: Store, email: string, password: string): (d: LoginStep)
    requires Indexed(store)
    ensures d.LoginAccepted? ==> d.user.id in store && store[d.user.id] == d.user && d.user.email == email
  {
    if email == "" || password == "" then MissingFields
    else match FindByEmail(store, email)
      case None => UnknownEmail
      case Some(u) =>
        if !Truthy(u.password) then NoStoredPassword
        else if !c.compare(password, u.password.value) then WrongPassword
        else LoginAccepted(u)
  }

  /** `userLogin`: 400 for missing fields, an unknown email or a wrong
      password; 500 when the account has no password; otherwise 200 with the
      access token (and no user object) and the refresh token in the cookie.
      The store is never changed. */
  function Login(c: Crypto, cfg: Config, store: Store, email: string, password: string): (r: Response)
    requires Indexed(store)
    ensures r.status in {200, 400, 500}
    ensures (email == "" || password == "") ==> r == Response(400, KeepCookie, Message("Email and password are required"))
    ensures r.status == 200 <==>
      email != "" && password != "" &&
      exists id :: (id in store && store[id].email == email
                    && Truthy(store[id].password) && c.compare(password, store[id].password.value))
    ensures r.status == 200 ==> exists id :: (id in store && store[id].email == email &&
      r == Response(200, SetRefreshCookie(GenerateTokens(c, cfg, id).refreshToken),
                    LoggedIn("Login successful", GenerateTokens(c, cfg, id).accessToken)))
    ensures r.status == 500 <==>
      email != "" && password != "" && exists id :: id in store && store[id].email == email && !Truthy(store[id].password)
  {
    match LoginDecision(c, store, email, password)
    case MissingFields => Response(400, KeepCookie, Message("Email and password are required"))
    case UnknownEmail => Response(400, KeepCookie, Message("User does not exist!"))
    case NoStoredPassword => Response(500, KeepCookie, Message("User password is missing in the database"))
    case WrongPassword => Response(400, KeepCookie, Message("Invalid Password"))
    case LoginAccepted(u) =>
      var tokens := GenerateTokens(c, cfg, u.id);
      Response(200, SetRefreshCookie(tokens.refreshToken), LoggedIn("Login successful", tokens.accessToken))
  }

  /** `refreshToken`: no cookie gives 401, a token that fails verification
      under the refresh secret gives 403, otherwise 200 with a fresh access
      token for the decoded user id. The cookie is never replaced. */
  function Refresh(c: Crypto, cfg: Config, cookie: Option<string>): (r: Response)
    ensures r.cookie == KeepCookie
    ensures !Truthy(cookie) ==> r.status == 401
    ensures Truthy(cookie) && c.verify(cookie.value, cfg.refreshSecret).None? ==> r.status == 403
    ensures r.status == 200 <==> Truthy(cookie) && c.verify(cookie.value, cfg.refreshSecret).Some?
    ensures r.status == 200 ==>
      r.body == Refreshed(c.sign(c.verify(cookie.value, cfg.refreshSecret).value, cfg.accessSecret))
  {
    if !Truthy(cookie) then
      Response(401, KeepCookie, Message("Refresh Token not Provided"))
    else match c.verify(cookie.value, cfg.refreshSecret)
      case None => Response(403, KeepCookie, Message("Invalid Refresh Token"))
      case Some(claims) => Response(200, KeepCookie, Refreshed(c.sign(Claims(claims.userId), cfg.accessSecret)))
  }

  /** The browser's `refreshToken` cookie after a response with the given
      effect: set, cleared, or left as it was. */
  function CookieAfter(jar: Option<string>, effect: CookieEffect): (r: Option<string>)
    ensures effect.KeepCookie? ==> r == jar
    ensures effect.SetRefreshCookie? ==> r == Some(effect.token)
    ensures effect.ClearRefreshCookie? ==> !Truthy(r)
  {
    match effect
    case KeepCookie => jar
    case SetRefreshCookie(t) => Some(t)
    case ClearRefreshCookie => None
  }

  /** `logout`: always 200, and the refresh cookie is cleared. */
  function Logout(): (r: Response)
    ensures r.status == 200 && r.cookie == ClearRefreshCookie
  {
    Response(200, ClearRefreshCookie, Message("Logout Successfull"))
  }
}
