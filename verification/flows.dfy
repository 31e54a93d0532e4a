/** Properties of the handlers taken together: what one request leaves behind
    for the next one, on the server and in the client. */
module Flows {
  import opened Base
  import opened Crypto
  import opened UserModel
  import opened Auth
  import opened GoogleAuth
  import Guard
  import Session

  /** A signup that succeeds is followed by a login with the same email and
      password that succeeds too. */
  lemma SignUpThenLogin(c: Crypto, cfg: Config, store: Store, newId: UserId,
                        username: string, email: string, password: string)
    requires Sound(c) && Indexed(store) && password != ""
    requires SignUp(c, cfg, store, newId, username, email, password).response.status == 201
    ensures Login(c, cfg, SignUp(c, cfg, store, newId, username, email, password).store, email, password).status == 200
  {
    var s := SignUp(c, cfg, store, newId, username, email, password).store;
    assert newId in s && s[newId].email == email;
    assert Truthy(s[newId].password) && c.compare(password, s[newId].password.value);
  }

  /** An account created through Google has the empty string as its
      password, so a password login with its email answers 500. */
  lemma GoogleAccountPasswordLogin(c: Crypto, cfg: Config, store: Store, newId: UserId,
                                   profile: Profile, password: string)
    requires ValidStore(store) && password != ""
    requires GoogleCallback(store, newId, profile).store != store
    ensures Login(c, cfg, GoogleCallback(store, newId, profile).store, profile.emails[0], password)
         == Response(500, KeepCookie, Message("User password is missing in the database"))
  {
    var s := GoogleCallback(store, newId, profile).store;
    assert s[newId] == GoogleAccount(newId, profile);
    assert ValidUser(s[newId]);
    assert !Truthy(s[newId].password);
    assert LoginDecision(c, s, profile.emails[0], password) == NoStoredPassword by {
      var found := FindByEmail(s, profile.emails[0]);
      assert found == Some(s[newId]);
    }
  }

  /** The client's reading of the refresh response: a 2xx response yields
      its token; any other status makes the request throw. */
  function ClientRefreshResult(r: Response): (result: Session.RefreshResult)
    ensures result.RefreshOk? <==> 200 <= r.status < 300 && r.body.Refreshed?
    ensures result.RefreshOk? ==> result.accessToken == r.body.accessToken
  {
    if 200 <= r.status < 300 && r.body.Refreshed? then Session.RefreshOk(r.body.accessToken)
    else Session.RefreshFailed
  }

  /** The refresh cookie set at login or signup buys an access token for the
      same user, which the guard then accepts. */
  lemma RefreshIssuesAccessToken(c: Crypto, cfg: Config, id: UserId)
    requires Sound(c) && SpaceFreeTokens(c)
    ensures var r := Refresh(c, cfg, Some(GenerateTokens(c, cfg, id).refreshToken));
      && r.status == 200
      && r.body == Refreshed(GenerateTokens(c, cfg, id).accessToken)
      && Guard.VerifyToken(c, cfg, Guard.AuthorizationHeader(Some(r.body.accessToken))) == Guard.Next(Claims(id))
  {
    Guard.GuardAcceptsAccessTokens(c, cfg, id);
  }

  /** An access token presented as the refresh cookie is refused with 403,
      whenever the two secrets differ. */
  lemma RefreshRejectsAccessToken(c: Crypto, cfg: Config, id: UserId)
    requires Sound(c) && SpaceFreeTokens(c) && cfg.accessSecret != cfg.refreshSecret
    ensures Refresh(c, cfg, Some(GenerateTokens(c, cfg, id).accessToken)).status == 403
  {
  }

  /** After a password login the client stores the access token and the text
      "undefined" for the user; the page load that follows, with the cookie
      the login set, stays signed in with a fresh access token for the same
      user and no user object. */
  lemma LoginReloadRefresh(c: Crypto, cfg: Config, codec: Session.JsonCodec,
                           client: Session.Client, id: UserId)
    requires Sound(c) && SpaceFreeTokens(c) && Session.Sound(codec)
    ensures var tokens := GenerateTokens(c, cfg, id);
      var loggedIn := Session.HandleLogin(codec, client, None, tokens.accessToken);
      var reloaded := Session.Mount(codec, loggedIn.storage);
      var refreshed := Session.MountRefresh(reloaded, ClientRefreshResult(Refresh(c, cfg, Some(tokens.refreshToken))));
      && reloaded.state == Session.State(None, tokens.accessToken)
      && Session.CanEnterProtected(refreshed.state)
      && c.verify(refreshed.state.accessToken, cfg.accessSecret) == Some(Claims(id))
  {
    var tokens := GenerateTokens(c, cfg, id);
    Session.LoginThenReload(codec, client, None, tokens.accessToken);
    RefreshIssuesAccessToken(c, cfg, id);
  }

  /** With no refresh cookie (after the server's logout cleared it) the mount
      refresh fails, and a client holding a token is logged out. */
  lemma MountWithoutCookieLogsOut(c: Crypto, cfg: Config, client: Session.Client)
    requires client.state.accessToken != ""
    ensures Logout().cookie == ClearRefreshCookie
    ensures Session.MountRefresh(client, ClientRefreshResult(Refresh(c, cfg, None)))
         == Session.HandleLogout(client)
  {
  }

  /** Logging out ends the server side of the session: whatever cookie the
      browser held, the next refresh finds none and answers 401. */
  lemma LogoutThenRefresh(c: Crypto, cfg: Config, jar: Option<string>)
    ensures Logout().status == 200
    ensures Refresh(c, cfg, CookieAfter(jar, Logout().cookie)).status == 401
  {
  }

  /** The cookie a login sets is the one the next refresh reads: it buys an
      access token for the user who logged in. */
  lemma LoginThenRefresh(c: Crypto, cfg: Config, store: Store, email: string, password: string, jar: Option<string>)
    requires Sound(c) && SpaceFreeTokens(c) && Indexed(store)
    requires Login(c, cfg, store, email, password).status == 200
    ensures forall id :: id in store && store[id].email == email ==>
      Refresh(c, cfg, CookieAfter(jar, Login(c, cfg, store, email, password).cookie))
        == Response(200, KeepCookie, Refreshed(GenerateTokens(c, cfg, id).accessToken))
  {
    var r := Login(c, cfg, store, email, password);
    var id' :| id' in store && store[id'].email == email &&
      r == Response(200, SetRefreshCookie(GenerateTokens(c, cfg, id').refreshToken),
                    LoggedIn("Login successful", GenerateTokens(c, cfg, id').accessToken));
    var cookie := CookieAfter(jar, r.cookie);
    assert cookie == Some(GenerateTokens(c, cfg, id').refreshToken);
    assert c.verify(cookie.value, cfg.refreshSecret) == Some(Claims(id'));
    forall id | id in store && store[id].email == email
      ensures Refresh(c, cfg, cookie) == Response(200, KeepCookie, Refreshed(GenerateTokens(c, cfg, id).accessToken))
    {
      assert store[id].email == store[id'].email;
      assert id == id';
    }
  }
}
