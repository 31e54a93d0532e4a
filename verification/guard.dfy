/** The request guard `verifyToken` and the client's `Authorization` header. */
module Guard {
  import opened Base
  import opened Crypto
  import Text

  /** `authHeader.split(' ')[1]`: the second space-separated word, if there is
      a non-empty one. The first word is not looked at. */
  function ExtractToken(header: Option<string>): (t: Option<string>)
    ensures t.Some? ==> t.value != "" && ' ' !in t.value
    ensures !Truthy(header) ==> t.None?
    ensures Truthy(header) ==>
      var parts := Text.Split(header.value, ' ');
      t.Some? <==> |parts| >= 2 && parts[1] != ""
    ensures t.Some? ==> t.value == Text.Split(header.value, ' ')[1]
  {
    if !Truthy(header) then None
    else
      var parts := Text.Split(header.value, ' ');
      if |parts| >= 2 && parts[1] != "" then Some(parts[1]) else None
  }

  /** 401 with a message, or `next()` with `req.user` set to the payload. */
  datatype GuardOutcome = Unauthorized(message: string) | Next(user: Claims)

  /** `verifyToken`: no header or no token gives 401 "No token provided"; a
      token that fails verification under the access secret gives 401
      "Invalid token"; otherwise the request proceeds, once, as the user the
      token names. */
  function VerifyToken(c: Crypto, cfg: Config, header: Option<string>): (g: GuardOutcome)
    ensures g.Next? <==> ExtractToken(header).Some? && c.verify(ExtractToken(header).value, cfg.accessSecret).Some?
    ensures g.Next? ==> Some(g.user) == c.verify(ExtractToken(header).value, cfg.accessSecret)
    ensures ExtractToken(header).None? ==> g == Unauthorized("No token provided")
    ensures ExtractToken(header).Some? && c.verify(ExtractToken(header).value, cfg.accessSecret).None? ==>
      g == Unauthorized("Invalid token")
  {
    match ExtractToken(header)
    case None => Unauthorized("No token provided")
    case Some(token) =>
      match c.verify(token, cfg.accessSecret)
      case None => Unauthorized("Invalid token")
      case Some(claims) => Next(claims)
  }

  /** The client's request interceptor: a stored token that is truthy is sent
      as `Bearer <token>`; otherwise no header is sent. */
  function AuthorizationHeader(stored: Option<string>): (h: Option<string>)
    ensures h.Some? <==> Truthy(stored)
  {
    if Truthy(stored) then Some("Bearer " + stored.value) else None
  }

  /** Whatever the first word, the guard takes the word after the first space. */
  lemma ExtractAfterAnyScheme(scheme: string, token: string)
    requires ' ' !in scheme && ' ' !in token && token != ""
    ensures ExtractToken(Some(scheme + " " + token)) == Some(token)
  {
    Text.SplitFirst(scheme, ' ', token);
    Text.SplitNoSeparator(token, ' ');
    assert scheme + " " + token == scheme + [' '] + token;
  }

  /** The token is the second word even when more words follow it. */
  lemma ExtractSecondWord(scheme: string, token: string, rest: string)
    requires ' ' !in scheme && ' ' !in token && token != ""
    ensures ExtractToken(Some(scheme + " " + token + " " + rest)) == Some(token)
  {
    var h := scheme + " " + token + " " + rest;
    assert h == scheme + [' '] + (token + [' '] + rest);
    Text.SplitFirst(scheme, ' ', token + [' '] + rest);
    Text.SplitFirst(token, ' ', rest);
  }

  /** The header the client builds parses back to the token it was built from,
      whenever the token has no space. */
  lemma HeaderRoundTrip(token: string)
    requires token != "" && ' ' !in token
    ensures ExtractToken(AuthorizationHeader(Some(token))) == Some(token)
  {
    ExtractAfterAnyScheme("Bearer", token);
    assert "Bearer " + token == "Bearer" + " " + token;
  }

  /** "Bearer" alone and "Bearer" followed by two spaces carry no token. */
  lemma MalformedHeaders(x: string)
    ensures ExtractToken(Some("Bearer")) == None
    ensures ExtractToken(Some("Bearer  " + x)) == None
  {
    Text.SplitNoSeparator("Bearer", ' ');
    var h := "Bearer  " + x;
    assert h == "Bearer" + [' '] + (" " + x);
    Text.SplitFirst("Bearer", ' ', " " + x);
    assert " " + x == "" + [' '] + x;
    Text.SplitFirst("", ' ', x);
  }

  /** A token issued by the system with the access secret lets its user
      through; a refresh token does not, as the secrets differ. */
  lemma GuardAcceptsAccessTokens(c: Crypto, cfg: Config, id: UserId)
    requires Sound(c) && SpaceFreeTokens(c)
    ensures VerifyToken(c, cfg, AuthorizationHeader(Some(c.sign(Claims(id), cfg.accessSecret)))) == Next(Claims(id))
    ensures cfg.accessSecret != cfg.refreshSecret ==>
      VerifyToken(c, cfg, AuthorizationHeader(Some(c.sign(Claims(id), cfg.refreshSecret)))) == Unauthorized("Invalid token")
  {
    HeaderRoundTrip(c.sign(Claims(id), cfg.accessSecret));
    HeaderRoundTrip(c.sign(Claims(id), cfg.refreshSecret));
  }
}
