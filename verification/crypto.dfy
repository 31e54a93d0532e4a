/** The password hasher (bcrypt) and the token signer (JSON Web Tokens), kept
    abstract. Every operation that needs them takes a `Crypto` value; the
    properties the real libraries are relied on for are collected in `Sound`,
    which only the lemmas assume. */
module Crypto {
  import opened Base

  /** The signed payload `{userId}` of both tokens. */
  datatype Claims = Claims(userId: UserId)

  /** The two secrets read from the environment. */
  datatype Config = Config(accessSecret: string, refreshSecret: string)

  datatype Crypto = Crypto(
    hash: string -> string,               // bcrypt.hash(password, 12)
    compare: (string, string) -> bool,    // bcrypt.compare(password, hash)
    sign: (Claims, string) -> string,     // jwt.sign(payload, secret)
    verify: (string, string) -> Option<Claims>  // jwt.verify(token, secret)
  )

  /** What the libraries guarantee: a hash is a non-empty string against which
      its own password compares true; a token verifies, to its own payload,
      under the secret it was signed with and under no other secret. Token
      expiry is not modelled. */
  ghost predicate Sound(c: Crypto) {
    && (forall p :: c.hash(p) != "" && c.compare(p, c.hash(p)))
    && (forall cl, s :: c.verify(c.sign(cl, s), s) == Some(cl))
    && (forall cl, s1, s2 :: s1 != s2 ==> c.verify(c.sign(cl, s1), s2) == None)
  }

  /** JWTs are base64url segments joined by dots: they never contain a space. */
  ghost predicate SpaceFreeTokens(c: Crypto) {
    forall cl, s :: ' ' !in c.sign(cl, s) && c.sign(cl, s) != ""
  }
}
