/**
 * The session token (lib/jwt.ts and the edge verifier in middleware.ts). Signing and
 * verification are foreign code: handlers receive verification as a function from the
 * token to a verdict and issuance as a function from claims to a token.
 */
module Session {
  import opened Ids
  import opened Http

  /** The claims a token carries: `userId`, `name` and `role` (`iat`/`exp` stay inside the verifier). */
  datatype Claims = Claims(userId: IdParam, name: string, role: string)

  /** The outcome of checking a token's signature and expiry. */
  datatype Verdict = Verified(claims: Claims) | Rejected

  const TokenCookie: string := "token"

  /** One day, the `maxAge` of the session cookie and the token's `expiresIn`. */
  const SessionSeconds: nat := 24 * 60 * 60

  /** The session cookie as `setTokenCookie` and the login route set it. */
  function TokenCookieFor(token: string, secure: bool, sameSite: string): (c: Cookie)
    ensures c.name == "token" && c.value == token && c.httpOnly && c.path == "/"
    ensures c.maxAge == 86400 && c.secure == secure && c.sameSite == sameSite
  {
    Cookie(TokenCookie, token, true, secure, sameSite, "/", SessionSeconds)
  }
}
