/** Signing and verifying tokens: times are floored to seconds, and a token is refused once the
    floored clock reaches its `exp` claim (section 4.1.4 of RFC 7519). */
module Jwt {
  import opened Domain

  function Sign(secret: string, sub: Uuid, email: string, role: Role, jti: Uuid, tokenType: TokenType,
                ttl: nat, nowMs: nat): Token
  {
    Signed(secret, Claims(sub, email, role, Some(jti), tokenType, nowMs / 1000, nowMs / 1000 + ttl))
  }

  function SignAccess(cfg: Config, sub: Uuid, email: string, role: Role, jti: Uuid, nowMs: nat): Token {
    Sign(cfg.accessSecret, sub, email, role, jti, Access, cfg.accessTtl, nowMs)
  }

  function SignRefresh(cfg: Config, sub: Uuid, email: string, role: Role, jti: Uuid, nowMs: nat): Token {
    Sign(cfg.refreshSecret, sub, email, role, jti, Refresh, cfg.refreshTtl, nowMs)
  }

  function Verify(token: Token, secret: string, nowMs: nat): Result<Claims, Reason> {
    if token.Malformed? || token.secret != secret then Err(InvalidToken)
    else if nowMs / 1000 >= token.claims.exp then Err(TokenExpired)
    else Ok(token.claims)
  }

  /** A token verifies under its own secret only, and, counted in milliseconds from its signing, for
      at least `ttl` seconds less 999 ms and never `ttl` seconds or longer. */
  lemma Lifetime(secret: string, other: string, sub: Uuid, email: string, role: Role, jti: Uuid,
                 tokenType: TokenType, ttl: nat, signedAt: nat, t: nat)
    ensures var token := Sign(secret, sub, email, role, jti, tokenType, ttl, signedAt);
            && (Verify(token, other, t).Ok? ==> other == secret && Verify(token, other, t).value == token.claims)
            && (t + 999 < signedAt + 1000 * ttl ==> Verify(token, secret, t).Ok?)
            && (signedAt + 1000 * ttl <= t ==> Verify(token, secret, t) == Err(TokenExpired))
  {
    if signedAt + 1000 * ttl <= t {
      assert signedAt / 1000 + ttl == (signedAt + 1000 * ttl) / 1000;
    }
  }

  /** Once refused, a token is refused for good. */
  lemma RefusalIsPermanent(token: Token, secret: string, t0: nat, t1: nat)
    requires t0 <= t1 && Verify(token, secret, t0).Err?
    ensures Verify(token, secret, t1).Err?
  {
    assert t0 / 1000 <= t1 / 1000;
  }
}
