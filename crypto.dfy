/** Stand-ins for the foreign primitives the backend calls: HMAC JSON Web Tokens (`sign` and
    `verify` from hono/jwt) and the salted password hash (`Bun.password.hash` and
    `Bun.password.verify`). Each is a concrete, injective construction, so the properties the
    backend relies on are lemmas here rather than assumptions. */
module Crypto {
  import opened Wrappers

  /** The claims the backend puts in a token: subject (user id), role and expiry in whole seconds. */
  datatype Claims = Claims(sub: int, role: string, exp: int)

  /** A compact token. A token signed with `key` carries its claims and that key; any string that
      is not a well-formed token is `Garbled`. */
  datatype Jwt = Signed(claims: Claims, key: string) | Garbled(text: string)

  /** The three ways `verify` rejects a token. */
  datatype JwtError = TokenInvalid | TokenExpired | SignatureMismatched

  function Sign(claims: Claims, key: string): Jwt {
    Signed(claims, key)
  }

  /** `verify(token, key)` at the time `nowSec` (whole seconds): a malformed token is refused
      first, then an expired one (an `exp` of 0 is not checked), then one signed with another key. */
  function Verify(token: Jwt, key: string, nowSec: int): (r: Result<Claims, JwtError>)
    ensures r.Success? <==>
              token.Signed? && token.key == key && (token.claims.exp == 0 || nowSec < token.claims.exp)
    ensures r.Success? ==> r.value == token.claims
  {
    match token
    case Garbled(_) => Failure(TokenInvalid)
    case Signed(claims, signer) =>
      if claims.exp != 0 && claims.exp <= nowSec then Failure(TokenExpired)
      else if signer != key then Failure(SignatureMismatched)
      else Success(claims)
  }

  /** A signed token verifies under its own key before its expiry, and under no other key. */
  lemma SignThenVerify(claims: Claims, key: string, other: string, nowSec: int)
    requires claims.exp != 0
    ensures Verify(Sign(claims, key), key, nowSec) ==
              (if nowSec < claims.exp then Success(claims) else Failure(TokenExpired))
    ensures other != key ==> Verify(Sign(claims, key), other, nowSec).Failure?
  {
  }

  /** A salted hash. Only `VerifyHash` looks inside it. */
  datatype Digest<T> = Digest(preimage: T)

  function Hash<T>(x: T): Digest<T> {
    Digest(x)
  }

  predicate VerifyHash<T(==)>(x: T, d: Digest<T>) {
    d.preimage == x
  }

  /** A value matches its own hash and no other value does. */
  lemma HashThenVerify<T>(x: T, y: T)
    ensures VerifyHash(x, Hash(x))
    ensures VerifyHash(y, Hash(x)) <==> y == x
  {
  }
}
