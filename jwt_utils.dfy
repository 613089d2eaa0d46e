/** backend/src/jwt/jwt.utils.ts: issuing and checking access and refresh tokens. */
module JwtUtils {
  import opened Wrappers
  import opened Crypto

  /** Lifetimes in seconds: seven days for a refresh token, fifteen minutes for an access token. */
  const RefreshLifetime: int := 7 * 24 * 60 * 60
  const AccessLifetime: int := 15 * 60

  const DefaultRefreshSecret: string := "jwt-secret-rt"
  const DefaultAccessSecret: string := "jwt-secret-at"

  /** The single error every verification failure is turned into. */
  const InvalidToken: string := "Invalid token"

  /** The two signing secrets. */
  datatype Secrets = Secrets(refresh: string, access: string)

  /** `process.env.JWT_SECRET_RT ?? 'jwt-secret-rt'` and `process.env.JWT_SECRET_AT ?? 'jwt-secret-at'`:
      a variable that is set wins, even when empty. */
  function SecretsFrom(envRefresh: Option<string>, envAccess: Option<string>): (s: Secrets)
    ensures envRefresh.Some? ==> s.refresh == envRefresh.value
    ensures envAccess.Some? ==> s.access == envAccess.value
    ensures envRefresh.None? && envAccess.None? ==> s.refresh != s.access
  {
    Secrets(envRefresh.GetOr(DefaultRefreshSecret), envAccess.GetOr(DefaultAccessSecret))
  }

  function SecretFor(secrets: Secrets, isRefresh: bool): string {
    if isRefresh then secrets.refresh else secrets.access
  }

  function Lifetime(isRefresh: bool): int {
    if isRefresh then RefreshLifetime else AccessLifetime
  }

  /** `Math.floor(ms / 1000)`: the clock in whole seconds. */
  function Seconds(nowMs: nat): nat {
    nowMs / 1000
  }

  /** `generateToken(userId, role, isRefresh)` at the clock reading `nowMs` (milliseconds). */
  function GenerateToken(secrets: Secrets, userId: int, role: string, isRefresh: bool, nowMs: nat): (t: Jwt)
    ensures t.Signed? && t.claims.sub == userId && t.claims.role == role
    ensures isRefresh ==> t.key == secrets.refresh && t.claims.exp == nowMs / 1000 + 604800
    ensures !isRefresh ==> t.key == secrets.access && t.claims.exp == nowMs / 1000 + 900
  {
    var time := Lifetime(isRefresh);
    var secret := SecretFor(secrets, isRefresh);
    Sign(Claims(userId, role, Seconds(nowMs) + time), secret)
  }

  /** `verifyToken(token, isRefresh)` at the clock reading `nowMs`: the claims, or the one error
      'Invalid token' whatever the cause. */
  function VerifyToken(secrets: Secrets, token: Jwt, isRefresh: bool, nowMs: nat): (r: Result<Claims, string>)
    ensures r.Failure? ==> r.error == InvalidToken
    ensures r.Success? <==> Verify(token, SecretFor(secrets, isRefresh), Seconds(nowMs)).Success?
    ensures r.Success? ==> r.value == token.claims
  {
    var secret := SecretFor(secrets, isRefresh);
    match Verify(token, secret, Seconds(nowMs))
    case Success(claims) => Success(claims)
    case Failure(_) => Failure(InvalidToken)
  }

  /** A token issued at `issuedMs` verifies under the same flag exactly while the clock, in whole
      seconds, is below the issue second plus the lifetime, and then yields the claims it was
      issued with. */
  lemma IssuedTokenVerifies(secrets: Secrets, userId: int, role: string, isRefresh: bool, issuedMs: nat, nowMs: nat)
    ensures var t := GenerateToken(secrets, userId, role, isRefresh, issuedMs);
            var r := VerifyToken(secrets, t, isRefresh, nowMs);
            (r.Success? <==> nowMs / 1000 < issuedMs / 1000 + Lifetime(isRefresh))
            && (r.Success? ==> r.value == Claims(userId, role, issuedMs / 1000 + Lifetime(isRefresh)))
  {
  }

  /** With distinct secrets (as the defaults are), a token verifies only under the flag it was
      issued with: an access token is never accepted as a refresh token and vice versa. */
  lemma TokenKindsDoNotCross(secrets: Secrets, userId: int, role: string, isRefresh: bool, issuedMs: nat, nowMs: nat)
    requires secrets.refresh != secrets.access
    ensures VerifyToken(secrets, GenerateToken(secrets, userId, role, isRefresh, issuedMs), !isRefresh, nowMs)
            == Failure(InvalidToken)
  {
  }

  /** Expired, garbled and wrongly signed tokens are reported identically. */
  lemma FailuresIndistinguishable(secrets: Secrets, t1: Jwt, t2: Jwt, isRefresh: bool, nowMs: nat)
    requires Verify(t1, SecretFor(secrets, isRefresh), Seconds(nowMs)).Failure?
    requires Verify(t2, SecretFor(secrets, isRefresh), Seconds(nowMs)).Failure?
    ensures VerifyToken(secrets, t1, isRefresh, nowMs) == VerifyToken(secrets, t2, isRefresh, nowMs)
  {
  }
}
