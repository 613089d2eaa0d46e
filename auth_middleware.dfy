/** backend/src/auth/auth.middleware.ts: `checkRole(role)`, run after the jwt middleware. */
module AuthMiddleware {
  import opened Wrappers
  import opened Crypto
  import opened Http

  const NoAuthorized: string := "No authorized"

  /** The token's role claim must equal `required` exactly. `payload` is `None` when reading the
      claims throws, which answers 500. */
  function CheckRole(required: string, payload: Option<Claims>): (g: Gate<Claims>)
    ensures g.Next? <==> payload.Some? && payload.value.role == required
    ensures g.Next? ==> g.value == payload.value
    ensures payload.Some? && payload.value.role != required ==> g == Halt(Response(403, Message(NoAuthorized)))
    ensures payload.None? ==> g.Halt? && g.response.status == 500
  {
    match payload
    case None => Halt(Response(500, Message("Server error")))
    case Some(claims) =>
      if claims.role != required then Halt(Response(403, Message(NoAuthorized)))
      else Next(claims)
  }

  /** There is no role hierarchy: an ADMIN token is refused on a route gated for USER. */
  lemma AdminRefusedOnUserRoute(sub: int, exp: int)
    ensures CheckRole("USER", Some(Claims(sub, "ADMIN", exp))) == Halt(Response(403, Message(NoAuthorized)))
  {
  }
}
