/** The HTTP surface the handlers share: a response is a status and a JSON body, the request body
    is a record of JSON fields, and hono's `jwt({ secret })` middleware guards bearer tokens. */
module Http {
  import opened Wrappers
  import opened Crypto

  /** A JSON field of a request body: a string, a missing key, or any other value (a number,
      null, an object ...). */
  datatype Field = Text(value: string) | Absent | Other

  /** The JSON bodies the handlers answer with. */
  datatype Reply =
    | Message(text: string)
      /** the validator's rejection, listing the issues (their content is not modelled) */
    | Issues
      /** `{ token, userId, role }` */
    | SessionBody(token: Jwt, userId: int, role: string)
      /** a bare JSON string */
    | Plain(text: string)
      /** `{ success: true }` */
    | SuccessFlag
      /** `{ message: 'Trip created succesfuly', tripId }` */
    | TripCreated(tripId: int)
      /** `{ message: 'Successfully added <n> cities', addedCount: n }` */
    | CitiesAdded(addedCount: int)

  datatype Response = Response(status: int, reply: Reply)

  /** What a middleware does: call the next handler, or answer itself. */
  datatype Gate<T> = Next(value: T) | Halt(response: Response)

  /** hono's `jwt({ secret })` middleware: a missing bearer token, or one that does not verify
      under `secret` at the current second, is answered with 401 before any handler runs. */
  function JwtGuard(secret: string, bearer: Option<Jwt>, nowMs: nat): (g: Gate<Claims>)
    ensures g.Next? <==> bearer.Some? && Verify(bearer.value, secret, nowMs / 1000).Success?
    ensures g.Next? ==> g.value == bearer.value.claims
    ensures g.Halt? ==> g.response.status == 401
  {
    match bearer
    case None => Halt(Response(401, Message("Unauthorized")))
    case Some(token) =>
      match Verify(token, secret, nowMs / 1000)
      case Success(claims) => Next(claims)
      case Failure(_) => Halt(Response(401, Message("Unauthorized")))
  }
}
