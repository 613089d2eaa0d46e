/** backend/src/trip/trip.middleware.ts: `checkTripOwner`, which lets a request through only
    for a trip the caller owns and hands that trip to the handler. */
module TripMiddleware {
  import opened Wrappers
  import opened Crypto
  import opened Schema
  import opened Http

  const ForbiddenRequest: string := "Forbidden request"

  /** `findTripByIdAndUserId`: `where userId = userId and id = tripId`. */
  function FindTripByIdAndUserId(trips: map<int, Trip>, tripId: int, userId: int): (r: Option<Trip>)
    ensures r.Some? <==> tripId in trips && trips[tripId].userId == userId
    ensures r.Some? ==> r.value == trips[tripId]
  {
    if tripId in trips && trips[tripId].userId == userId then Some(trips[tripId]) else None
  }

  /** `payload` is `None` when reading the claims throws; `tripId` is `None` when the route
      parameter is not a number, which makes the query throw. Both answer 500. */
  function CheckTripOwner(payload: Option<Claims>, tripId: Option<int>, trips: map<int, Trip>): (g: Gate<Trip>)
    ensures g.Next? <==> payload.Some? && tripId.Some? && tripId.value in trips
                         && trips[tripId.value].userId == payload.value.sub
    ensures g.Next? ==> g.value == trips[tripId.value]
    ensures g.Halt? ==> g.response.status in {404, 500}
    ensures g.Halt? && payload.Some? && tripId.Some? ==> g.response == Response(404, Message(ForbiddenRequest))
  {
    if payload.None? || tripId.None? then Halt(Response(500, Message("Server error")))
    else
      match FindTripByIdAndUserId(trips, tripId.value, payload.value.sub)
      case None => Halt(Response(404, Message(ForbiddenRequest)))
      case Some(trip) => Next(trip)
  }

  /** Another user's trip and a trip that does not exist are answered alike, so the answer does
      not reveal which trip ids exist. */
  lemma ForeignTripLooksMissing(claims: Claims, tripId: int, trips: map<int, Trip>)
    requires tripId in trips && trips[tripId].userId != claims.sub
    ensures CheckTripOwner(Some(claims), Some(tripId), trips) == CheckTripOwner(Some(claims), Some(tripId), trips - {tripId})
  {
  }
}
