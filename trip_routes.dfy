/** backend/src/trip/trip.routes.ts: the router-wide gate (a valid access token whose role is
    exactly USER), trip creation, and `POST /:id/cities`, which links cities to a trip. Each
    handler is specified as a function on the trip tables; the class `TripServer` runs them in
    place and is proved to follow the specification. */
module TripRoutes {
  import opened Wrappers
  import opened Crypto
  import opened JwtUtils
  import opened Schema
  import opened Http
  import opened SeqUtil
  import opened IsoDate
  import opened AuthMiddleware
  import opened TripSchema
  import opened TripMiddleware

  const CitiesUnknown: string := "One or more cities do not exist"
  const AlreadyLinked: string := "All selected cities were already in the trip"

  /** The `trips` table, its identity sequence, and the `trip_cities` table. */
  datatype TripState = TripState(trips: map<int, Trip>, nextTripId: int, links: set<(int, int)>)

  /** Keys, identity and foreign keys of `trips` and `trip_cities`, given the ids of the users
      and of the cities. */
  predicate TripsConsistent(st: TripState, users: set<int>, cities: set<int>) {
    && 1 <= st.nextTripId
    && TripsOwned(st.trips, users)
    && (forall id :: id in st.trips ==> 1 <= id < st.nextTripId)
    && LinksReference(st.links, st.trips, cities)
  }

  /** The city ids linked to a trip. */
  function Linked(links: set<(int, int)>, tripId: int): set<int> {
    set l | l in links && l.0 == tripId :: l.1
  }

  /** `tripRoutes.use('*', jwt({ secret: access }), checkRole('USER'))`. */
  function UserGate(secrets: Secrets, bearer: Option<Jwt>, nowMs: nat): (g: Gate<Claims>)
    ensures g.Next? <==>
              bearer.Some? && VerifyToken(secrets, bearer.value, false, nowMs).Success?
              && bearer.value.claims.role == "USER"
    ensures g.Next? ==> g.value == bearer.value.claims
    ensures g.Halt? ==> g.response.status in {401, 403}
  {
    match JwtGuard(secrets.access, bearer, nowMs)
    case Halt(r) => Halt(r)
    case Next(claims) => CheckRole("USER", Some(claims))
  }

  /** `citiesId.filter((id) => !existingCityIds.includes(id))`. */
  function NewCityIds(submitted: seq<int>, existing: set<int>): (r: seq<int>)
    ensures IsSubsequence(r, submitted)
    ensures forall x :: x in r <==> x in submitted && x !in existing
    ensures Distinct(submitted) ==> Distinct(r)
  {
    if submitted == [] then []
    else
      var rest := NewCityIds(submitted[1..], existing);
      if submitted[0] !in existing then
        assert Distinct(submitted) ==> Distinct([submitted[0]] + rest) by {
          if Distinct(submitted) {
            DistinctTail(submitted);
            assert ([submitted[0]] + rest)[1..] == rest;
            DistinctTail([submitted[0]] + rest);
          }
        }
        [submitted[0]] + rest
      else
        assert Distinct(submitted) ==> Distinct(rest) by {
          if Distinct(submitted) { DistinctTail(submitted); }
        }
        rest
  }

  /** `createTripCity(payload)`: a bulk insert into `trip_cities`, which fails as a whole when a
      row repeats a primary key, within the payload or in the table, or refers to an unknown trip
      or city. */
  function InsertLinks(links: set<(int, int)>, payload: seq<(int, int)>, trips: map<int, Trip>, cities: set<int>)
    : (r: Option<set<(int, int)>>)
    ensures r.Some? <==> Distinct(payload) && (forall p :: p in payload ==> p !in links && p.0 in trips && p.1 in cities)
    ensures r.Some? ==> r.value == links + Elements(payload)
  {
    if Distinct(payload) && (forall p :: p in payload ==> p !in links && p.0 in trips && p.1 in cities) then
      Some(links + Elements(payload))
    else None
  }

  /** `POST /` : create a trip owned by the caller. */
  function CreateTripSpec(secrets: Secrets, users: set<int>, st: TripState, bearer: Option<Jwt>, body: TripBody, nowMs: nat)
    : (out: (TripState, Response))
    ensures forall cities :: TripsConsistent(st, users, cities) ==> TripsConsistent(out.0, users, cities)
    ensures out.0.links == st.links
    ensures out.1.status != 201 ==> out.0 == st
    ensures out.1.status == 201 <==>
              UserGate(secrets, bearer, nowMs).Next? && CreateTripBody(body).Success? && bearer.value.claims.sub in users
    ensures out.1.status == 201 ==>
              && out.1.reply == TripCreated(st.nextTripId)
              && var t := CreateTripBody(body).value;
              out.0 == st.(trips := st.trips[st.nextTripId := Trip(st.nextTripId, t.title, t.description, t.status,
                                                                    DayNumber(t.startDate), DayNumber(t.endDate),
                                                                    bearer.value.claims.sub)],
                           nextTripId := st.nextTripId + 1)
  {
    match UserGate(secrets, bearer, nowMs)
    case Halt(r) => (st, r)
    case Next(claims) =>
      match CreateTripBody(body)
      case Failure(_) => (st, Response(400, Issues))
      case Success(t) =>
        if claims.sub !in users then (st, Response(500, Message("Server error")))
        else
          var trip := Trip(st.nextTripId, t.title, t.description, t.status, DayNumber(t.startDate),
                           DayNumber(t.endDate), claims.sub);
          AddTripKeepsConsistency(st, users, trip);
          (st.(trips := st.trips[st.nextTripId := trip], nextTripId := st.nextTripId + 1),
           Response(201, TripCreated(st.nextTripId)))
  }

  /** Storing a trip of an existing user under the next identity value keeps the trip tables
      consistent, whatever the cities. */
  lemma AddTripKeepsConsistency(st: TripState, users: set<int>, trip: Trip)
    requires trip.id == st.nextTripId && trip.userId in users
    ensures forall cities :: TripsConsistent(st, users, cities) ==>
              TripsConsistent(st.(trips := st.trips[st.nextTripId := trip], nextTripId := st.nextTripId + 1),
                              users, cities)
  {
  }

  /** `POST /:id/cities`: the gate, the two validators, the ownership check, then the handler. */
  function AddCitiesSpec(secrets: Secrets, cities: set<int>, st: TripState, bearer: Option<Jwt>, idParam: string,
                         citiesId: Option<seq<int>>, nowMs: nat): (out: (TripState, Response))
    ensures out.0.trips == st.trips && out.0.nextTripId == st.nextTripId
    ensures LinksReference(st.links, st.trips, cities) ==> LinksReference(out.0.links, out.0.trips, cities)
    ensures out.1.status != 201 ==> out.0 == st
    ensures out.1.status != 500
    ensures out.1.reply == Message(CitiesUnknown) ==>
              citiesId.Some? && !(Distinct(citiesId.value) && Elements(citiesId.value) <= cities)
    ensures out.1.status in {200, 201} ==>
              && UserGate(secrets, bearer, nowMs).Next?
              && CreateTripCityParams(idParam).Some? && citiesId.Some?
              && Distinct(citiesId.value) && Elements(citiesId.value) <= cities
              && var tripId := CreateTripCityParams(idParam).value;
              && tripId in st.trips && st.trips[tripId].userId == bearer.value.claims.sub
              && Linked(out.0.links, tripId) == Linked(st.links, tripId) + Elements(citiesId.value)
              && (out.1.status == 200 <==> Elements(citiesId.value) <= Linked(st.links, tripId))
    ensures out.1.status == 201 ==>
              var tripId := CreateTripCityParams(idParam).value;
              && out.0.links == st.links + PairSet(tripId, Elements(citiesId.value))
              && out.1.reply == CitiesAdded(|Elements(citiesId.value) - Linked(st.links, tripId)|)
    ensures && UserGate(secrets, bearer, nowMs).Next?
            && CreateTripCityParams(idParam).Some? && citiesId.Some? && |citiesId.value| >= 1
            && CreateTripCityParams(idParam).value in st.trips
            && st.trips[CreateTripCityParams(idParam).value].userId == bearer.value.claims.sub
            && Distinct(citiesId.value) && Elements(citiesId.value) <= cities
            ==> out.1.status in {200, 201}
  {
    match UserGate(secrets, bearer, nowMs)
    case Halt(r) => (st, r)
    case Next(claims) =>
      match CreateTripCityParams(idParam)
      case None => (st, Response(400, Issues))
      case Some(_) =>
        match CreateTripCityBody(citiesId)
        case None => (st, Response(400, Issues))
        case Some(ids) =>
          match CheckTripOwner(Some(claims), NumberOf(idParam), st.trips)
          case Halt(r) => (st, r)
          case Next(_) =>
            var tripId := NumberOf(idParam).value;
            var found := Elements(ids) * cities;
            KnownCount(ids, cities);
            if |found| != |ids| then (st, Response(400, Message(CitiesUnknown)))
            else
              var added := NewCityIds(ids, Linked(st.links, tripId));
              if |added| == 0 then (st, Response(200, Message(AlreadyLinked)))
              else
                var payload := Payload(tripId, added);
                AddCitiesEffect(st, cities, tripId, ids, added, payload);
                match InsertLinks(st.links, payload, st.trips, cities)
                case None => (st, Response(500, Message("Server error")))
                case Some(links) => (st.(links := links), Response(201, CitiesAdded(|added|)))
  }

  /** `newCityIds.map((cityId) => ({ tripId, cityId }))`. */
  function Payload(tripId: int, added: seq<int>): (r: seq<(int, int)>)
    ensures |r| == |added| && forall i :: 0 <= i < |r| ==> r[i] == (tripId, added[i])
  {
    if added == [] then [] else [(tripId, added[0])] + Payload(tripId, added[1..])
  }

  /** The links from one trip to each of a set of cities. */
  function PairSet(tripId: int, xs: set<int>): set<(int, int)> {
    set c | c in xs :: (tripId, c)
  }

  lemma PayloadPairs(tripId: int, added: seq<int>, payload: seq<(int, int)>)
    requires |payload| == |added| && forall i :: 0 <= i < |payload| ==> payload[i] == (tripId, added[i])
    ensures Elements(payload) == PairSet(tripId, Elements(added))
    ensures Distinct(added) ==> Distinct(payload)
  {
    forall p | p in Elements(payload) ensures p in PairSet(tripId, Elements(added)) {
      var i :| 0 <= i < |payload| && payload[i] == p;
      var c := added[i];
      assert c in Elements(added) && p == (tripId, c);
      assert (tripId, c) in PairSet(tripId, Elements(added));
    }
    forall c | c in Elements(added) ensures (tripId, c) in Elements(payload) {
      var i :| 0 <= i < |added| && added[i] == c;
      assert payload[i] == (tripId, c);
    }
  }

  lemma LinkedPlusPairs(links: set<(int, int)>, tripId: int, xs: set<int>)
    ensures Linked(links + PairSet(tripId, xs), tripId) == Linked(links, tripId) + xs
  {
    forall c | c in xs ensures c in Linked(links + PairSet(tripId, xs), tripId) {
      assert (tripId, c) in links + PairSet(tripId, xs);
    }
  }

  lemma PairsOfLinkedPresent(links: set<(int, int)>, tripId: int, xs: set<int>)
    ensures links + PairSet(tripId, xs - Linked(links, tripId)) == links + PairSet(tripId, xs)
  {
    forall p | p in PairSet(tripId, xs) ensures p in links + PairSet(tripId, xs - Linked(links, tripId)) {
      if p.1 in Linked(links, tripId) {
        var l :| l in links && l.0 == tripId && l.1 == p.1;
        assert l == p;
      }
    }
  }

  /** What the insert of the new ids does: it succeeds, the trip's cities become the old ones
      united with all submitted ids, and as many links are added as there are new ids. */
  lemma {:induction false} AddCitiesEffect(st: TripState, cities: set<int>, tripId: int, ids: seq<int>,
                                           added: seq<int>, payload: seq<(int, int)>)
    requires added == NewCityIds(ids, Linked(st.links, tripId))
    requires |payload| == |added| && forall i :: 0 <= i < |payload| ==> payload[i] == (tripId, added[i])
    requires Distinct(ids) && Elements(ids) <= cities && tripId in st.trips
    ensures InsertLinks(st.links, payload, st.trips, cities).Some?
    ensures st.links + Elements(payload) == st.links + PairSet(tripId, Elements(ids))
    ensures Linked(st.links + Elements(payload), tripId) == Linked(st.links, tripId) + Elements(ids)
    ensures |added| == |Elements(ids) - Linked(st.links, tripId)|
  {
    var before := Linked(st.links, tripId);
    assert Elements(added) == Elements(ids) - before;
    ElementsCardinality(added);
    PayloadPairs(tripId, added, payload);
    forall p | p in payload ensures p !in st.links && p.0 in st.trips && p.1 in cities {
      assert p in Elements(payload);
    }
    PairsOfLinkedPresent(st.links, tripId, Elements(ids));
    LinkedPlusPairs(st.links, tripId, Elements(ids));
  }

  /** A repeated or unknown city id makes the found rows fewer than the submitted ids: once the
      gate, the validators and the ownership check pass, the answer is 400 and nothing changes. */
  lemma AddCitiesRefusesUnknownOrRepeated(secrets: Secrets, cities: set<int>, st: TripState, bearer: Option<Jwt>,
                                          idParam: string, ids: seq<int>, nowMs: nat)
    requires UserGate(secrets, bearer, nowMs).Next? && NumberOf(idParam).Some? && |ids| >= 1
    requires CheckTripOwner(Some(bearer.value.claims), NumberOf(idParam), st.trips).Next?
    requires !(Distinct(ids) && Elements(ids) <= cities)
    ensures AddCitiesSpec(secrets, cities, st, bearer, idParam, Some(ids), nowMs) == (st, Response(400, Message(CitiesUnknown)))
  {
    KnownCount(ids, cities);
  }

  /** Sending the same cities again after they were added answers 200 'All selected cities were
      already in the trip' and adds nothing. */
  lemma AddCitiesTwice(secrets: Secrets, cities: set<int>, st: TripState, bearer: Option<Jwt>,
                       idParam: string, ids: seq<int>, nowMs: nat)
    requires AddCitiesSpec(secrets, cities, st, bearer, idParam, Some(ids), nowMs).1.status == 201
    ensures var st1 := AddCitiesSpec(secrets, cities, st, bearer, idParam, Some(ids), nowMs).0;
            AddCitiesSpec(secrets, cities, st1, bearer, idParam, Some(ids), nowMs) == (st1, Response(200, Message(AlreadyLinked)))
  {
  }

  /** The trip routes over one database. The users and the cities are fixed; trips and their
      city links change. */
  class TripServer {
    var trips: map<int, Trip>
    var nextTripId: int
    var links: set<(int, int)>
    const users: set<int>
    const cities: set<int>
    const secrets: Secrets

    ghost function State(): TripState
      reads this
    {
      TripState(trips, nextTripId, links)
    }

    ghost predicate Valid()
      reads this
    {
      TripsConsistent(State(), users, cities)
    }

    constructor(secrets: Secrets, users: set<int>, cities: set<int>)
      ensures Valid() && State() == TripState(map[], 1, {})
      ensures this.secrets == secrets && this.users == users && this.cities == cities
    {
      trips := map[];
      nextTripId := 1;
      links := {};
      this.users := users;
      this.cities := cities;
      this.secrets := secrets;
    }

    method CreateTrip(bearer: Option<Jwt>, body: TripBody, nowMs: nat) returns (res: Response)
      requires Valid()
      modifies this
      ensures Valid()
      ensures (State(), res) == CreateTripSpec(secrets, users, old(State()), bearer, body, nowMs)
    {
      var gate := UserGate(secrets, bearer, nowMs);
      if gate.Halt? {
        return gate.response;
      }
      var parsed := CreateTripBody(body);
      if parsed.Failure? {
        return Response(400, Issues);
      }
      var userId := gate.value.sub;
      if userId !in users {
        return Response(500, Message("Server error"));
      }
      var t := parsed.value;
      var tripId := nextTripId;
      trips := trips[tripId := Trip(tripId, t.title, t.description, t.status, DayNumber(t.startDate),
                                    DayNumber(t.endDate), userId)];
      nextTripId := nextTripId + 1;
      res := Response(201, TripCreated(tripId));
    }

    method AddCities(bearer: Option<Jwt>, idParam: string, citiesId: Option<seq<int>>, nowMs: nat) returns (res: Response)
      requires Valid()
      modifies this
      ensures Valid()
      ensures (State(), res) == AddCitiesSpec(secrets, cities, old(State()), bearer, idParam, citiesId, nowMs)
    {
      var gate := UserGate(secrets, bearer, nowMs);
      if gate.Halt? {
        return gate.response;
      }
      if CreateTripCityParams(idParam).None? || CreateTripCityBody(citiesId).None? {
        return Response(400, Issues);
      }
      var ids := citiesId.value;
      var owner := CheckTripOwner(Some(gate.value), NumberOf(idParam), trips);
      if owner.Halt? {
        return owner.response;
      }
      var tripId := NumberOf(idParam).value;
      var validCities := Elements(ids) * cities;
      if |validCities| != |ids| {
        return Response(400, Message(CitiesUnknown));
      }
      var existingCityIds := Linked(links, tripId);
      var added := NewCityIds(ids, existingCityIds);
      if |added| == 0 {
        return Response(200, Message(AlreadyLinked));
      }
      var payload := Payload(tripId, added);
      var inserted := InsertLinks(links, payload, trips, cities);
      if inserted.None? {
        return Response(500, Message("Server error"));
      }
      links := inserted.value;
      res := Response(201, CitiesAdded(|added|));
    }
  }
}
