/** backend/src/infra/schema.ts: the tables, their enums and defaults, and the key, uniqueness,
    foreign-key and check constraints, stated as predicates every server state keeps. */
module Schema {
  import opened Wrappers
  import opened Crypto

  datatype Role = USER | ADMIN

  /** `role: rolesEnum().default('USER')`. */
  const DefaultRole: Role := USER

  /** The enum label stored in tokens and sent to clients. */
  function RoleName(r: Role): (name: string)
    ensures name == "USER" || name == "ADMIN"
  {
    match r
    case USER => "USER"
    case ADMIN => "ADMIN"
  }

  lemma RoleNameInjective(a: Role, b: Role)
    ensures RoleName(a) == RoleName(b) <==> a == b
  {
  }

  datatype TripStatus = PLANNED | ORGANIZED | COMPLETED | WISHLIST

  /** `status: tripStatusEnum().default('PLANNED')`. */
  const DefaultTripStatus: TripStatus := PLANNED

  function StatusName(t: TripStatus): string {
    match t
    case PLANNED => "PLANNED"
    case ORGANIZED => "ORGANIZED"
    case COMPLETED => "COMPLETED"
    case WISHLIST => "WISHLIST"
  }

  /** The enum check: one of the four labels, spelled exactly. */
  function ParseTripStatus(s: string): (r: Option<TripStatus>)
    ensures r.Some? ==> StatusName(r.value) == s
  {
    if s == "PLANNED" then Some(PLANNED)
    else if s == "ORGANIZED" then Some(ORGANIZED)
    else if s == "COMPLETED" then Some(COMPLETED)
    else if s == "WISHLIST" then Some(WISHLIST)
    else None
  }

  /** Parsing inverts naming, and a string is accepted iff it is the name of a status. */
  lemma TripStatusRoundTrip(t: TripStatus, s: string)
    ensures ParseTripStatus(StatusName(t)) == Some(t)
    ensures ParseTripStatus(s).Some? <==> exists u: TripStatus :: StatusName(u) == s
  {
    if ParseTripStatus(s).None? {
      forall u: TripStatus ensures StatusName(u) != s {
        assert ParseTripStatus(StatusName(u)) == Some(u);
      }
    }
  }

  /** A row of `users`; the password column holds a hash. */
  datatype User = User(id: int, username: string, password: Digest<string>, role: Role)

  /** A `refresh_tokens` row is identified by (userId, deviceId): the unique index on
      (deviceId, userId). Times are milliseconds since the epoch. */
  type TokenKey = (int, string)

  datatype TokenRow = TokenRow(hash: Digest<Jwt>, createdAt: int, expiresAt: int)

  /** A `trips` row; dates are days or milliseconds, whichever the caller uses consistently. */
  datatype Trip = Trip(id: int, title: string, description: Option<string>, status: TripStatus,
                       startDate: int, endDate: int, userId: int)

  /** `check('rating_rate', rating >= 0 AND rating <= 10)`. */
  type Rating = r: int | 0 <= r <= 10

  datatype Activity = Activity(id: int, tripId: int, rating: Rating)

  /** Identity column: every user is stored under its own id, and ids are below the next one the
      sequence will hand out. */
  predicate UsersKeyed(users: map<int, User>, nextUserId: int) {
    1 <= nextUserId && forall id :: id in users ==> users[id].id == id && 1 <= id < nextUserId
  }

  /** `username ... .unique()`. */
  predicate UniqueUsernames(users: map<int, User>) {
    forall a, b :: a in users && b in users && users[a].username == users[b].username ==> a == b
  }

  /** `refresh_tokens.user_id references users.id`. */
  predicate TokensReferenceUsers(tokens: map<TokenKey, TokenRow>, users: map<int, User>) {
    forall k :: k in tokens ==> k.0 in users
  }

  /** `trips.user_id references users.id`, and every trip is stored under its own id. */
  predicate TripsOwned(trips: map<int, Trip>, users: set<int>) {
    forall id :: id in trips ==> trips[id].id == id && trips[id].userId in users
  }

  /** `trip_cities` rows refer to existing trips and cities. */
  predicate LinksReference(links: set<(int, int)>, trips: map<int, Trip>, cities: set<int>) {
    forall l :: l in links ==> l.0 in trips && l.1 in cities
  }

  /** Every table of the database at once. */
  datatype Db = Db(users: map<int, User>, nextUserId: int, tokens: map<TokenKey, TokenRow>,
                   trips: map<int, Trip>, activities: map<int, Activity>,
                   cities: set<int>, links: set<(int, int)>)

  /** All key, uniqueness and foreign-key constraints. Links are a set of (tripId, cityId), so the
      primary key of `trip_cities` holds by construction. */
  predicate Consistent(db: Db) {
    && UsersKeyed(db.users, db.nextUserId)
    && UniqueUsernames(db.users)
    && TokensReferenceUsers(db.tokens, db.users)
    && TripsOwned(db.trips, db.users.Keys)
    && (forall id :: id in db.activities ==> db.activities[id].tripId in db.trips)
    && LinksReference(db.links, db.trips, db.cities)
  }

  /** Deleting a user with `onDelete: 'cascade'` on every foreign key that leads to it: its refresh
      tokens and trips go, and with the trips their activities and city links. Every other row
      stays as it was, and the database stays consistent. */
  function DeleteUser(db: Db, userId: int): (d: Db)
    ensures Consistent(db) ==> Consistent(d)
    ensures d.users == db.users - {userId} && d.nextUserId == db.nextUserId && d.cities == db.cities
    ensures forall k :: k in d.tokens <==> k in db.tokens && k.0 != userId
    ensures forall k :: k in d.tokens ==> d.tokens[k] == db.tokens[k]
    ensures forall id :: id in d.trips <==> id in db.trips && db.trips[id].userId != userId
    ensures forall id :: id in d.trips ==> d.trips[id] == db.trips[id]
    ensures forall a :: a in d.activities <==> a in db.activities && db.activities[a].tripId in d.trips
    ensures forall a :: a in d.activities ==> d.activities[a] == db.activities[a]
    ensures forall l :: l in d.links <==> l in db.links && l.0 in d.trips
  {
    var trips := map id | id in db.trips && db.trips[id].userId != userId :: db.trips[id];
    Db(db.users - {userId},
       db.nextUserId,
       map k | k in db.tokens && k.0 != userId :: db.tokens[k],
       trips,
       map a | a in db.activities && db.activities[a].tripId in trips :: db.activities[a],
       db.cities,
       set l | l in db.links && l.0 in trips)
  }
}
