/** backend/src/auth/auth.routes.ts: the register, login, refresh, logout and protected handlers.
    Each handler is first specified as a function from the server state before the request to the
    state after it and the response; the class `AuthServer` then runs the handlers in place, over
    the users table, the refresh-token table and the client's `refresh_token` cookie, and is proved
    to follow the specification. The clock is a parameter in milliseconds. */
module AuthRoutes {
  import opened Wrappers
  import opened Crypto
  import opened JwtUtils
  import opened Schema
  import opened Http
  import opened AuthSchema
  import opened AuthService
  import opened UserService

  /** `maxAgeInSeconds`: seven days, the cookie's lifetime and the stored row's. */
  const MaxAgeSeconds: int := 7 * 24 * 60 * 60

  const UsernameTaken: string := "This username already exists"
  const UserCreated: string := "User created succesfuly"
  const InvalidCredentials: string := "Invalid credentials"
  const Unauthorized: string := "Unauthorized"
  const RefreshExpired: string := "Refresh token expired"
  const LogoutSuccessful: string := "Logout successful"
  const ServerError: string := "Server error"

  /** The users table, the refresh-token table, the one client's `refresh_token` cookie (`None`
      when it is missing or its signature fails) and the users' identity sequence. */
  datatype AuthState = AuthState(users: map<int, User>, tokens: Rows, cookie: Option<Jwt>, nextUserId: int)

  /** The database constraints that concern these two tables. */
  predicate StateConsistent(s: AuthState) {
    UsersKeyed(s.users, s.nextUserId) && UniqueUsernames(s.users) && TokensReferenceUsers(s.tokens, s.users)
  }

  /** A handled request: the state after it and the response. */
  datatype Step = Step(state: AuthState, response: Response)

  /** `POST /register`. */
  function RegisterSpec(s: AuthState, body: AuthBody): (out: Step)
    ensures StateConsistent(s) ==> StateConsistent(out.state)
    ensures out.response.status == 201 <==>
              ParseRegister(body).Some?
              && FindUserByUsername(s.users, s.nextUserId, ParseRegister(body).value.username).None?
    ensures out.response.status != 201 ==> out.state == s
    ensures out.state.tokens == s.tokens && out.state.cookie == s.cookie
  {
    match ParseRegister(body)
    case None => Step(s, Response(400, Issues))
    case Some(c) =>
      if FindUserByUsername(s.users, s.nextUserId, c.username).Some? then
        Step(s, Response(400, Message(UsernameTaken)))
      else
        var (users, next) := CreateUser(s.users, s.nextUserId, c.username, c.password, None);
        Step(s.(users := users, nextUserId := next), Response(201, Message(UserCreated)))
  }

  /** `POST /login`. */
  function LoginSpec(secrets: Secrets, s: AuthState, body: AuthBody, nowMs: nat): (out: Step)
    ensures StateConsistent(s) ==> StateConsistent(out.state)
    ensures out.response.status in {200, 400}
    ensures out.response.status == 400 ==> out.state == s
    ensures out.state.users == s.users && out.state.nextUserId == s.nextUserId
    ensures out.response.status == 200 ==>
              && ParseLogin(body).Some?
              && FindUserByUsername(s.users, s.nextUserId, ParseLogin(body).value.username).Some?
              && var req := ParseLogin(body).value;
              var user := FindUserByUsername(s.users, s.nextUserId, req.username).value;
              && VerifyHash(req.password, user.password)
              && out.state.cookie == Some(GenerateToken(secrets, user.id, RoleName(user.role), true, nowMs))
              && out.state.tokens == Upsert(s.tokens, out.state.cookie.value, req.deviceId,
                                            nowMs + MaxAgeSeconds * 1000, user.id, nowMs)
              && out.response.reply == SessionBody(GenerateToken(secrets, user.id, RoleName(user.role), false, nowMs),
                                                   user.id, RoleName(user.role))
    ensures ParseLogin(body).Some?
            && FindUserByUsername(s.users, s.nextUserId, ParseLogin(body).value.username).Some?
            && VerifyHash(ParseLogin(body).value.password,
                          FindUserByUsername(s.users, s.nextUserId, ParseLogin(body).value.username).value.password)
            ==> out.response.status == 200
  {
    match ParseLogin(body)
    case None => Step(s, Response(400, Issues))
    case Some(req) =>
      match FindUserByUsername(s.users, s.nextUserId, req.username)
      case None => Step(s, Response(400, Message(InvalidCredentials)))
      case Some(user) =>
        if !VerifyHash(req.password, user.password) then Step(s, Response(400, Message(InvalidCredentials)))
        else
          var access := GenerateToken(secrets, user.id, RoleName(user.role), false, nowMs);
          var refresh := GenerateToken(secrets, user.id, RoleName(user.role), true, nowMs);
          var expiresAt := nowMs + MaxAgeSeconds * 1000;
          Step(s.(tokens := Upsert(s.tokens, refresh, req.deviceId, expiresAt, user.id, nowMs), cookie := Some(refresh)),
               Response(200, SessionBody(access, user.id, RoleName(user.role))))
  }

  /** `POST /refresh`: the checks in the order the handler makes them. A failed verification and a
      missing user both throw and reach the handler's `catch`. */
  function RefreshSpec(secrets: Secrets, s: AuthState, body: AuthBody, nowMs: nat): (out: Step)
    ensures StateConsistent(s) ==> StateConsistent(out.state)
    ensures out.response.status in {200, 400, 401}
    ensures out.state.users == s.users && out.state.nextUserId == s.nextUserId
    ensures out.response.status != 200 ==> out.state.tokens == s.tokens
    ensures out.response.status != 200 ==> out.state.cookie == s.cookie || out.state.cookie.None?
    ensures out.response.status == 200 ==> out.state.tokens.Keys == s.tokens.Keys
    ensures out.response.status == 200 <==>
              && ParseDevice(body).Some? && s.cookie.Some?
              && VerifyToken(secrets, s.cookie.value, true, nowMs).Success?
              && s.cookie.value.claims.sub in s.users
              && var key := (s.users[s.cookie.value.claims.sub].id, ParseDevice(body).value);
              && key in s.tokens && nowMs <= s.tokens[key].expiresAt
              && VerifyHash(s.cookie.value, s.tokens[key].hash)
  {
    match ParseDevice(body)
    case None => Step(s, Response(400, Issues))
    case Some(deviceId) =>
      match s.cookie
      case None => Step(s, Response(401, Message(Unauthorized)))
      case Some(presented) =>
        match VerifyToken(secrets, presented, true, nowMs)
        case Failure(_) => Step(s.(cookie := None), Response(401, Message(Unauthorized)))
        case Success(payload) =>
          match FindUserById(s.users, payload.sub)
          case None => Step(s.(cookie := None), Response(401, Message(Unauthorized)))
          case Some(user) =>
            match Find(s.tokens, user.id, deviceId)
            case None => Step(s, Response(401, Message(Unauthorized)))
            case Some(row) =>
              if row.expiresAt < nowMs then Step(s.(cookie := None), Response(401, Message(RefreshExpired)))
              else if !VerifyHash(presented, row.hash) then Step(s, Response(401, Message(Unauthorized)))
              else
                var access := GenerateToken(secrets, payload.sub, payload.role, false, nowMs);
                var refresh := GenerateToken(secrets, payload.sub, payload.role, true, nowMs);
                var expiresAt := nowMs + MaxAgeSeconds * 1000;
                Step(s.(tokens := Update(s.tokens, refresh, deviceId, expiresAt, payload.sub), cookie := Some(refresh)),
                     Response(200, SessionBody(access, user.id, RoleName(user.role))))
  }

  /** `POST /logout`. */
  function LogoutSpec(secrets: Secrets, s: AuthState, body: AuthBody, nowMs: nat): (out: Step)
    ensures StateConsistent(s) ==> StateConsistent(out.state)
    ensures out.response.status in {200, 400, 500}
    ensures out.state.users == s.users && out.state.nextUserId == s.nextUserId
    ensures ParseDevice(body).Some? ==> out.state.cookie.None?
    ensures out.response.status == 500 <==>
              ParseDevice(body).Some? && s.cookie.Some? && VerifyToken(secrets, s.cookie.value, true, nowMs).Failure?
    ensures out.response.status != 200 ==> out.state.tokens == s.tokens
  {
    match ParseDevice(body)
    case None => Step(s, Response(400, Issues))
    case Some(deviceId) =>
      match s.cookie
      case None => Step(s, Response(200, Message(LogoutSuccessful)))
      case Some(presented) =>
        match VerifyToken(secrets, presented, true, nowMs)
        case Failure(_) => Step(s.(cookie := None), Response(500, Message(ServerError)))
        case Success(payload) =>
          Step(s.(tokens := Delete(s.tokens, payload.sub, deviceId), cookie := None),
               Response(200, Message(LogoutSuccessful)))
  }

  /** `GET /protected`: the jwt middleware with the access secret, then the user must exist. */
  function ProtectedSpec(secrets: Secrets, users: map<int, User>, bearer: Option<Jwt>, nowMs: nat): (res: Response)
    ensures res.status in {200, 401}
    ensures res.status == 200 <==>
              bearer.Some? && VerifyToken(secrets, bearer.value, false, nowMs).Success?
              && bearer.value.claims.sub in users
    ensures res.status == 200 ==> res.reply == SuccessFlag
  {
    match JwtGuard(secrets.access, bearer, nowMs)
    case Halt(r) => r
    case Next(payload) =>
      if FindUserById(users, payload.sub).None? then Response(401, Plain("No authorized"))
      else Response(200, SuccessFlag)
  }

  // ---------------------------------------------------------------------------------------------
  // Properties of single requests

  /** A login with an unknown username or a wrong password answers 400 'Invalid credentials' and
      changes neither the tables nor the cookie. */
  lemma LoginRefusal(secrets: Secrets, s: AuthState, body: AuthBody, nowMs: nat)
    requires StateConsistent(s)
    requires ParseLogin(body).Some?
    requires forall id :: id in s.users && s.users[id].username == ParseLogin(body).value.username
                          ==> !VerifyHash(ParseLogin(body).value.password, s.users[id].password)
    ensures LoginSpec(secrets, s, body, nowMs) == Step(s, Response(400, Message(InvalidCredentials)))
  {
    var req := ParseLogin(body).value;
    var found := FindUserByUsername(s.users, s.nextUserId, req.username);
    if found.Some? {
      assert s.users[found.value.id] == found.value;
    }
  }

  /** Refresh without a cookie answers 401 and changes nothing. */
  lemma RefreshWithoutCookie(secrets: Secrets, s: AuthState, deviceId: string, nowMs: nat)
    requires s.cookie.None?
    ensures RefreshSpec(secrets, s, AuthBody(Other, Other, Text(deviceId)), nowMs) == Step(s, Response(401, Message(Unauthorized)))
  {
  }

  /** A cookie whose token fails verification, or whose subject no longer exists, is deleted and
      the answer is 401. */
  lemma RefreshExceptionClearsCookie(secrets: Secrets, s: AuthState, deviceId: string, nowMs: nat)
    requires s.cookie.Some?
    requires VerifyToken(secrets, s.cookie.value, true, nowMs).Failure?
             || s.cookie.value.claims.sub !in s.users
    ensures RefreshSpec(secrets, s, AuthBody(Other, Other, Text(deviceId)), nowMs)
            == Step(s.(cookie := None), Response(401, Message(Unauthorized)))
  {
  }

  /** With a verified cookie whose user exists: no stored row for (user, device) answers 401 and
      keeps the cookie; an expired row deletes the cookie; a row holding another token's hash
      answers 401 and keeps everything. */
  lemma RefreshRowChecks(secrets: Secrets, s: AuthState, deviceId: string, nowMs: nat)
    requires StateConsistent(s)
    requires s.cookie.Some? && VerifyToken(secrets, s.cookie.value, true, nowMs).Success?
    requires s.cookie.value.claims.sub in s.users
    ensures var key := (s.cookie.value.claims.sub, deviceId);
            var out := RefreshSpec(secrets, s, AuthBody(Other, Other, Text(deviceId)), nowMs);
            && (key !in s.tokens ==> out == Step(s, Response(401, Message(Unauthorized))))
            && (key in s.tokens && s.tokens[key].expiresAt < nowMs ==>
                  out == Step(s.(cookie := None), Response(401, Message(RefreshExpired))))
            && (key in s.tokens && nowMs <= s.tokens[key].expiresAt && !VerifyHash(s.cookie.value, s.tokens[key].hash) ==>
                  out == Step(s, Response(401, Message(Unauthorized))))
  {
  }

  /** A successful refresh rotates the pair: the row of (subject, device) gets the hash of a new
      refresh token signed with the token's own role claim, the cookie holds that token, and the
      response reports the id and role of the database record. */
  lemma RefreshRotates(secrets: Secrets, s: AuthState, deviceId: string, nowMs: nat)
    requires StateConsistent(s)
    requires RefreshSpec(secrets, s, AuthBody(Other, Other, Text(deviceId)), nowMs).response.status == 200
    ensures var prior := s.cookie.value.claims;
            var out := RefreshSpec(secrets, s, AuthBody(Other, Other, Text(deviceId)), nowMs);
            var refresh := GenerateToken(secrets, prior.sub, prior.role, true, nowMs);
            && out.state.cookie == Some(refresh)
            && (prior.sub, deviceId) in s.tokens
            && out.state.tokens == s.tokens[(prior.sub, deviceId) := TokenRow(Hash(refresh),
                 s.tokens[(prior.sub, deviceId)].createdAt, nowMs + MaxAgeSeconds * 1000)]
            && out.response.reply == SessionBody(GenerateToken(secrets, prior.sub, prior.role, false, nowMs),
                                                 prior.sub, RoleName(s.users[prior.sub].role))
  {
  }

  /** Logout deletes the row of (the token's subject, device) and the cookie, and answers 200; a
      cookie whose token fails verification is deleted too, but the answer is 500. Without a
      cookie nothing changes. A second logout therefore changes nothing and answers 200. */
  lemma LogoutOutcomes(secrets: Secrets, s: AuthState, deviceId: string, nowMs: nat)
    ensures var out := LogoutSpec(secrets, s, AuthBody(Other, Other, Text(deviceId)), nowMs);
            && (s.cookie.None? ==> out == Step(s, Response(200, Message(LogoutSuccessful))))
            && (s.cookie.Some? && VerifyToken(secrets, s.cookie.value, true, nowMs).Success? ==>
                  out == Step(s.(tokens := Delete(s.tokens, s.cookie.value.claims.sub, deviceId), cookie := None),
                              Response(200, Message(LogoutSuccessful))))
            && (s.cookie.Some? && VerifyToken(secrets, s.cookie.value, true, nowMs).Failure? ==>
                  out == Step(s.(cookie := None), Response(500, Message(ServerError))))
            && LogoutSpec(secrets, out.state, AuthBody(Other, Other, Text(deviceId)), nowMs)
               == Step(out.state, Response(200, Message(LogoutSuccessful)))
  {
  }

  /** Only an access token lets `/protected` through; a refresh token never does when the secrets
      differ. */
  lemma ProtectedRefusesRefreshTokens(secrets: Secrets, users: map<int, User>, userId: int, role: string,
                                      issuedMs: nat, nowMs: nat)
    requires secrets.refresh != secrets.access
    ensures ProtectedSpec(secrets, users, Some(GenerateToken(secrets, userId, role, true, issuedMs)), nowMs).status == 401
  {
  }

  // ---------------------------------------------------------------------------------------------
  // Properties of request sequences

  /** A user who registers can log in at once with the same name and password, from any device,
      and receives role USER. */
  lemma RegisterThenLogin(secrets: Secrets, s: AuthState, username: string, password: string, deviceId: string,
                          nowMs: nat)
    requires StateConsistent(s)
    requires RegisterSpec(s, AuthBody(Text(username), Text(password), Other)).response.status == 201
    ensures var s1 := RegisterSpec(s, AuthBody(Text(username), Text(password), Other)).state;
            var out := LoginSpec(secrets, s1, AuthBody(Text(username), Text(password), Text(deviceId)), nowMs);
            out.response.status == 200 && out.response.reply.userId == s.nextUserId && out.response.reply.role == "USER"
  {
    var s1 := RegisterSpec(s, AuthBody(Text(username), Text(password), Other)).state;
    assert s1.users[s.nextUserId].username == username;
    FindUserByUsernameUnique(s1.users, s1.nextUserId, s.nextUserId);
  }

  /** After a login at `loginMs`, the same device can refresh at any time from the login up to
      604799 seconds later, provided nothing else touched the row or the cookie. */
  lemma {:induction false} LoginThenRefresh(secrets: Secrets, s: AuthState, body: AuthBody, loginMs: nat, nowMs: nat)
    requires StateConsistent(s)
    requires LoginSpec(secrets, s, body, loginMs).response.status == 200
    requires loginMs <= nowMs <= loginMs + (MaxAgeSeconds - 1) * 1000
    ensures var s1 := LoginSpec(secrets, s, body, loginMs).state;
            RefreshSpec(secrets, s1, AuthBody(Other, Other, body.deviceId), nowMs).response.status == 200
  {
    var out := LoginSpec(secrets, s, body, loginMs);
    var s1 := out.state;
    var req := ParseLogin(body).value;
    var user := FindUserByUsername(s.users, s.nextUserId, req.username).value;
    var refresh := s1.cookie.value;
    IssuedTokenVerifies(secrets, user.id, RoleName(user.role), true, loginMs, nowMs);
    assert nowMs / 1000 <= (loginMs + (MaxAgeSeconds - 1) * 1000) / 1000 == loginMs / 1000 + MaxAgeSeconds - 1;
    assert VerifyToken(secrets, refresh, true, nowMs).Success?;
    assert refresh.claims.sub == user.id && user.id in s1.users;
    assert Find(s1.tokens, user.id, req.deviceId) == Some(s1.tokens[(user.id, req.deviceId)]);
  }

  /** Once a refresh has rotated the pair in a later second than the presented token was issued,
      presenting the replaced token again from the same device is refused with 401 and the table
      is left as it was. */
  lemma {:induction false} ReplayAfterRotationRefused(secrets: Secrets, s: AuthState, deviceId: string,
                                                      nowMs: nat, laterMs: nat)
    requires StateConsistent(s)
    requires RefreshSpec(secrets, s, AuthBody(Other, Other, Text(deviceId)), nowMs).response.status == 200
    requires nowMs / 1000 + RefreshLifetime != s.cookie.value.claims.exp
    ensures var s1 := RefreshSpec(secrets, s, AuthBody(Other, Other, Text(deviceId)), nowMs).state;
            var replay := RefreshSpec(secrets, s1.(cookie := s.cookie), AuthBody(Other, Other, Text(deviceId)), laterMs);
            replay.response.status == 401 && replay.state.tokens == s1.tokens
  {
    var s1 := RefreshSpec(secrets, s, AuthBody(Other, Other, Text(deviceId)), nowMs).state;
    var presented := s.cookie.value;
    var refresh := s1.cookie.value;
    assert refresh != presented by {
      assert refresh.claims.exp == nowMs / 1000 + RefreshLifetime;
    }
    RefreshRotates(secrets, s, deviceId, nowMs);
    var key := (presented.claims.sub, deviceId);
    assert s1.tokens[key].hash == Hash(refresh);
    HashThenVerify(refresh, presented);
  }

  /** The rotation is deterministic: refreshing within the same second in which the presented
      token was issued signs identical claims with the same secret, so the "new" refresh token is
      the old one and the replaced token keeps working. */
  lemma SameSecondRotationReissues(secrets: Secrets, s: AuthState, deviceId: string, nowMs: nat)
    requires StateConsistent(s)
    requires RefreshSpec(secrets, s, AuthBody(Other, Other, Text(deviceId)), nowMs).response.status == 200
    requires nowMs / 1000 + RefreshLifetime == s.cookie.value.claims.exp
    ensures RefreshSpec(secrets, s, AuthBody(Other, Other, Text(deviceId)), nowMs).state.cookie == s.cookie
  {
    RefreshRotates(secrets, s, deviceId, nowMs);
  }

  /** After a logout with a valid cookie, the logged-out token can no longer be refreshed from that
      device, even if a copy of the cookie is presented again. */
  lemma {:induction false} LogoutRevokes(secrets: Secrets, s: AuthState, deviceId: string, nowMs: nat, laterMs: nat)
    requires StateConsistent(s)
    requires s.cookie.Some? && VerifyToken(secrets, s.cookie.value, true, nowMs).Success?
    ensures var s1 := LogoutSpec(secrets, s, AuthBody(Other, Other, Text(deviceId)), nowMs).state;
            var again := RefreshSpec(secrets, s1.(cookie := s.cookie), AuthBody(Other, Other, Text(deviceId)), laterMs);
            again.response.status == 401 && again.state.tokens == s1.tokens
  {
    var s1 := LogoutSpec(secrets, s, AuthBody(Other, Other, Text(deviceId)), nowMs).state;
    assert s1.tokens == Delete(s.tokens, s.cookie.value.claims.sub, deviceId);
    assert (s.cookie.value.claims.sub, deviceId) !in s1.tokens;
  }

  /** Requests for one device never change another device's row. */
  lemma OtherDevicesUntouched(secrets: Secrets, s: AuthState, body: AuthBody, nowMs: nat, userId: int, other: string)
    requires body.deviceId.Text? && other != body.deviceId.value
    requires (userId, other) in s.tokens
    ensures var row := s.tokens[(userId, other)];
            && LoginSpec(secrets, s, body, nowMs).state.tokens[(userId, other)] == row
            && RefreshSpec(secrets, s, body, nowMs).state.tokens[(userId, other)] == row
            && (userId, other) in LogoutSpec(secrets, s, body, nowMs).state.tokens
            && LogoutSpec(secrets, s, body, nowMs).state.tokens[(userId, other)] == row
  {
  }

  // ---------------------------------------------------------------------------------------------
  // The server

  /** The auth routes over one database and one client's cookie jar. */
  class AuthServer {
    var users: map<int, User>
    var nextUserId: int
    var cookie: Option<Jwt>
    const table: RefreshTokenTable
    const secrets: Secrets

    ghost function State(): AuthState
      reads this, table
    {
      AuthState(users, table.rows, cookie, nextUserId)
    }

    ghost predicate Valid()
      reads this, table
    {
      StateConsistent(State())
    }

    constructor(secrets: Secrets)
      ensures Valid() && fresh(table)
      ensures State() == AuthState(map[], map[], None, 1) && this.secrets == secrets
    {
      users := map[];
      nextUserId := 1;
      cookie := None;
      table := new RefreshTokenTable();
      this.secrets := secrets;
    }

    method Register(body: AuthBody) returns (res: Response)
      requires Valid()
      modifies this
      ensures Valid()
      ensures Step(State(), res) == RegisterSpec(old(State()), body)
    {
      var parsed := ParseRegister(body);
      if parsed.None? {
        return Response(400, Issues);
      }
      var existing := FindUserByUsername(users, nextUserId, parsed.value.username);
      if existing.Some? {
        return Response(400, Message(UsernameTaken));
      }
      users := users[nextUserId := User(nextUserId, parsed.value.username, Hash(parsed.value.password), DefaultRole)];
      nextUserId := nextUserId + 1;
      res := Response(201, Message(UserCreated));
    }

    method Login(body: AuthBody, nowMs: nat) returns (res: Response)
      requires Valid()
      modifies this, table
      ensures Valid()
      ensures Step(State(), res) == LoginSpec(secrets, old(State()), body, nowMs)
    {
      var parsed := ParseLogin(body);
      if parsed.None? {
        return Response(400, Issues);
      }
      var req := parsed.value;
      var found := FindUserByUsername(users, nextUserId, req.username);
      if found.None? {
        return Response(400, Message(InvalidCredentials));
      }
      var user := found.value;
      if !VerifyHash(req.password, user.password) {
        return Response(400, Message(InvalidCredentials));
      }
      var access := GenerateToken(secrets, user.id, RoleName(user.role), false, nowMs);
      var refresh := GenerateToken(secrets, user.id, RoleName(user.role), true, nowMs);
      var expiresAt := nowMs + MaxAgeSeconds * 1000;
      table.CreateOrUpdateRefreshToken(refresh, req.deviceId, expiresAt, user.id, nowMs);
      cookie := Some(refresh);
      res := Response(200, SessionBody(access, user.id, RoleName(user.role)));
    }

    method Refresh(body: AuthBody, nowMs: nat) returns (res: Response)
      requires Valid()
      modifies this, table
      ensures Valid()
      ensures Step(State(), res) == RefreshSpec(secrets, old(State()), body, nowMs)
    {
      var deviceId := ParseDevice(body);
      if deviceId.None? {
        return Response(400, Issues);
      }
      if cookie.None? {
        return Response(401, Message(Unauthorized));
      }
      var presented := cookie.value;
      var verified := VerifyToken(secrets, presented, true, nowMs);
      if verified.Failure? {
        cookie := None;
        return Response(401, Message(Unauthorized));
      }
      var payload := verified.value;
      var user := FindUserById(users, payload.sub);
      if user.None? {
        cookie := None;
        return Response(401, Message(Unauthorized));
      }
      var row := table.FindRefreshTokenByUserIdAndDeviceId(user.value.id, deviceId.value);
      if row.None? {
        return Response(401, Message(Unauthorized));
      }
      if row.value.expiresAt < nowMs {
        cookie := None;
        return Response(401, Message(RefreshExpired));
      }
      if !VerifyHash(presented, row.value.hash) {
        return Response(401, Message(Unauthorized));
      }
      var access := GenerateToken(secrets, payload.sub, payload.role, false, nowMs);
      var refresh := GenerateToken(secrets, payload.sub, payload.role, true, nowMs);
      var expiresAt := nowMs + MaxAgeSeconds * 1000;
      table.UpdateRefreshToken(refresh, deviceId.value, expiresAt, payload.sub);
      cookie := Some(refresh);
      res := Response(200, SessionBody(access, user.value.id, RoleName(user.value.role)));
    }

    method Logout(body: AuthBody, nowMs: nat) returns (res: Response)
      requires Valid()
      modifies this, table
      ensures Valid()
      ensures Step(State(), res) == LogoutSpec(secrets, old(State()), body, nowMs)
    {
      var deviceId := ParseDevice(body);
      if deviceId.None? {
        return Response(400, Issues);
      }
      if cookie.Some? {
        var verified := VerifyToken(secrets, cookie.value, true, nowMs);
        if verified.Failure? {
          cookie := None;
          return Response(500, Message(ServerError));
        }
        table.DeleteRefreshTokenByUserIdAndDeviceId(verified.value.sub, deviceId.value);
      }
      cookie := None;
      res := Response(200, Message(LogoutSuccessful));
    }
  }
}
