/** frontend/src/api/api.ts, frontend/src/api/auth.service.ts and frontend/src/store/authStore.ts:
    the client's session store, the axios instance with its two interceptors, and the service
    helpers that call it. The two source files import each other (the response interceptor calls
    `refreshToken`, which posts through the instance), so they share one module here.

    A call through the instance is first specified as a function, `Send`, from the session before
    the call to how the call settles, the session after it, whether the browser was sent to
    `/login`, and the requests that went out. The class `ApiClient` then runs the interceptors in
    place and is proved to follow `Send`. The network is the function `server`, from an outgoing
    request to the server's answer; `getDeviceId()` is the client's constant `deviceId`. */
module ClientApi {
  import opened Wrappers

  /** The session store: token, user id and role. */
  datatype Session = Session(token: string, userId: Option<int>, role: string)

  /** The store's initial record, which `refreshToken` and `logout` also write back. */
  const SignedOut: Session := Session("", None, "")

  datatype City = City(id: int, name: string, countryIso: string)

  /** The fields of a listed trip the trips page works with. */
  datatype TripCard = TripCard(id: int, title: string, status: string)

  /** The JSON bodies the services send. */
  datatype Body =
    | NoBody
    | DeviceBody(deviceId: string)
    | LoginBody(username: string, password: string, deviceId: string)
    | RegisterBody(username: string, password: string)
    | TripBody(title: string, description: string, status: string, startDate: string, endDate: string)
    | CityIdsBody(citiesId: seq<int>)

  /** The JSON bodies of successful answers. */
  datatype Data =
    | SessionData(token: string, userId: int, role: string)
    | TripCreatedData(tripId: nat)
    | CityList(cities: seq<City>)
    | TripList(trips: seq<TripCard>)
    | OtherData

  /** An `AxiosError`: the status of the server's answer, or `None` when no answer arrived. */
  datatype AxiosError = AxiosError(status: Option<int>)

  /** A request as it leaves the client: its URL, its body and its `Authorization` header. */
  datatype Wire = Wire(url: string, body: Body, authorization: string)

  /** The server's answer to a request: a 2xx answer with its body, or an error. */
  datatype Answer = Ok(data: Data) | Fail(error: AxiosError)

  /** How the promise of a call through the instance settles; `Undefined` is a promise that
      resolves to `undefined`. */
  datatype Settled = Resolved(data: Data) | Undefined | Rejected(error: AxiosError)

  /** A call through the instance: how it settled, the session after it, whether the browser was
      sent to `/login`, and the requests sent, in order. */
  datatype Exchange = Exchange(settled: Settled, session: Session, redirected: bool, sent: seq<Wire>)

  const LoginUrl: string := "/auth/login"
  const RegisterUrl: string := "/auth/register"
  const RefreshUrl: string := "/auth/refresh"
  const ProtectedUrl: string := "/auth/protected"
  const LogoutUrl: string := "/auth/logout"
  const TripsUrl: string := "/trips"

  /** Where `forceLogout` sends the browser. */
  const LoginPath: string := "/login"

  /** `part` appears in `s` at index `i`. */
  predicate OccursAt(s: string, part: string, i: int) {
    0 <= i <= |s| - |part| && s[i..i + |part|] == part
  }

  /** `s.includes(part)`. */
  predicate Includes(s: string, part: string) {
    exists i :: 0 <= i <= |s| - |part| && OccursAt(s, part, i)
  }

  /** A header value of the form `Bearer <token>`. */
  predicate IsBearer(h: string) {
    |h| >= 7 && h[..7] == "Bearer "
  }

  /** The header value the request interceptor writes. */
  function Bearer(token: string): (h: string)
    ensures |h| == |token| + 7 && h[..7] == "Bearer " && h[7..] == token
  {
    "Bearer " + token
  }

  /** The session a successful login or refresh answer carries. */
  function SessionOf(data: Data): (s: Session)
    ensures data.SessionData? ==> s == Session(data.token, Some(data.userId), data.role)
    ensures !data.SessionData? ==> s == SignedOut
  {
    match data
    case SessionData(token, userId, role) => Session(token, Some(userId), role)
    case _ => SignedOut
  }

  lemma IncludesRefresh()
    ensures Includes(RefreshUrl, "/refresh")
  {
    assert OccursAt(RefreshUrl, "/refresh", 5);
  }

  /** A URL without the letter `f` does not contain `/refresh`. */
  lemma NotIncludesRefresh(url: string)
    requires forall i :: 0 <= i < |url| ==> url[i] != 'f'
    ensures !Includes(url, "/refresh")
  {
    forall i | 0 <= i <= |url| - 8
      ensures !OccursAt(url, "/refresh", i)
    {
      assert "/refresh"[3] == 'f';
      assert url[i..i + 8][3] == url[i + 3] != 'f';
    }
  }

  /** How far a call is from the end of the interceptor's recursion: a `/refresh` call never
      refreshes, a replayed call never refreshes again, a first call may do both. */
  function Rank(url: string, retry: bool): nat {
    if Includes(url, "/refresh") then 0 else if retry then 1 else 2
  }

  /** `api(config)` with the store holding `session` and `config._retry == retry`: the request
      interceptor writes `Bearer <token>`; a 2xx answer passes through; an error on a `/refresh`
      URL is rejected; a first 401 refreshes and replays the request with the new token, or, when
      the refresh fails, sends the browser to `/login` and rejects with the original error; every
      other error falls off the end of the handler, so the call resolves to `undefined`. */
  function Send(server: Wire -> Answer, deviceId: string, session: Session, url: string, body: Body,
                retry: bool): (x: Exchange)
    ensures x.session != session ==> !retry && !Includes(url, "/refresh")
    ensures x.redirected ==> !retry && x.settled.Rejected? && x.session == SignedOut
    decreases Rank(url, retry), 1
  {
    var wire := Wire(url, body, Bearer(session.token));
    match server(wire)
    case Ok(data) => Exchange(Resolved(data), session, false, [wire])
    case Fail(error) =>
      if Includes(url, "/refresh") then Exchange(Rejected(error), session, false, [wire])
      else if error.status == Some(401) && !retry then
        var refresh := RefreshCall(server, deviceId, session);
        if refresh.settled.Resolved? then
          var replay := Send(server, deviceId, refresh.session, url, body, true);
          Exchange(replay.settled, replay.session, refresh.redirected || replay.redirected,
                   [wire] + refresh.sent + replay.sent)
        else
          Exchange(Rejected(error), refresh.session, true, [wire] + refresh.sent)
      else Exchange(Undefined, session, false, [wire])
  }

  /** `refreshToken()`: posts the device id to `/auth/refresh`; on success the store takes the
      answer's token, user id and role, otherwise it is reset and the error rethrown. A call that
      resolved to `undefined` would throw when its `data` is read, so it fails too. The refresh
      succeeded iff `settled` is `Resolved`. */
  function RefreshCall(server: Wire -> Answer, deviceId: string, session: Session): (r: Exchange)
    ensures r.sent == [Wire(RefreshUrl, DeviceBody(deviceId), Bearer(session.token))] && !r.redirected
    ensures r.settled.Resolved? <==> server(r.sent[0]).Ok?
    ensures r.settled.Resolved? ==> r.session == SessionOf(r.settled.data)
    ensures !r.settled.Resolved? ==> r.session == SignedOut
    decreases 1, 0
  {
    IncludesRefresh();
    var request := Send(server, deviceId, session, RefreshUrl, DeviceBody(deviceId), false);
    if request.settled.Resolved? then request.(session := SessionOf(request.settled.data))
    else request.(session := SignedOut)
  }

  /** A 2xx answer passes through untouched: no refresh, no change to the session. */
  lemma PassThrough(server: Wire -> Answer, deviceId: string, session: Session, url: string, body: Body, retry: bool)
    requires server(Wire(url, body, Bearer(session.token))).Ok?
    ensures Send(server, deviceId, session, url, body, retry) ==
              Exchange(Resolved(server(Wire(url, body, Bearer(session.token))).data), session, false,
                       [Wire(url, body, Bearer(session.token))])
  {
  }

  /** Errors on `/refresh` URLs are rejected at once: one request, no redirect, session kept. */
  lemma RefreshErrorsRejected(server: Wire -> Answer, deviceId: string, session: Session, url: string, body: Body, retry: bool)
    requires Includes(url, "/refresh")
    requires server(Wire(url, body, Bearer(session.token))).Fail?
    ensures Send(server, deviceId, session, url, body, retry) ==
              Exchange(Rejected(server(Wire(url, body, Bearer(session.token))).error), session, false,
                       [Wire(url, body, Bearer(session.token))])
  {
  }

  /** A non-401 error, or a 401 on a request already replayed, resolves to `undefined` with
      nothing else done. */
  lemma FallThroughResolvesUndefined(server: Wire -> Answer, deviceId: string, session: Session, url: string, body: Body, retry: bool)
    requires !Includes(url, "/refresh")
    requires server(Wire(url, body, Bearer(session.token))).Fail?
    requires server(Wire(url, body, Bearer(session.token))).error.status != Some(401) || retry
    ensures Send(server, deviceId, session, url, body, retry) ==
              Exchange(Undefined, session, false, [Wire(url, body, Bearer(session.token))])
  {
  }

  /** When the refresh after a first 401 fails, the store is reset, the browser goes to `/login`
      and the call is rejected with the original 401. */
  lemma FailedRefreshSignsOut(server: Wire -> Answer, deviceId: string, session: Session, url: string, body: Body)
    requires !Includes(url, "/refresh")
    requires server(Wire(url, body, Bearer(session.token))) == Fail(AxiosError(Some(401)))
    requires !RefreshCall(server, deviceId, session).settled.Resolved?
    ensures var x := Send(server, deviceId, session, url, body, false);
            x.settled == Rejected(AxiosError(Some(401))) && x.session == SignedOut && x.redirected
  {
  }

  /** The retry path: a first 401 outside `/refresh` whose refresh succeeds settles as the replay
      of the same request under the refreshed session, which the store keeps. Three requests go
      out: the original with the old token, the refresh with the old token, and the replay with
      the new one. Nothing redirects. */
  lemma {:induction false} RefreshThenReplay(server: Wire -> Answer, deviceId: string, session: Session,
                                             url: string, body: Body)
    requires !Includes(url, "/refresh")
    requires server(Wire(url, body, Bearer(session.token))).Fail?
    requires server(Wire(url, body, Bearer(session.token))).error.status == Some(401)
    requires server(Wire(RefreshUrl, DeviceBody(deviceId), Bearer(session.token))).Ok?
    ensures var s := SessionOf(server(Wire(RefreshUrl, DeviceBody(deviceId), Bearer(session.token))).data);
            var x := Send(server, deviceId, session, url, body, false);
            && x.settled == Send(server, deviceId, s, url, body, true).settled
            && x.session == s && !x.redirected
            && x.sent == [Wire(url, body, Bearer(session.token)),
                          Wire(RefreshUrl, DeviceBody(deviceId), Bearer(session.token)),
                          Wire(url, body, Bearer(s.token))]
  {
    var refreshWire := Wire(RefreshUrl, DeviceBody(deviceId), Bearer(session.token));
    var refresh := RefreshCall(server, deviceId, session);
    assert refresh.sent == [refreshWire];
    assert refresh.settled.Resolved?;
    var s := SessionOf(server(refreshWire).data);
    IncludesRefresh();
    var request := Send(server, deviceId, session, RefreshUrl, DeviceBody(deviceId), false);
    assert request.settled == Resolved(server(refreshWire).data);
    assert refresh.session == s;
    var replay := Send(server, deviceId, s, url, body, true);
    assert replay.sent == [Wire(url, body, Bearer(s.token))] && replay.session == s && !replay.redirected;
  }

  /** A call is rejected only on a `/refresh` URL, or with a first 401 whose refresh failed, in
      which case the browser was sent to `/login` and the store was reset. Every other error
      settles as `undefined`. */
  lemma {:induction false} RejectedOnlyWhenSignedOut(server: Wire -> Answer, deviceId: string, session: Session,
                                                     url: string, body: Body, retry: bool)
    ensures var x := Send(server, deviceId, session, url, body, retry);
            x.settled.Rejected? ==>
              Includes(url, "/refresh")
              || (x.settled.error.status == Some(401) && !retry && x.redirected && x.session == SignedOut)
  {
    var x := Send(server, deviceId, session, url, body, retry);
    var wire := Wire(url, body, Bearer(session.token));
    if server(wire).Fail? && !Includes(url, "/refresh") && server(wire).error.status == Some(401) && !retry {
      var refresh := RefreshCall(server, deviceId, session);
      if refresh.settled.Resolved? {
        var replay := Send(server, deviceId, refresh.session, url, body, true);
        assert !replay.settled.Rejected?;
      }
    }
  }

  /** Every request that leaves the client carries a `Bearer` header, even when the token is
      empty; the first is the call's own request, with the token the store held. At most three go
      out: the request, one refresh and one replay; the replay is the same request. A replayed
      call sends exactly one. `RefreshThenReplay` gives the replay's token. */
  lemma {:induction false} ReplayedAtMostOnce(server: Wire -> Answer, deviceId: string, session: Session,
                                              url: string, body: Body, retry: bool)
    ensures var x := Send(server, deviceId, session, url, body, retry);
            && 1 <= |x.sent| <= 3
            && x.sent[0] == Wire(url, body, Bearer(session.token))
            && (retry || Includes(url, "/refresh") ==> |x.sent| == 1)
            && (|x.sent| > 1 ==> x.sent[1].url == RefreshUrl)
            && (|x.sent| == 3 ==> x.sent[2].url == url && x.sent[2].body == body)
            && forall i :: 0 <= i < |x.sent| ==> IsBearer(x.sent[i].authorization)
  {
    var wire := Wire(url, body, Bearer(session.token));
    if server(wire).Fail? && !Includes(url, "/refresh") && server(wire).error.status == Some(401) && !retry {
      IncludesRefresh();
      var request := Send(server, deviceId, session, RefreshUrl, DeviceBody(deviceId), false);
      assert |request.sent| == 1;
      var refresh := RefreshCall(server, deviceId, session);
      assert refresh.sent == request.sent;
      if refresh.settled.Resolved? {
        var replay := Send(server, deviceId, refresh.session, url, body, true);
        assert replay.sent == [Wire(url, body, Bearer(refresh.session.token))];
        assert Send(server, deviceId, session, url, body, retry).sent == [wire] + refresh.sent + replay.sent;
      }
    }
  }

  /** The success and failure tags the service helpers return. */
  datatype ServiceResult = Done(data: Data) | Error(errorType: string)

  const CredentialsTag: string := "CREDENTIALS"
  const ServerTag: string := "SERVER"
  const UsernameExistTag: string := "USERNAME_EXIST"
  const AuthorizationTag: string := "AUTHORIZATION"
  const LogoutErrorTag: string := "Server error"

  /** The catch blocks of `loginUser` and `registerUser`: a resolved call succeeds; an
      `AxiosError` with status 400 gives `on400`; any other error gives SERVER. A call that
      resolved to `undefined` throws a `TypeError` when its `data` is read, which is not an
      `AxiosError`, so it gives SERVER as well. */
  function StatusOutcome(settled: Settled, on400: string): (r: ServiceResult)
    ensures r.Done? <==> settled.Resolved?
    ensures r.Done? ==> r.data == settled.data
    ensures r.Error? ==> r.errorType == (if settled == Rejected(AxiosError(Some(400))) then on400 else ServerTag)
  {
    match settled
    case Resolved(data) => Done(data)
    case Rejected(AxiosError(Some(400))) => Error(on400)
    case _ => Error(ServerTag)
  }

  /** The catch blocks of the helpers that map every failure to one tag. */
  function CaughtOutcome(settled: Settled, tag: string): (r: ServiceResult)
    ensures r.Done? <==> settled.Resolved?
    ensures r.Done? ==> r.data == settled.data
    ensures r.Error? ==> r.errorType == tag
  {
    if settled.Resolved? then Done(settled.data) else Error(tag)
  }

  /** `loginUser` never reports CREDENTIALS: the server's 400 for a wrong password is not a 401,
      so the interceptor lets it fall through and the call resolves to `undefined`, which the
      helper reports as SERVER. */
  lemma LoginUserNeverReportsCredentials(server: Wire -> Answer, deviceId: string, session: Session, body: Body)
    ensures StatusOutcome(Send(server, deviceId, session, LoginUrl, body, false).settled, CredentialsTag)
            != Error(CredentialsTag)
  {
    NotIncludesRefresh(LoginUrl);
    RejectedOnlyWhenSignedOut(server, deviceId, session, LoginUrl, body, false);
  }

  /** Likewise `registerUser` never reports `USERNAME_EXIST`: a taken username is answered 400,
      which resolves to `undefined` and is reported as SERVER. */
  lemma TakenUsernameReportedAsServer(server: Wire -> Answer, deviceId: string, session: Session, body: Body)
    requires server(Wire(RegisterUrl, body, Bearer(session.token))) == Fail(AxiosError(Some(400)))
    ensures StatusOutcome(Send(server, deviceId, session, RegisterUrl, body, false).settled, UsernameExistTag)
            == Error(ServerTag)
  {
    NotIncludesRefresh(RegisterUrl);
  }

  /** The state of the client the interceptors and helpers change. */
  datatype ClientState = ClientState(session: Session, location: Option<string>, sent: seq<Wire>)

  /** The client state after a call. */
  function After(st: ClientState, x: Exchange): (r: ClientState)
    ensures r.session == x.session && r.sent == st.sent + x.sent
    ensures r.location == (if x.redirected then Some(LoginPath) else st.location)
  {
    ClientState(x.session, if x.redirected then Some(LoginPath) else st.location, st.sent + x.sent)
  }

  /** An axios request config: the URL and body, the headers the request interceptor writes and
      the `_retry` flag the response interceptor sets. */
  class RequestConfig {
    const url: string
    const body: Body
    var authorization: Option<string>
    var retry: bool

    constructor(url: string, body: Body)
      ensures this.url == url && this.body == body && authorization == None && !retry
    {
      this.url := url;
      this.body := body;
      authorization := None;
      retry := false;
    }
  }

  /** The axios instance with its interceptors, the session store, and the browser location. */
  class ApiClient {
    var session: Session
    var location: Option<string>
    /** The requests sent so far. */
    var sent: seq<Wire>
    const deviceId: string
    const server: Wire -> Answer

    ghost function Snapshot(): ClientState
      reads this
    {
      ClientState(session, location, sent)
    }

    constructor(deviceId: string, server: Wire -> Answer)
      ensures Snapshot() == ClientState(SignedOut, None, [])
      ensures this.deviceId == deviceId && this.server == server
    {
      session := SignedOut;
      location := None;
      sent := [];
      this.deviceId := deviceId;
      this.server := server;
    }

    /** The request interceptor. It guards on the store object, which is always truthy, so the
        header is written whatever the token, the empty token included. */
    method AttachToken(config: RequestConfig)
      modifies config
      ensures config.authorization == Some(Bearer(session.token))
      ensures config.retry == old(config.retry)
    {
      config.authorization := Some(Bearer(session.token));
    }

    /** `api(config)`: sends the request and runs the response interceptor on the answer. */
    method Dispatch(config: RequestConfig) returns (settled: Settled)
      modifies this, config
      decreases Rank(config.url, config.retry), 1
      ensures var x := Send(server, deviceId, old(session), config.url, config.body, old(config.retry));
              settled == x.settled && Snapshot() == After(old(Snapshot()), x)
      ensures config.retry <==>
                old(config.retry)
                || (!Includes(config.url, "/refresh")
                    && server(Wire(config.url, config.body, Bearer(old(session).token))) == Fail(AxiosError(Some(401))))
    {
      AttachToken(config);
      var wire := Wire(config.url, config.body, config.authorization.value);
      sent := sent + [wire];
      match server(wire)
      case Ok(data) =>
        settled := Resolved(data);
      case Fail(error) =>
        if Includes(config.url, "/refresh") {
          settled := Rejected(error);
        } else if error.status == Some(401) && !config.retry {
          config.retry := true;
          var refreshed := RefreshToken();
          if refreshed {
            settled := Dispatch(config);
          } else {
            location := Some(LoginPath);
            settled := Rejected(error);
          }
        } else {
          settled := Undefined;
        }
    }

    /** `refreshToken()`; `refreshed` is false where the source rethrows. */
    method RefreshToken() returns (refreshed: bool)
      modifies this
      decreases 1, 0
      ensures var x := RefreshCall(server, deviceId, old(session));
              refreshed == x.settled.Resolved? && Snapshot() == After(old(Snapshot()), x)
    {
      IncludesRefresh();
      var config := new RequestConfig(RefreshUrl, DeviceBody(deviceId));
      var settled := Dispatch(config);
      if settled.Resolved? {
        session := SessionOf(settled.data);
        refreshed := true;
      } else {
        session := SignedOut;
        refreshed := false;
      }
    }

    /** `api.get(url)` or `api.post(url, body)`: a call with a fresh config. */
    method Request(url: string, body: Body) returns (settled: Settled)
      modifies this
      ensures var x := Send(server, deviceId, old(session), url, body, false);
              settled == x.settled && Snapshot() == After(old(Snapshot()), x)
    {
      var config := new RequestConfig(url, body);
      settled := Dispatch(config);
    }

    method LoginUser(username: string, password: string, loginDeviceId: string) returns (r: ServiceResult)
      modifies this
      ensures var x := Send(server, deviceId, old(session), LoginUrl, LoginBody(username, password, loginDeviceId), false);
              r == StatusOutcome(x.settled, CredentialsTag) && Snapshot() == After(old(Snapshot()), x)
    {
      var settled := Request(LoginUrl, LoginBody(username, password, loginDeviceId));
      r := StatusOutcome(settled, CredentialsTag);
    }

    method RegisterUser(username: string, password: string) returns (r: ServiceResult)
      modifies this
      ensures var x := Send(server, deviceId, old(session), RegisterUrl, RegisterBody(username, password), false);
              r == StatusOutcome(x.settled, UsernameExistTag) && Snapshot() == After(old(Snapshot()), x)
    {
      var settled := Request(RegisterUrl, RegisterBody(username, password));
      r := StatusOutcome(settled, UsernameExistTag);
    }

    method VerifyToken() returns (r: ServiceResult)
      modifies this
      ensures var x := Send(server, deviceId, old(session), ProtectedUrl, NoBody, false);
              r == CaughtOutcome(x.settled, AuthorizationTag) && Snapshot() == After(old(Snapshot()), x)
    {
      var settled := Request(ProtectedUrl, NoBody);
      r := CaughtOutcome(settled, AuthorizationTag);
    }

    /** `logout()`: whatever the answer, the `finally` block resets the store. */
    method Logout() returns (r: ServiceResult)
      modifies this
      ensures var x := Send(server, deviceId, old(session), LogoutUrl, DeviceBody(deviceId), false);
              r == CaughtOutcome(x.settled, LogoutErrorTag)
              && Snapshot() == After(old(Snapshot()), x).(session := SignedOut)
    {
      var settled := Request(LogoutUrl, DeviceBody(deviceId));
      r := CaughtOutcome(settled, LogoutErrorTag);
      session := SignedOut;
    }

    /** `createTrip` of frontend/src/api/trip.service.ts. */
    method CreateTrip(trip: Body) returns (r: ServiceResult)
      modifies this
      ensures var x := Send(server, deviceId, old(session), TripsUrl, trip, false);
              r == CaughtOutcome(x.settled, ServerTag) && Snapshot() == After(old(Snapshot()), x)
    {
      var settled := Request(TripsUrl, trip);
      r := CaughtOutcome(settled, ServerTag);
    }

    /** `findTripsByUserId` of frontend/src/api/trip.service.ts. */
    method FindTripsByUserId() returns (r: ServiceResult)
      modifies this
      ensures var x := Send(server, deviceId, old(session), TripsUrl, NoBody, false);
              r == CaughtOutcome(x.settled, ServerTag) && Snapshot() == After(old(Snapshot()), x)
    {
      var settled := Request(TripsUrl, NoBody);
      r := CaughtOutcome(settled, ServerTag);
    }

    /** `createTripCities` of frontend/src/api/trip.service.ts; `tripPath` is the rendered
        `/trips/<id>/cities`. */
    method CreateTripCities(tripPath: string, citiesId: seq<int>) returns (r: ServiceResult)
      modifies this
      ensures var x := Send(server, deviceId, old(session), tripPath, CityIdsBody(citiesId), false);
              r == CaughtOutcome(x.settled, ServerTag) && Snapshot() == After(old(Snapshot()), x)
    {
      var settled := Request(tripPath, CityIdsBody(citiesId));
      r := CaughtOutcome(settled, ServerTag);
    }

    /** `findCitiesByName` of frontend/src/api/cities.service.ts; `citiesPath` is the rendered
        `/cities/<name>`. */
    method FindCitiesByName(citiesPath: string) returns (r: ServiceResult)
      modifies this
      ensures var x := Send(server, deviceId, old(session), citiesPath, NoBody, false);
              r == CaughtOutcome(x.settled, ServerTag) && Snapshot() == After(old(Snapshot()), x)
    {
      var settled := Request(citiesPath, NoBody);
      r := CaughtOutcome(settled, ServerTag);
    }
  }
}
