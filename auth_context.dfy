/**
 * The session provider: start-up (`initAuth`), guest sessions, login,
 * registration, logout and session refresh, each a fixed sequence of storage
 * reads, writes and removals around calls through the shared client.
 */
module AuthContext {
  import opened Wrappers
  import opened Types
  import opened KeyValue
  import opened ApiClient

  /** What the auth endpoints answer with. */
  datatype AuthData = AuthData(accessToken: string, refreshToken: string, user: User)

  /** The provider's state: the client's state (storage included), `user` and `isLoading`. */
  datatype Session = Session(client: ClientState, user: Option<User>, isLoading: bool)

  /** How `login` and `register` settle: resolved, or rethrowing the client's error. */
  datatype SignInResult = SignedIn | Thrown(error: ApiError)

  const GuestPath := "/auth/guest"
  const LoginPath := "/auth/login"
  const RegisterPath := "/auth/register"
  const LogoutPath := "/auth/logout"
  const RefreshPath := "/auth/refresh"

  /** `api.post(path, body)`: no headers of its own, `_retry` unset. */
  function PostTo(path: string, body: Body): Request
  {
    Request(ApiClient.Post, path, body, map[], false)
  }

  /** The refresh call `initAuth` makes with plain axios: no headers, no interceptors. */
  function StartupRefreshCall(refreshToken: string): Request
  {
    Request(ApiClient.Post, RefreshUrl, RefreshBody(Some(refreshToken)), map[], false)
  }

  /** The three pairs `storeAuthData` writes. */
  function AuthPairs(d: AuthData): seq<(string, Value)>
  {
    [(AccessTokenKey, Text(d.accessToken)), (RefreshTokenKey, Text(d.refreshToken)), (UserKey, UserJson(d.user))]
  }

  /** `storeAuthData(data)`. */
  function StoreAuthData(entries: map<string, Value>, d: AuthData): map<string, Value>
  {
    SetAll(entries, AuthPairs(d))
  }

  /** `storeAuthData` sets the three session keys to the response and leaves every other key alone. */
  lemma StoreAuthDataSpec(entries: map<string, Value>, d: AuthData)
    ensures Lookup(StoreAuthData(entries, d), AccessTokenKey) == Some(Text(d.accessToken))
    ensures Lookup(StoreAuthData(entries, d), RefreshTokenKey) == Some(Text(d.refreshToken))
    ensures Lookup(StoreAuthData(entries, d), UserKey) == Some(UserJson(d.user))
    ensures forall k :: k !in AuthKeys ==> Lookup(StoreAuthData(entries, d), k) == Lookup(entries, k)
  {
    var pairs := AuthPairs(d);
    SetAllDistinct(entries, pairs);
    assert pairs[0].0 == AccessTokenKey && pairs[1].0 == RefreshTokenKey && pairs[2].0 == UserKey;
    forall k | k !in AuthKeys ensures Lookup(StoreAuthData(entries, d), k) == Lookup(entries, k) {
      assert forall i :: 0 <= i < |pairs| ==> pairs[i].0 != k;
    }
  }

  /**
   * `JSON.parse(storedUser || '{}')`: a missing or empty entry gives `{}`; a
   * stored user gives that user back; anything else is taken to make `parse`
   * throw (`None`).
   */
  function ParseUser(v: Option<Value>): Option<User>
  {
    match v
    case None => Some(EmptyUser)
    case Some(Text(s)) => if s == "" then Some(EmptyUser) else None
    case Some(UserJson(u)) => Some(u)
    case Some(CalendarsJson(_)) => None
  }

  /** `createGuestSession`: on success store the answer and set `user`; on failure the error is swallowed. */
  function GuestSession(s: Session, ex: Exchange<AuthData>): Session
  {
    var step := Dispatch(s.client, PostTo(GuestPath, NoBody), ex);
    match step.result
    case Resolved(d) => s.(client := step.state.(entries := StoreAuthData(step.state.entries, d)), user := Some(d.user))
    case Rejected(_) => s.(client := step.state)
  }

  /** `login` (path "/auth/login") and `register` (path "/auth/register"): the same steps. */
  function SignIn(s: Session, path: string, username: string, password: string, ex: Exchange<AuthData>): (Session, SignInResult)
  {
    var cleared := s.client.(entries := RemoveAll(s.client.entries, AuthKeys));
    var step := Dispatch(cleared, PostTo(path, Credentials(username, password)), ex);
    match step.result
    case Resolved(d) =>
      (s.(client := step.state.(entries := StoreAuthData(step.state.entries, d)), user := Some(d.user)), SignedIn)
    case Rejected(e) => (s.(client := step.state), Thrown(e))
  }

  /** `logout`: only after the POST succeeds are the four keys removed and a guest session created. */
  function LoggedOut(s: Session, exLogout: Exchange<()>, exGuest: Exchange<AuthData>): Session
  {
    var step := Dispatch(s.client, PostTo(LogoutPath, NoBody), exLogout);
    match step.result
    case Resolved(_) =>
      GuestSession(s.(client := step.state.(entries := RemoveAll(step.state.entries, AuthKeys + [CalendarsKey]))), exGuest)
    case Rejected(_) => s.(client := step.state)
  }

  /** `refreshSession`: post the stored refresh token (possibly `null`); store the answer, or log out. */
  function SessionRefreshed(s: Session, ex: Exchange<AuthData>, exLogout: Exchange<()>, exGuest: Exchange<AuthData>): Session
  {
    var refreshToken := TextOf(Lookup(s.client.entries, RefreshTokenKey));
    var step := Dispatch(s.client, PostTo(RefreshPath, RefreshBody(refreshToken)), ex);
    match step.result
    case Resolved(d) => s.(client := step.state.(entries := StoreAuthData(step.state.entries, d)))
    case Rejected(_) => LoggedOut(s.(client := step.state), exLogout, exGuest)
  }

  /** `initAuth`: resume with the stored refresh token, or fall back to a guest session; then stop loading. */
  function Initialized(s: Session, refresh: RefreshReply, exGuest: Exchange<AuthData>): Session
  {
    var storedUser := Lookup(s.client.entries, UserKey);
    var resumed :=
      match Token(s.client.entries, RefreshTokenKey)
      case None => GuestSession(s, exGuest)
      case Some(rt) =>
        var asked := s.client.(wire := s.client.wire + [StartupRefreshCall(rt)]);
        match refresh
        case RefreshFailed(_) => GuestSession(s.(client := asked), exGuest)
        case Refreshed(a, r) =>
          var stored := asked.(entries := StoreTokens(asked.entries, a, r));
          match ParseUser(storedUser)
          case Some(u) => s.(client := stored, user := Some(u))
          case None => GuestSession(s.(client := stored), exGuest);
    resumed.(isLoading := false)
  }

  /** With no stored refresh token, start-up is exactly a guest session. */
  lemma InitWithoutRefreshTokenIsGuest(s: Session, refresh: RefreshReply, exGuest: Exchange<AuthData>)
    requires Token(s.client.entries, RefreshTokenKey).None?
    ensures Initialized(s, refresh, exGuest) == GuestSession(s, exGuest).(isLoading := false)
  {
  }

  /** A successful start-up refresh stores both tokens and takes `user` from the stored record (or `{}`). */
  lemma InitRefreshSuccess(s: Session, a: string, r: string, exGuest: Exchange<AuthData>)
    requires Token(s.client.entries, RefreshTokenKey).Some?
    requires ParseUser(Lookup(s.client.entries, UserKey)).Some?
    ensures var after := Initialized(s, Refreshed(a, r), exGuest);
            after.client.entries == StoreTokens(s.client.entries, a, r) &&
            after.client.defaultAuthorization == s.client.defaultAuthorization &&
            after.user == ParseUser(Lookup(s.client.entries, UserKey)) &&
            (Lookup(s.client.entries, UserKey).None? ==> after.user == Some(EmptyUser))
  {
  }

  /** A failed start-up refresh falls back to a guest session. */
  lemma InitRefreshFailureIsGuest(s: Session, status: Option<int>, exGuest: Exchange<AuthData>)
    requires Token(s.client.entries, RefreshTokenKey).Some?
    ensures var rt := Token(s.client.entries, RefreshTokenKey).value;
            Initialized(s, RefreshFailed(status), exGuest) ==
            GuestSession(s.(client := s.client.(wire := s.client.wire + [StartupRefreshCall(rt)])), exGuest).(isLoading := false)
  {
  }

  /** Whatever the network does, start-up ends with `isLoading` false, so the provider renders. */
  lemma InitAlwaysFinishes(s: Session, refresh: RefreshReply, exGuest: Exchange<AuthData>)
    ensures !Initialized(s, refresh, exGuest).isLoading
    ensures Initialized(s, refresh, exGuest).user.Some? || Initialized(s, refresh, exGuest).user == s.user
  {
  }

  /**
   * A guest session that the server grants writes the three session keys
   * and sets `user`; a refusal that is not a 401 changes nothing but the wire.
   */
  lemma GuestSessionSpec(s: Session, ex: Exchange<AuthData>)
    ensures ex.first.Ok? ==>
              var g := GuestSession(s, ex);
              g.user == Some(ex.first.data.user) &&
              g.client.entries == StoreAuthData(s.client.entries, ex.first.data) &&
              g.isLoading == s.isLoading
    ensures ex.first.Fail? && ex.first.status != Some(Unauthorized) ==>
              GuestSession(s, ex) == s.(client := s.client.(wire := s.client.wire + [Outgoing(s.client, PostTo(GuestPath, NoBody))]))
  {
  }

  /** Whatever the answer, once `user` is unchanged by a failed guest request. */
  lemma GuestFailureKeepsUser(s: Session, ex: Exchange<AuthData>)
    requires Dispatch(s.client, PostTo(GuestPath, NoBody), ex).result.Rejected?
    ensures GuestSession(s, ex).user == s.user && GuestSession(s, ex).isLoading == s.isLoading
  {
  }

  /**
   * `login`/`register` clear the three keys first. On success the keys hold
   * the response and `user` is its user; on failure the keys stay cleared,
   * `user` is unchanged and the error is rethrown.
   */
  lemma SignInSpec(s: Session, path: string, username: string, password: string, ex: Exchange<AuthData>)
    ensures SignIn(s, path, username, password, ex).1.SignedIn? <==> ex.first.Ok?
    ensures ex.first.Ok? ==>
              var after := SignIn(s, path, username, password, ex).0;
              after.user == Some(ex.first.data.user) &&
              after.client.entries == StoreAuthData(RemoveAll(s.client.entries, AuthKeys), ex.first.data)
    ensures var (after, outcome) := SignIn(s, path, username, password, ex);
            (outcome.SignedIn? ==>
               after.user.Some? &&
               Lookup(after.client.entries, UserKey) == Some(UserJson(after.user.value)) &&
               Lookup(after.client.entries, AccessTokenKey).Some? && Lookup(after.client.entries, RefreshTokenKey).Some?) &&
            (outcome.Thrown? ==>
               after.user == s.user &&
               forall k :: k in AuthKeys ==> k !in after.client.entries)
    ensures forall k :: k !in AuthKeys ==>
              Lookup(SignIn(s, path, username, password, ex).0.client.entries, k) == Lookup(s.client.entries, k)
  {
    var cleared := s.client.(entries := RemoveAll(s.client.entries, AuthKeys));
    var request := PostTo(path, Credentials(username, password));
    var step := Dispatch(cleared, request, ex);
    assert Token(cleared.entries, RefreshTokenKey).None?;
    forall k | k !in AuthKeys ensures Lookup(step.state.entries, k) == Lookup(s.client.entries, k) {
      DispatchKeepsOtherKeys(cleared, request, ex, k);
    }
    if step.result.Resolved? {
      StoreAuthDataSpec(step.state.entries, step.result.data);
    } else {
      NoRefreshTokenNoReplay(cleared, request, ex);
    }
    if ex.first.Fail? {
      var out := Outgoing(cleared, request);
      var sent := cleared.(wire := cleared.wire + [out]);
      if ShouldRefresh(ex.first.status, out) {
        assert Dispatch(cleared, request, ex) == RefreshAndReplay(sent, out.(retry := true), ex);
        assert Token(sent.entries, RefreshTokenKey).None?;
      }
    }
  }

  /** From a state with no refresh token, a failed call leaves at most the cleared keys behind. */
  lemma NoRefreshTokenNoReplay<T>(c: ClientState, request: Request, ex: Exchange<T>)
    requires Token(c.entries, RefreshTokenKey).None? && !request.retry
    requires forall k :: k in AuthKeys ==> k !in c.entries
    ensures var step := Dispatch(c, request, ex);
            |step.state.wire| == |c.wire| + 1 &&
            (step.result.Rejected? ==> forall k :: k in AuthKeys ==> k !in step.state.entries) &&
            (ex.first == Fail(Some(Unauthorized)) ==> step.result == Rejected(RefreshTokenNotFound))
  {
    var out := Outgoing(c, request);
    var sent := c.(wire := c.wire + [out]);
    if ex.first.Fail? && ShouldRefresh(ex.first.status, out) {
      assert Dispatch(c, request, ex) == RefreshAndReplay(sent, out.(retry := true), ex);
      assert Token(sent.entries, RefreshTokenKey).None?;
    }
  }

  /**
   * Because the keys were just cleared, a 401 on the credentials finds no
   * refresh token: the call rejects with "refresh token not found" and no
   * refresh request is sent.
   */
  lemma SignInUnauthorized(s: Session, path: string, username: string, password: string, ex: Exchange<AuthData>)
    requires ex.first == Fail(Some(Unauthorized))
    ensures SignIn(s, path, username, password, ex).1 == Thrown(RefreshTokenNotFound)
    ensures |SignIn(s, path, username, password, ex).0.client.wire| == |s.client.wire| + 1
  {
    var cleared := s.client.(entries := RemoveAll(s.client.entries, AuthKeys));
    NoRefreshTokenNoReplay(cleared, PostTo(path, Credentials(username, password)), ex);
  }

  /**
   * After a successful logout POST the session keys and "@calendars" are
   * removed and then a guest session is requested; a refused POST that is
   * not a 401 leaves storage and `user` untouched.
   */
  lemma LogoutSpec(s: Session, exLogout: Exchange<()>, exGuest: Exchange<AuthData>)
    ensures exLogout.first.Ok? ==>
              var sent := s.client.(wire := s.client.wire + [Outgoing(s.client, PostTo(LogoutPath, NoBody))]);
              LoggedOut(s, exLogout, exGuest) ==
              GuestSession(s.(client := sent.(entries := RemoveAll(s.client.entries, AuthKeys + [CalendarsKey]))), exGuest)
    ensures exLogout.first.Fail? && exLogout.first.status != Some(Unauthorized) ==>
              var after := LoggedOut(s, exLogout, exGuest);
              after.client.entries == s.client.entries && after.user == s.user
  {
  }

  /** After a logout whose POST and guest request both succeed, no saved calendar list is left. */
  lemma LogoutForgetsCalendars(s: Session, exLogout: Exchange<()>, exGuest: Exchange<AuthData>)
    requires exLogout.first.Ok? && exGuest.first.Ok?
    ensures CalendarsKey !in LoggedOut(s, exLogout, exGuest).client.entries
    ensures LoggedOut(s, exLogout, exGuest).user == Some(exGuest.first.data.user)
  {
    var sent := s.client.(wire := s.client.wire + [Outgoing(s.client, PostTo(LogoutPath, NoBody))]);
    var removed := sent.(entries := RemoveAll(s.client.entries, AuthKeys + [CalendarsKey]));
    StoreAuthDataSpec(removed.entries, exGuest.first.data);
    assert Lookup(removed.entries, CalendarsKey) == None;
  }

  /** `refreshSession` stores the new data on success and never sets `user` itself; any failure logs out. */
  lemma RefreshSessionSpec(s: Session, ex: Exchange<AuthData>, exLogout: Exchange<()>, exGuest: Exchange<AuthData>)
    ensures var request := PostTo(RefreshPath, RefreshBody(TextOf(Lookup(s.client.entries, RefreshTokenKey))));
            var step := Dispatch(s.client, request, ex);
            var after := SessionRefreshed(s, ex, exLogout, exGuest);
            (step.result.Resolved? ==>
               after.user == s.user && after.client.entries == StoreAuthData(step.state.entries, step.result.data)) &&
            (step.result.Rejected? ==> after == LoggedOut(s.(client := step.state), exLogout, exGuest))
  {
  }

  /**
   * A refresh that fails, followed by a logout POST that succeeds and a guest
   * request refused with a status other than 401, leaves no session key and
   * no saved calendar list behind, and `user` as it was.
   */
  lemma FailedRefreshForgetsSession(s: Session, ex: Exchange<AuthData>, exLogout: Exchange<()>, exGuest: Exchange<AuthData>)
    requires Dispatch(s.client, PostTo(RefreshPath, RefreshBody(TextOf(Lookup(s.client.entries, RefreshTokenKey)))), ex).result.Rejected?
    requires exLogout.first.Ok?
    requires exGuest.first.Fail? && exGuest.first.status != Some(Unauthorized)
    ensures var after := SessionRefreshed(s, ex, exLogout, exGuest);
            after.user == s.user && forall k :: k in AuthKeys + [CalendarsKey] ==> k !in after.client.entries
  {
    var request := PostTo(RefreshPath, RefreshBody(TextOf(Lookup(s.client.entries, RefreshTokenKey))));
    var failed := s.(client := Dispatch(s.client, request, ex).state);
    LogoutSpec(failed, exLogout, exGuest);
    var sent := failed.client.(wire := failed.client.wire + [Outgoing(failed.client, PostTo(LogoutPath, NoBody))]);
    var cleared := failed.(client := sent.(entries := RemoveAll(failed.client.entries, AuthKeys + [CalendarsKey])));
    GuestSessionSpec(cleared, exGuest);
  }

  /** The provider. */
  class AuthProvider {
    const api: Client
    var user: Option<User>
    var isLoading: bool

    ghost function State(): Session
      reads this, api, api.storage
    {
      Session(api.State(), user, isLoading)
    }

    /** `useState<User | null>(null)` and `useState(true)`. */
    constructor (api: Client)
      ensures this.api == api && user == None && isLoading
    {
      this.api := api;
      user := None;
      isLoading := true;
    }

    /** `if (isLoading) return null`: the children are rendered only once loading is over. */
    predicate Renders()
      reads this
    {
      !isLoading
    }

    method StoreAuth(d: AuthData)
      modifies api.storage
      ensures api.storage.entries == StoreAuthData(old(api.storage.entries), d)
    {
      api.storage.MultiSet(AuthPairs(d));
    }

    method CreateGuestSession(ex: Exchange<AuthData>)
      modifies this, api, api.storage
      ensures State() == GuestSession(old(State()), ex)
    {
      var response := api.Send(PostTo(GuestPath, NoBody), ex);
      if response.Resolved? {
        StoreAuth(response.data);
        user := Some(response.data.user);
      }
    }

    method SignInAt(path: string, username: string, password: string, ex: Exchange<AuthData>) returns (outcome: SignInResult)
      modifies this, api, api.storage
      ensures (State(), outcome) == SignIn(old(State()), path, username, password, ex)
    {
      api.storage.MultiRemove(AuthKeys);
      var response := api.Send(PostTo(path, Credentials(username, password)), ex);
      match response {
        case Resolved(d) =>
          StoreAuth(d);
          user := Some(d.user);
          outcome := SignedIn;
        case Rejected(e) =>
          outcome := Thrown(e);
      }
    }

    method Login(username: string, password: string, ex: Exchange<AuthData>) returns (outcome: SignInResult)
      modifies this, api, api.storage
      ensures (State(), outcome) == SignIn(old(State()), LoginPath, username, password, ex)
    {
      outcome := SignInAt(LoginPath, username, password, ex);
    }

    method Register(username: string, password: string, ex: Exchange<AuthData>) returns (outcome: SignInResult)
      modifies this, api, api.storage
      ensures (State(), outcome) == SignIn(old(State()), RegisterPath, username, password, ex)
    {
      outcome := SignInAt(RegisterPath, username, password, ex);
    }

    method Logout(exLogout: Exchange<()>, exGuest: Exchange<AuthData>)
      modifies this, api, api.storage
      ensures State() == LoggedOut(old(State()), exLogout, exGuest)
    {
      var response := api.Send(PostTo(LogoutPath, NoBody), exLogout);
      if response.Resolved? {
        api.storage.MultiRemove(AuthKeys + [CalendarsKey]);
        CreateGuestSession(exGuest);
      }
    }

    method RefreshSession(ex: Exchange<AuthData>, exLogout: Exchange<()>, exGuest: Exchange<AuthData>)
      modifies this, api, api.storage
      ensures State() == SessionRefreshed(old(State()), ex, exLogout, exGuest)
    {
      var refreshToken := api.storage.GetItem(RefreshTokenKey);
      var response := api.Send(PostTo(RefreshPath, RefreshBody(TextOf(refreshToken))), ex);
      match response {
        case Resolved(d) => StoreAuth(d);
        case Rejected(_) => Logout(exLogout, exGuest);
      }
    }

    /** `initAuth`; `refresh` is the answer to the start-up refresh call. */
    method InitAuth(refresh: RefreshReply, exGuest: Exchange<AuthData>)
      modifies this, api, api.storage
      ensures State() == Initialized(old(State()), refresh, exGuest)
      ensures Renders()
    {
      var refreshToken := api.storage.GetItem(RefreshTokenKey);
      var storedUser := api.storage.GetItem(UserKey);
      match TruthyText(refreshToken) {
        case None =>
          CreateGuestSession(exGuest);
        case Some(rt) =>
          api.wire := api.wire + [StartupRefreshCall(rt)];
          match refresh {
            case RefreshFailed(_) =>
              CreateGuestSession(exGuest);
            case Refreshed(a, r) =>
              api.storage.MultiSet([(AccessTokenKey, Text(a)), (RefreshTokenKey, Text(r))]);
              match ParseUser(storedUser) {
                case Some(u) => user := Some(u);
                case None => CreateGuestSession(exGuest);
              }
          }
      }
      isLoading := false;
    }
  }
}
