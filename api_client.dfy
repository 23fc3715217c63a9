/**
 * The shared HTTP client: a request interceptor that adds the stored bearer
 * token, and a response interceptor that answers a 401 by refreshing the
 * tokens and replaying the request once. What the network answers is an
 * input: for one call, the reply to the request, the reply to the refresh
 * call and the reply to the replay.
 */
module ApiClient {
  import opened Wrappers
  import opened KeyValue

  datatype Verb = Get | Post | Put | Delete

  datatype Body =
    | NoBody
    | Credentials(username: string, password: string)
    | RefreshBody(refreshToken: Option<string>)   // `{ refreshToken }`, possibly `null`

  /** A request configuration; `retry` is axios's `_retry` flag. */
  datatype Request = Request(verb: Verb, url: string, body: Body, headers: map<string, string>, retry: bool)

  /** What the server answers: a payload, or an error with its status (`None`: no response). */
  datatype Reply<T> = Ok(data: T) | Fail(status: Option<int>)

  /** What the refresh endpoint answers. */
  datatype RefreshReply =
    | Refreshed(accessToken: string, refreshToken: string)
    | RefreshFailed(status: Option<int>)

  /** The network's answers for one call: to the request, to a refresh, to a replay. */
  datatype Exchange<T> = Exchange(first: Reply<T>, refresh: RefreshReply, replay: Reply<T>)

  datatype ApiError =
    | HttpError(status: Option<int>, request: Request)   // the error the interceptor received
    | RefreshTokenNotFound                               // `new Error('Refresh token not found')`
    | RefreshError(status: Option<int>)                  // the refresh call's own error

  /** How the promise returned by `api(config)` settles. */
  datatype ApiResult<T> = Resolved(data: T) | Rejected(error: ApiError)

  /**
   * The client's observable state: storage, the instance's default
   * `Authorization` header, and the requests put on the wire so far.
   */
  datatype ClientState = ClientState(entries: map<string, Value>, defaultAuthorization: Option<string>, wire: seq<Request>)

  datatype Step<T> = Step(state: ClientState, result: ApiResult<T>)

  const AuthorizationHeader := "Authorization"
  const Unauthorized := 401
  /** The refresh call goes to this absolute URL through plain axios, not through this client. */
  const RefreshUrl := "http://46.146.235.134:3000/api/auth/refresh"

  function Bearer(token: string): string
  {
    "Bearer " + token
  }

  /** The request interceptor: with a stored token, set `Authorization`; otherwise change nothing. */
  function Authorize(config: Request, token: Option<string>): (r: Request)
    ensures token.None? ==> r == config
    ensures token.Some? ==> AuthorizationHeader in r.headers && r.headers[AuthorizationHeader] == Bearer(token.value)
    ensures r.verb == config.verb && r.url == config.url && r.body == config.body && r.retry == config.retry
    ensures forall h :: h != AuthorizationHeader ==>
              (h in r.headers <==> h in config.headers) && (h in r.headers ==> r.headers[h] == config.headers[h])
  {
    if token.Some? then config.(headers := config.headers[AuthorizationHeader := Bearer(token.value)])
    else config
  }

  /** axios merges the instance's default headers under the request's own. */
  function WithDefaults(config: Request, defaultAuthorization: Option<string>): Request
  {
    if defaultAuthorization.Some? && AuthorizationHeader !in config.headers
    then config.(headers := config.headers[AuthorizationHeader := defaultAuthorization.value])
    else config
  }

  /** The request as it leaves the client. */
  function Outgoing(s: ClientState, config: Request): Request
  {
    Authorize(WithDefaults(config, s.defaultAuthorization), Token(s.entries, AccessTokenKey))
  }

  /** The refresh call the response interceptor makes. */
  function RefreshCall(refreshToken: string): Request
  {
    Request(Post, RefreshUrl, RefreshBody(Some(refreshToken)),
            map["Content-Type" := "application/json", "Accept" := "application/json"], false)
  }

  /** `error.response?.status === 401 && !originalRequest?._retry`. */
  predicate ShouldRefresh(status: Option<int>, request: Request)
  {
    status == Some(Unauthorized) && !request.retry
  }

  /** The pair `multiSet` writes after a successful refresh. */
  function StoreTokens(entries: map<string, Value>, accessToken: string, refreshToken: string): map<string, Value>
  {
    SetAll(entries, [(AccessTokenKey, Text(accessToken)), (RefreshTokenKey, Text(refreshToken))])
  }

  /** `api(config)`: both interceptors around one exchange with the server. */
  function Dispatch<T>(s: ClientState, config: Request, ex: Exchange<T>): Step<T>
    decreases if config.retry then 0 else 2
  {
    var out := Outgoing(s, config);
    var sent := s.(wire := s.wire + [out]);
    match ex.first
    case Ok(d) => Step(sent, Resolved(d))
    case Fail(status) =>
      if ShouldRefresh(status, out) then RefreshAndReplay(sent, out.(retry := true), ex)
      else Step(sent, Rejected(HttpError(status, out)))
  }

  /** The 401 branch, after `_retry` has been set on the failed request. */
  function RefreshAndReplay<T>(s: ClientState, marked: Request, ex: Exchange<T>): Step<T>
    requires marked.retry
    decreases 1
  {
    match Token(s.entries, RefreshTokenKey)
    case None => Step(s.(entries := RemoveAll(s.entries, AuthKeys)), Rejected(RefreshTokenNotFound))
    case Some(rt) =>
      var asked := s.(wire := s.wire + [RefreshCall(rt)]);
      match ex.refresh
      case RefreshFailed(status) =>
        Step(asked.(entries := RemoveAll(asked.entries, AuthKeys)), Rejected(RefreshError(status)))
      case Refreshed(a, r) =>
        var renewed := asked.(entries := StoreTokens(asked.entries, a, r), defaultAuthorization := Some(Bearer(a)));
        Dispatch(renewed, marked.(headers := marked.headers[AuthorizationHeader := Bearer(a)]), ex.(first := ex.replay))
  }

  /** The request that replays `out` with a new access token. */
  function Replayed(out: Request, accessToken: string): Request
  {
    out.(retry := true, headers := out.headers[AuthorizationHeader := Bearer(accessToken)])
  }

  /**
   * With a non-empty stored access token `t` a request carries `Bearer <t>`;
   * without one it carries only the instance defaults, which may still hold
   * the header set after an earlier refresh.
   */
  lemma OutgoingCarriesStoredToken(s: ClientState, config: Request)
    ensures Token(s.entries, AccessTokenKey).Some? ==>
              Outgoing(s, config).headers[AuthorizationHeader] == Bearer(Token(s.entries, AccessTokenKey).value)
    ensures Token(s.entries, AccessTokenKey).None? ==>
              Outgoing(s, config) == WithDefaults(config, s.defaultAuthorization)
  {
  }

  /** A successful response passes through unchanged and touches no storage. */
  lemma SuccessPassesThrough<T>(s: ClientState, config: Request, ex: Exchange<T>)
    requires ex.first.Ok?
    ensures Dispatch(s, config, ex) ==
            Step(s.(wire := s.wire + [Outgoing(s, config)]), Resolved(ex.first.data))
  {
  }

  /**
   * An error that is not a 401, or a 401 on a request already retried, is
   * rejected with that same error, and nothing but the wire changes.
   */
  lemma OtherErrorsRejected<T>(s: ClientState, config: Request, ex: Exchange<T>)
    requires ex.first.Fail? && !ShouldRefresh(ex.first.status, config)
    ensures Dispatch(s, config, ex) ==
            Step(s.(wire := s.wire + [Outgoing(s, config)]), Rejected(HttpError(ex.first.status, Outgoing(s, config))))
  {
  }

  /** Without a refresh token, or when the refresh fails, the session keys are removed and the call rejects. */
  lemma RefreshFailureClearsSession<T>(s: ClientState, config: Request, ex: Exchange<T>)
    requires ex.first.Fail? && ShouldRefresh(ex.first.status, config)
    requires Token(s.entries, RefreshTokenKey).None? || ex.refresh.RefreshFailed?
    ensures var step := Dispatch(s, config, ex);
            step.state.entries == RemoveAll(s.entries, AuthKeys) &&
            step.state.defaultAuthorization == s.defaultAuthorization &&
            step.result.Rejected? && !step.result.error.HttpError? &&
            (Token(s.entries, RefreshTokenKey).None? ==> step.result.error == RefreshTokenNotFound)
  {
  }

  /**
   * After a successful refresh both tokens are stored, the replay carries the
   * new token and `_retry`, and the call settles as the replay does: a second
   * failure, 401 included, is rejected and never refreshed again.
   */
  lemma RefreshSuccessReplaysOnce<T>(s: ClientState, config: Request, ex: Exchange<T>)
    requires ex.first.Fail? && ShouldRefresh(ex.first.status, config)
    requires Token(s.entries, RefreshTokenKey).Some? && ex.refresh.Refreshed?
    ensures var out := Outgoing(s, config);
            var rt := Token(s.entries, RefreshTokenKey).value;
            var a := ex.refresh.accessToken;
            var entries' := StoreTokens(s.entries, a, ex.refresh.refreshToken);
            var replay := Outgoing(ClientState(entries', Some(Bearer(a)), []), Replayed(out, a));
            var step := Dispatch(s, config, ex);
            step.state == ClientState(entries', Some(Bearer(a)), s.wire + [out, RefreshCall(rt), replay]) &&
            replay.retry && replay.headers[AuthorizationHeader] == Bearer(a) &&
            step.result == match ex.replay
                           case Ok(d) => Resolved(d)
                           case Fail(status) => Rejected(HttpError(status, replay))
  {
    var out := Outgoing(s, config);
    var rt := Token(s.entries, RefreshTokenKey).value;
    var a := ex.refresh.accessToken;
    var entries' := StoreTokens(s.entries, a, ex.refresh.refreshToken);
    SetAllDistinct(s.entries, [(AccessTokenKey, Text(a)), (RefreshTokenKey, Text(ex.refresh.refreshToken))]);
    assert Token(entries', AccessTokenKey).Some? ==> Token(entries', AccessTokenKey).value == a;
    var renewed := ClientState(entries', Some(Bearer(a)), s.wire + [out, RefreshCall(rt)]);
    assert Dispatch(s, config, ex) == RefreshAndReplay(s.(wire := s.wire + [out]), out.(retry := true), ex);
    assert RefreshAndReplay(s.(wire := s.wire + [out]), out.(retry := true), ex) ==
           Dispatch(renewed, Replayed(out, a), ex.(first := ex.replay));
    assert Outgoing(renewed, Replayed(out, a)) == Outgoing(ClientState(entries', Some(Bearer(a)), []), Replayed(out, a));
  }

  /**
   * One call puts at most three requests on the wire: the request, a refresh
   * call and one replay; a request whose `_retry` is already set goes out once.
   */
  lemma AtMostOneReplay<T>(s: ClientState, config: Request, ex: Exchange<T>)
    ensures var w := Dispatch(s, config, ex).state.wire;
            |s.wire| < |w| <= |s.wire| + 3 && w[..|s.wire|] == s.wire &&
            w[|s.wire|] == Outgoing(s, config) &&
            (config.retry ==> |w| == |s.wire| + 1) &&
            (|w| == |s.wire| + 3 ==> w[|s.wire| + 1].url == RefreshUrl && w[|s.wire| + 2].retry)
  {
    var out := Outgoing(s, config);
    if ex.first.Fail? && ShouldRefresh(ex.first.status, out) && Token(s.entries, RefreshTokenKey).Some? && ex.refresh.Refreshed? {
      RefreshSuccessReplaysOnce(s, config, ex);
    }
  }

  /** The client writes only the three session keys; "@calendars" and every other key are left alone. */
  lemma DispatchKeepsOtherKeys<T>(s: ClientState, config: Request, ex: Exchange<T>, key: string)
    requires key !in AuthKeys
    ensures Lookup(Dispatch(s, config, ex).state.entries, key) == Lookup(s.entries, key)
  {
    var out := Outgoing(s, config);
    if ex.first.Fail? && ShouldRefresh(ex.first.status, out) && Token(s.entries, RefreshTokenKey).Some? && ex.refresh.Refreshed? {
      var a := ex.refresh.accessToken;
      SetAllDistinct(s.entries, [(AccessTokenKey, Text(a)), (RefreshTokenKey, Text(ex.refresh.refreshToken))]);
      RefreshSuccessReplaysOnce(s, config, ex);
    }
  }

  /** The axios instance `api`, over the shared storage. */
  class Client {
    const storage: Storage
    var defaultAuthorization: Option<string>
    ghost var wire: seq<Request>

    ghost function State(): ClientState
      reads this, storage
    {
      ClientState(storage.entries, defaultAuthorization, wire)
    }

    constructor (storage: Storage)
      ensures this.storage == storage && defaultAuthorization == None && wire == []
    {
      this.storage := storage;
      defaultAuthorization := None;
      wire := [];
    }

    /** `api(config)`. */
    method Send<T>(config: Request, ex: Exchange<T>) returns (r: ApiResult<T>)
      modifies this, storage
      ensures Step(State(), r) == Dispatch(old(State()), config, ex)
      decreases if config.retry then 0 else 2
    {
      // request interceptor
      var accessToken := storage.GetItem(AccessTokenKey);
      var out := Authorize(WithDefaults(config, defaultAuthorization), TruthyText(accessToken));
      wire := wire + [out];
      // response interceptor
      match ex.first {
        case Ok(d) =>
          r := Resolved(d);
        case Fail(status) =>
          if ShouldRefresh(status, out) {
            r := RefreshAndRetry(out.(retry := true), ex);
          } else {
            r := Rejected(HttpError(status, out));
          }
      }
    }

    method RefreshAndRetry<T>(marked: Request, ex: Exchange<T>) returns (r: ApiResult<T>)
      requires marked.retry
      modifies this, storage
      ensures Step(State(), r) == RefreshAndReplay(old(State()), marked, ex)
      decreases 1
    {
      var refreshToken := storage.GetItem(RefreshTokenKey);
      match TruthyText(refreshToken) {
        case None =>
          storage.MultiRemove(AuthKeys);
          r := Rejected(RefreshTokenNotFound);
        case Some(rt) =>
          wire := wire + [RefreshCall(rt)];
          match ex.refresh {
            case RefreshFailed(status) =>
              storage.MultiRemove(AuthKeys);
              r := Rejected(RefreshError(status));
            case Refreshed(a, newRefresh) =>
              storage.MultiSet([(AccessTokenKey, Text(a)), (RefreshTokenKey, Text(newRefresh))]);
              defaultAuthorization := Some(Bearer(a));
              r := Send(marked.(headers := marked.headers[AuthorizationHeader := Bearer(a)]), ex.(first := ex.replay));
          }
      }
    }
  }
}
