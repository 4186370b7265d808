/** The HTTP client's interceptors (src/api/RootApi.tsx). The request interceptor puts
    the stored access token on every request; the response interceptor, on a 401 whose
    error code says the access token expired or is invalid, marks the request as retried,
    asks the server for a new access token with the stored refresh token and replays the
    request once with it. `localStorage` and the request configuration are objects the
    interceptors change in place; the refresh call is not made here: its outcome is a
    parameter, consulted only on the path that makes the call. */
module RootApi {
  import opened Wrappers

  const AccessTokenKey := "accessToken"
  const RefreshTokenKey := "refreshToken"
  const AuthorizationHeader := "Authorization"

  /** The browser's `localStorage`. */
  class Storage {
    var items: map<string, string>

    constructor(items: map<string, string>)
      ensures this.items == items
    {
      this.items := items;
    }
  }

  /** A request's configuration: its headers and the `_retry` mark the response
      interceptor sets. */
  class RequestConfig {
    var headers: map<string, string>
    var retry: bool

    constructor(headers: map<string, string>)
      ensures this.headers == headers && !retry
    {
      this.headers, this.retry := headers, false;
    }
  }

  /** `localStorage.getItem(key)` where the code tests it for truthiness: a missing key
      and an empty string both read as absent. */
  function Stored(items: map<string, string>, key: string): (v: Option<string>)
    ensures v.Some? <==> key in items && items[key] != ""
    ensures v.Some? ==> v.value == items[key]
  {
    if key in items && items[key] != "" then Some(items[key]) else None
  }

  function Bearer(token: string): string
  {
    "Bearer " + token
  }

  /** The request interceptor: with a stored access token, `Authorization` is set to
      `Bearer <token>`; without one the request is left as it is. */
  method AttachToken(config: RequestConfig, storage: Storage)
    modifies config
    ensures config.retry == old(config.retry)
    ensures Stored(storage.items, AccessTokenKey).Some? ==>
      config.headers == old(config.headers)[AuthorizationHeader := Bearer(storage.items[AccessTokenKey])]
    ensures Stored(storage.items, AccessTokenKey).None? ==> config.headers == old(config.headers)
  {
    var token := Stored(storage.items, AccessTokenKey);
    if token.Some? {
      config.headers := config.headers[AuthorizationHeader := Bearer(token.value)];
    }
  }

  /** The failed response: its HTTP status (None when there was no response) and the
      `error` field of its body. */
  datatype HttpError = HttpError(status: Option<int>, code: Option<string>)

  /** What the refresh call did: answered with a body whose `accessToken` may be missing
      or empty, or failed — with an HTTP error (carrying its status, if any) or otherwise. */
  datatype RefreshOutcome =
    | Refreshed(accessToken: Option<string>)
    | RefreshFailed(isHttpError: bool, status: Option<int>)

  /** How the interceptor settles the failed request. */
  datatype Verdict = Replay | RejectOriginal | RejectRefreshError

  /** Everything the response interceptor decides. */
  datatype Plan = Plan(
    verdict: Verdict,
    markRetry: bool,        // `_retry` is set on the request
    callsRefresh: bool,     // the refresh endpoint is called
    clearStorage: bool,     // `localStorage.clear()` and the redirect to sign-in
    newToken: Option<string>)  // stored and put on the replayed request

  /** A refresh is attempted only for a 401 on a request not yet retried whose error code
      is TOKEN_EXPIRED or INVALID_TOKEN. */
  predicate Eligible(err: HttpError, retry: bool)
  {
    err.status == Some(401) && !retry
    && (err.code == Some("TOKEN_EXPIRED") || err.code == Some("INVALID_TOKEN"))
  }

  /** A refresh failure that ends the session: an HTTP error with status 403. */
  predicate SessionEnded(r: RefreshOutcome)
  {
    r.RefreshFailed? && r.isHttpError && r.status == Some(403)
  }

  /** The response interceptor's decision procedure. */
  function Decide(err: HttpError, retry: bool, refreshToken: Option<string>, refresh: RefreshOutcome): (p: Plan)
    ensures p.markRetry <==> Eligible(err, retry)
    ensures p.callsRefresh <==> Eligible(err, retry) && refreshToken.Some?
    ensures p.verdict == Replay <==> p.callsRefresh && refresh.Refreshed? && refresh.accessToken.Some?
                                     && refresh.accessToken.value != ""
    ensures p.verdict == Replay ==> !retry && p.newToken == refresh.accessToken
    ensures p.newToken.Some? ==> p.verdict == Replay
    ensures p.verdict == RejectRefreshError <==> p.callsRefresh && refresh.RefreshFailed?
    ensures p.clearStorage <==> Eligible(err, retry) && (refreshToken.None? || SessionEnded(refresh))
    ensures retry ==> p == Plan(RejectOriginal, false, false, false, None)
  {
    if !Eligible(err, retry) then Plan(RejectOriginal, false, false, false, None)
    else if refreshToken.None? then Plan(RejectOriginal, true, false, true, None)
    else match refresh
      case Refreshed(token) =>
        if token.Some? && token.value != "" then Plan(Replay, true, true, false, token)
        else Plan(RejectOriginal, true, true, false, None)
      case RefreshFailed(_, _) =>
        Plan(RejectRefreshError, true, true, SessionEnded(refresh), None)
  }

  /** The response interceptor on a failed request: it follows `Decide`, setting `_retry`,
      clearing or updating `localStorage`, and rewriting the request's `Authorization`
      header before a replay. */
  method OnResponseError(err: HttpError, config: RequestConfig, storage: Storage, refresh: RefreshOutcome)
    returns (verdict: Verdict, refreshCalled: bool)
    modifies config, storage
    ensures var p := Decide(err, old(config.retry), Stored(old(storage.items), RefreshTokenKey), refresh);
      && verdict == p.verdict && refreshCalled == p.callsRefresh
      && config.retry == (old(config.retry) || p.markRetry)
      && storage.items == (if p.clearStorage then map[]
                           else if p.newToken.Some? then old(storage.items)[AccessTokenKey := p.newToken.value]
                           else old(storage.items))
      && config.headers == (if p.newToken.Some? then old(config.headers)[AuthorizationHeader := Bearer(p.newToken.value)]
                            else old(config.headers))
  {
    verdict, refreshCalled := RejectOriginal, false;
    if err.status == Some(401) && !config.retry {
      if err.code == Some("TOKEN_EXPIRED") || err.code == Some("INVALID_TOKEN") {
        config.retry := true;
        var refreshToken := Stored(storage.items, RefreshTokenKey);
        if refreshToken.None? {
          storage.items := map[];
          return;
        }
        refreshCalled := true;
        match refresh {
          case Refreshed(token) =>
            if token.Some? && token.value != "" {
              storage.items := storage.items[AccessTokenKey := token.value];
              config.headers := config.headers[AuthorizationHeader := Bearer(token.value)];
              verdict := Replay;
              return;
            }
          case RefreshFailed(isHttpError, status) =>
            if isHttpError && status == Some(403) {
              storage.items := map[];
            }
            verdict := RejectRefreshError;
            return;
        }
      }
    }
  }

  /** A request fails with an expired token, is refreshed and replayed, and the replay
      fails the same way. (The replay goes through plain `axios`, without these
      interceptors; even if its failure did come back here,) the second failure is
      rejected without another refresh: each request is replayed at most once. */
  method ReplayedAtMostOnce(err: HttpError, headers: map<string, string>, items: map<string, string>,
                            first: RefreshOutcome, second: RefreshOutcome)
    returns (firstVerdict: Verdict, secondVerdict: Verdict, secondRefresh: bool)
    ensures firstVerdict == Replay ==> secondVerdict == RejectOriginal && !secondRefresh
  {
    var config := new RequestConfig(headers);
    var storage := new Storage(items);
    var refreshed;
    firstVerdict, refreshed := OnResponseError(err, config, storage, first);
    secondVerdict, secondRefresh := OnResponseError(err, config, storage, second);
  }
}
