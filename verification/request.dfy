/** The HTTP client's interceptors (src/utils/request.ts): the bearer header
    on the way out, and on the way back the handling of failures, where a
    401 drives a single token refresh that the other rejected requests
    wait for. */
module Request {
  import opened Wrappers
  import opened Strings
  import opened Json
  import opened UserStore

  const AuthorizationHeader := "Authorization"
  const RefreshPath := "/api/auth/refresh"
  const LoginRoute := "/auth/login"

  const NetworkFailure := "网络连接失败，请检查网络设置"
  const SessionExpired := "登录已过期，请重新登录"
  const PleaseLogIn := "请先登录"
  const RequestFailed := "请求失败，请稍后重试"
  const Forbidden := "没有权限访问该资源"
  const NotFound := "请求的资源不存在"
  const ServerError := "服务器错误，请稍后重试"

  function Bearer(token: string): string {
    "Bearer " + token
  }

  /** An outgoing request, as far as the interceptors look at it. */
  class RequestConfig {
    var url: Option<string>
    var headers: map<string, string>

    constructor (url: Option<string>, headers: map<string, string>)
      ensures this.url == url && this.headers == headers
    {
      this.url := url;
      this.headers := headers;
    }

    /** Sets `Authorization: Bearer <token>`. */
    method Authorize(token: string)
      modifies this
      ensures headers == old(headers)[AuthorizationHeader := Bearer(token)]
      ensures url == old(url)
    {
      headers := headers[AuthorizationHeader := Bearer(token)];
    }

    predicate IsRefreshCall()
      reads this
    {
      url.Some? && Contains(url.value, RefreshPath)
    }
  }

  /** The request interceptor: the bearer header is set exactly when an
      access token is held. */
  method AttachBearer(config: RequestConfig, user: Store)
    modifies config
    ensures user.accessToken != [] ==>
              config.headers == old(config.headers)[AuthorizationHeader := Bearer(user.accessToken)]
    ensures user.accessToken == [] ==> config.headers == old(config.headers)
    ensures config.url == old(config.url)
  {
    if user.accessToken != [] {
      config.Authorize(user.accessToken);
    }
  }

  /** A failed response as the error interceptor sees it: none at all, or a
      status with the body's `message` field (missing when the body has none). */
  datatype Failure = NoResponse | Responded(status: int, message: Option<Json>) {
    predicate Unauthorized() {
      Responded? && status == 401
    }
  }

  /** The toast for a failure other than a 401: fixed text for 403, 404 and
      500, and for 400 and every other status the body's message when it is
      truthy, else a generic text. The toast is never empty. */
  function StatusMessage(status: int, message: Option<Json>): (r: Json)
    ensures Truthy(r)
    ensures status == 403 ==> r == Str(Forbidden)
    ensures status == 404 ==> r == Str(NotFound)
    ensures status == 500 ==> r == Str(ServerError)
    ensures status != 403 && status != 404 && status != 500 ==>
              (TruthyOpt(message) ==> r == message.value) && (!TruthyOpt(message) ==> r == Str(RequestFailed))
  {
    var errorMessage := if TruthyOpt(message) then message.value else Str(RequestFailed);
    if status == 403 then Str(Forbidden)
    else if status == 404 then Str(NotFound)
    else if status == 500 then Str(ServerError)
    else errorMessage
  }

  /** What the error interceptor does with one failure. */
  datatype Reaction =
    | Rejected(toast: Json, route: Option<string>)  // settles with an error after a toast, maybe navigating
    | RefreshStarted(refreshToken: string)          // posts this refresh token and waits for the answer
    | Queued                                        // waits for the refresh in flight

  /** The refresh endpoint's answer: a reply with a code and tokens, or an exception. */
  datatype RefreshAnswer = Replied(code: int, tokens: TokenData) | Threw

  /** The module-level refresh state: the `isRefreshing` flag, the queue of
      requests waiting for a new token, and the request whose 401 started
      the refresh in flight (the one awaiting the refresh call). */
  /** Replays the queued callbacks in order: each gives its request the
      new bearer token. A request queued twice ends with the same header. */
  method AuthorizeAll(queue: seq<RequestConfig>, token: string)
    modifies set c | c in queue
    ensures forall k :: 0 <= k < |queue| ==>
              queue[k].headers == old(queue[k].headers)[AuthorizationHeader := Bearer(token)]
    ensures forall k :: 0 <= k < |queue| ==> queue[k].url == old(queue[k].url)
  {
    var i := 0;
    while i < |queue|
      invariant 0 <= i <= |queue|
      invariant forall c :: c in queue[..i] ==> c.headers == old(c.headers)[AuthorizationHeader := Bearer(token)]
      invariant forall c :: c in queue[i..] && c !in queue[..i] ==> c.headers == old(c.headers)
      invariant forall c :: c in queue ==> c.url == old(c.url)
    {
      queue[i].Authorize(token);
      assert queue[..i + 1] == queue[..i] + [queue[i]];
      i := i + 1;
    }
    assert queue[..|queue|] == queue;
  }

  class RefreshCoordinator {
    const user: Store
    var isRefreshing: bool
    var requestQueue: seq<RequestConfig>
    var owner: Option<RequestConfig>

    /** At most one refresh is in flight, and requests wait only while one is. */
    predicate Valid()
      reads this
    {
      (isRefreshing <==> owner.Some?) && (requestQueue != [] ==> isRefreshing)
    }

    constructor (user: Store)
      ensures Valid() && this.user == user
      ensures !isRefreshing && requestQueue == []
    {
      this.user := user;
      isRefreshing := false;
      requestQueue := [];
      owner := None;
    }

    /** The response error interceptor, up to the refresh call. */
    method OnResponseError(failure: Failure, config: RequestConfig) returns (reaction: Reaction)
      requires Valid()
      modifies this, user
      ensures Valid()
      // no response, or a status other than 401: reject at once, never retry
      ensures failure.NoResponse? ==>
                reaction == Rejected(Str(NetworkFailure), None) && unchanged(this, user)
      ensures failure.Responded? && failure.status != 401 ==>
                reaction == Rejected(StatusMessage(failure.status, failure.message), None) && unchanged(this, user)
      // a 401 on the refresh endpoint itself: log out
      ensures failure.Unauthorized() && config.IsRefreshCall() ==>
                reaction == Rejected(Str(SessionExpired), Some("/")) && !user.IsLoggedIn()
                && isRefreshing == old(isRefreshing) && requestQueue == old(requestQueue) && owner == old(owner)
      // start a refresh only when none is in flight and a refresh token is held
      ensures reaction.RefreshStarted? <==>
                failure.Unauthorized() && !config.IsRefreshCall()
                && !old(isRefreshing) && old(user.refreshToken) != []
      ensures reaction.RefreshStarted? ==>
                reaction.refreshToken == user.refreshToken && isRefreshing && owner == Some(config)
                && requestQueue == old(requestQueue) && unchanged(user)
      // while a refresh is in flight: wait in line, nothing else changes
      ensures reaction.Queued? <==>
                failure.Unauthorized() && !config.IsRefreshCall() && old(isRefreshing)
      ensures reaction.Queued? ==>
                requestQueue == old(requestQueue) + [config] && isRefreshing && owner == old(owner) && unchanged(user)
      // no refresh token and no refresh in flight: off to the login page
      ensures failure.Unauthorized() && !config.IsRefreshCall()
              && !old(isRefreshing) && old(user.refreshToken) == [] ==>
                reaction == Rejected(Str(PleaseLogIn), Some(LoginRoute)) && unchanged(this, user)
    {
      if failure.NoResponse? {
        return Rejected(Str(NetworkFailure), None);
      }
      if failure.status == 401 {
        if config.IsRefreshCall() {
          var route := user.Logout();
          return Rejected(Str(SessionExpired), Some(route));
        }
        if !isRefreshing && user.refreshToken != [] {
          isRefreshing := true;
          owner := Some(config);
          return RefreshStarted(user.refreshToken);
        } else if isRefreshing {
          requestQueue := requestQueue + [config];
          return Queued;
        } else {
          return Rejected(Str(PleaseLogIn), Some(LoginRoute));
        }
      }
      return Rejected(StatusMessage(failure.status, failure.message), None);
    }

    /** The refresh call's answer arrives. On code 200 the tokens are stored,
        every waiting request is replayed once, in the order it arrived, with
        the new token, the queue is emptied, and the request that started the
        refresh is retried last. Otherwise the user is logged out and the
        queue is dropped without replaying anything. Either way the flag is
        cleared. */
    method CompleteRefresh(answer: RefreshAnswer) returns (retried: seq<RequestConfig>, ok: bool)
      requires Valid() && isRefreshing
      modifies this, user, (set c | c in requestQueue), owner.value
      ensures Valid() && !isRefreshing && requestQueue == []
      ensures ok <==> answer.Replied? && answer.code == 200
      ensures ok ==> retried == old(requestQueue) + [old(owner).value]
      ensures ok ==> user.accessToken == answer.tokens.accessToken
                     && user.refreshToken == answer.tokens.refreshToken
      ensures ok ==> forall k :: 0 <= k < |retried| ==>
                       retried[k].headers == old(retried[k].headers)[AuthorizationHeader := Bearer(answer.tokens.accessToken)]
      ensures !ok ==> retried == [] && !user.IsLoggedIn()
      ensures !ok ==> forall c :: c in old(requestQueue) ==> unchanged(c)
    {
      var first := owner.value;
      if answer.Threw? || answer.code != 200 {
        var route := user.Logout();
        requestQueue := [];
        isRefreshing := false;
        owner := None;
        return [], false;
      }
      var token := answer.tokens.accessToken;
      user.SetTokens(answer.tokens);
      var queue := requestQueue;
      AuthorizeAll(queue, token);
      first.Authorize(token);
      retried := queue + [first];
      requestQueue := [];
      isRefreshing := false;
      owner := None;
      ok := true;
    }
  }
}
