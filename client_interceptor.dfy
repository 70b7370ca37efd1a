/**
 * The HTTP client's token lifecycle (data/axios/client.interceptor.ts): a
 * request interceptor that stamps the bearer token, and a response-error
 * handler that runs a single refresh exchange at a time, parks the requests
 * that fail meanwhile in an ordered queue, and settles them all when the
 * exchange settles.
 *
 * The promises of the source are unfolded into events: `OnError` is the
 * handler's synchronous part up to the point where it awaits the exchange;
 * `OnRefreshSettled` is what runs once the exchange has answered (or thrown).
 * Each returned `Settlement` stands for one `resolve`/`reject` call, in the
 * order the source makes them.
 */
module Interceptor {
  import opened Wrappers
  import opened Tokens

  const Authorization: string := "Authorization"

  function Bearer(token: string): string {
    "Bearer " + token
  }

  /** An axios request config: its target, the `_retry` marker and its (optional) headers. */
  datatype Req = Req(url: string, retry: bool, headers: Option<map<string, string>>)

  /** An axios error: the config it belongs to (may be missing) and the response status, if any. */
  datatype HttpError = HttpError(config: Option<Req>, response: Option<int>)

  /** `(error.response && error.response.status) || null`: a status of 0 is falsy, so it reads as null. */
  function Status(e: HttpError): (s: Option<int>)
    ensures s == Some(401) <==> e.response == Some(401)
    ensures s.Some? ==> s.value != 0
    ensures e.response == Some(0) ==> s == None
  {
    if e.response.Some? && e.response.value != 0 then e.response else None
  }

  /** Line 67's guard: a 401 on a request that has not been retried yet. */
  predicate IsFirstAuthFailure(e: HttpError) {
    e.config.Some? && Status(e) == Some(401) && !e.config.value.retry
  }

  /**
   * Put `Authorization: Bearer <token>` on a request when the token is truthy
   * and the request has headers (lines 47-49, 31-33, 113-115).
   */
  function Stamp(req: Req, token: Option<string>): (r: Req)
    ensures r.url == req.url && r.retry == req.retry && r.headers.Some? == req.headers.Some?
    ensures Truthy(token) && req.headers.Some? ==>
              Authorization in r.headers.value && r.headers.value[Authorization] == Bearer(token.value)
    ensures Truthy(token) && req.headers.Some? ==>
              r.headers.value.Keys == req.headers.value.Keys + {Authorization}
    ensures forall h :: h != Authorization && req.headers.Some? && h in req.headers.value ==>
              h in r.headers.value && r.headers.value[h] == req.headers.value[h]
    ensures !(Truthy(token) && req.headers.Some?) ==> r == req
  {
    if Truthy(token) && req.headers.Some? then
      req.(headers := Some(req.headers.value[Authorization := Bearer(token.value)]))
    else
      req
  }

  /** Stamping again with the same token changes nothing. */
  lemma StampIdempotent(req: Req, token: Option<string>)
    ensures Stamp(Stamp(req, token), token) == Stamp(req, token)
  {
    if Truthy(token) {
      StampOverwrites(req, token, token);
    }
  }

  /** A later truthy token overwrites whatever an earlier stamp (or the caller) put there. */
  lemma StampOverwrites(req: Req, t1: Option<string>, t2: Option<string>)
    requires Truthy(t2)
    ensures Stamp(Stamp(req, t1), t2) == Stamp(req, t2)
  {
    if req.headers.Some? {
      var h := req.headers.value;
      if Truthy(t1) {
        assert h[Authorization := Bearer(t1.value)][Authorization := Bearer(t2.value)]
            == h[Authorization := Bearer(t2.value)];
      }
    }
  }

  /** What the handler does with an error, as observed by the caller that awaits it. */
  datatype ErrorOutcome =
    | Reject(error: HttpError)                           // returned `Promise.reject(error)`
    | Queued                                             // parked in `failedQueue`
    | StartRefresh(refreshToken: string)                 // the single exchange is now in flight
    | NoRefreshToken(error: HttpError, redirectToLogin: bool)  // tokens wiped, error rejected

  /** Why a refresh exchange failed: it threw, or it answered without a truthy access token. */
  datatype RefreshError = ExchangeFailed(cause: string) | MissingAccessToken

  /** How the refresh exchange ended: a response body, or a thrown error. */
  datatype RefreshResult =
    | Responded(accessToken: Option<string>, refreshToken: Option<string>)
    | Threw(cause: string)

  predicate Succeeded(result: RefreshResult) {
    result.Responded? && Truthy(result.accessToken)
  }

  function FailureOf(result: RefreshResult): (err: RefreshError)
    requires !Succeeded(result)
    ensures err == MissingAccessToken <==> result.Responded?
    ensures result.Threw? ==> err == ExchangeFailed(result.cause)
  {
    if result.Threw? then ExchangeFailed(result.cause) else MissingAccessToken
  }

  /** Which transport a replay goes through: the intercepted client, or bare `axios.request`. */
  datatype Route = ThroughClient | Bare

  /** One `resolve`/`reject` made when the exchange settles. */
  datatype Settlement =
    | Replayed(req: Req, route: Route)
    | Rejected(req: Req, error: RefreshError)

  /** `processQueue`'s treatment of one queued entry. */
  function SettleQueued(config: Req, error: Option<RefreshError>, token: Option<string>): (s: Settlement)
    ensures error.Some? ==> s == Rejected(config, error.value)
    ensures error.None? ==> s == Replayed(Stamp(config, token), Bare)
    ensures s.req.url == config.url && s.req.retry == config.retry
  {
    if error.Some? then Rejected(config, error.value) else Replayed(Stamp(config, token), Bare)
  }

  class RefreshCoordinator {
    /** The credential store read and written by the interceptors. */
    const store: TokenStore
    /** `isRefreshing`. */
    var isRefreshing: bool
    /** `failedQueue`, as the configs of its entries (each entry's resolve/reject is its position). */
    var queue: seq<Req>
    /** The originating request captured by the in-flight exchange's closure. */
    var pending: Option<Req>

    /**
     * Idle means nothing is queued and no exchange is in flight; every request
     * waiting on an exchange has already been marked as retried.
     */
    ghost predicate Valid()
      reads this
    {
      (!isRefreshing ==> queue == [] && pending == None) &&
      (isRefreshing ==> pending.Some? && pending.value.retry) &&
      (forall i :: 0 <= i < |queue| ==> queue[i].retry)
    }

    constructor (store: TokenStore)
      ensures this.store == store
      ensures !isRefreshing && queue == [] && pending == None
      ensures Valid()
    {
      this.store := store;
      isRefreshing := false;
      queue := [];
      pending := None;
    }

    /** The request interceptor (lines 44-51). */
    method OnRequest(req: Req) returns (r: Req)
      ensures r == Stamp(req, store.AccessToken())
    {
      var accessToken := store.AccessToken();
      r := Stamp(req, accessToken);
    }

    /** The response-error handler up to the await of the exchange (lines 58-99, 133). */
    method OnError(e: HttpError) returns (o: ErrorOutcome)
      requires Valid()
      modifies this, store
      ensures Valid()
      ensures old(store.Valid()) ==> store.Valid()
      // Missing config, a status other than 401, or a second 401: reject, change nothing.
      ensures !IsFirstAuthFailure(e) ==>
                o == Reject(e) && unchanged(this) && unchanged(store)
      // A first 401 while an exchange is in flight: marked and appended; no second exchange.
      ensures IsFirstAuthFailure(e) && old(isRefreshing) ==>
                o == Queued && isRefreshing && pending == old(pending) &&
                queue == old(queue) + [e.config.value.(retry := true)] && unchanged(store)
      // A first 401 while idle, with a refresh token: the exchange starts.
      ensures IsFirstAuthFailure(e) && !old(isRefreshing) && Truthy(old(store.RefreshToken())) ==>
                o == StartRefresh(old(store.RefreshToken()).value) && isRefreshing && queue == [] &&
                pending == Some(e.config.value.(retry := true)) && unchanged(store)
      // A first 401 while idle, without a refresh token: wipe, stay idle, reject.
      ensures IsFirstAuthFailure(e) && !old(isRefreshing) && !Truthy(old(store.RefreshToken())) ==>
                o == NoRefreshToken(e.(config := Some(e.config.value.(retry := true))), store.hasWindow) &&
                !isRefreshing && queue == [] && pending == None &&
                store.local == (if store.hasWindow then Cleared(old(store.local)) else old(store.local)) &&
                store.cookies == (if store.hasWindow then Cleared(old(store.cookies)) else old(store.cookies))
    {
      if e.config.None? {
        return Reject(e);
      }
      var status := Status(e);
      if status == Some(401) && !e.config.value.retry {
        var originalRequest := e.config.value.(retry := true);
        if isRefreshing {
          queue := queue + [originalRequest];
          return Queued;
        }
        isRefreshing := true;
        var refreshToken := store.RefreshToken();
        if !Truthy(refreshToken) {
          store.ClearTokens();
          isRefreshing := false;
          return NoRefreshToken(e.(config := Some(originalRequest)), store.hasWindow);
        }
        pending := Some(originalRequest);
        return StartRefresh(refreshToken.value);
      }
      return Reject(e);
    }

    /** `processQueue(error, token)` (lines 26-40): settle every entry in enqueue order, then empty the queue. */
    method ProcessQueue(error: Option<RefreshError>, token: Option<string>) returns (out: seq<Settlement>)
      modifies this`queue
      ensures queue == []
      ensures |out| == |old(queue)|
      ensures forall i :: 0 <= i < |out| ==> out[i] == SettleQueued(old(queue)[i], error, token)
    {
      out := [];
      var i := 0;
      while i < |queue|
        invariant 0 <= i <= |queue|
        invariant |out| == i
        invariant forall k :: 0 <= k < i ==> out[k] == SettleQueued(queue[k], error, token)
      {
        out := out + [SettleQueued(queue[i], error, token)];
        i := i + 1;
      }
      queue := [];
    }

    /**
     * The rest of the handler, once the exchange has answered (lines 100-129).
     * On success the queued entries are replayed first (line 117) and the
     * originating request last (line 118); on failure all of them are rejected
     * with the same error, in the same order.
     */
    method OnRefreshSettled(result: RefreshResult) returns (out: seq<Settlement>, redirectToLogin: bool)
      requires Valid() && isRefreshing
      modifies this, store
      ensures Valid() && !isRefreshing && queue == [] && pending == None
      ensures |out| == |old(queue)| + 1
      ensures forall i :: 0 <= i < |out| ==> out[i].req.retry
      ensures old(store.Valid()) ==> store.Valid()
      ensures Succeeded(result) && store.hasWindow ==> store.AccessToken() == result.accessToken
      ensures !Succeeded(result) ==> store.AccessToken() == None && store.RefreshToken() == None
      ensures Succeeded(result) ==>
                var token := result.accessToken;
                !redirectToLogin &&
                store.local == (if store.hasWindow then Written(old(store.local), token.value, result.refreshToken) else old(store.local)) &&
                store.cookies == (if store.hasWindow then Written(old(store.cookies), token.value, result.refreshToken) else old(store.cookies)) &&
                (forall i :: 0 <= i < |old(queue)| ==> out[i] == Replayed(Stamp(old(queue)[i], token), Bare)) &&
                out[|old(queue)|] == Replayed(Stamp(old(pending).value, token), ThroughClient)
      ensures !Succeeded(result) ==>
                redirectToLogin == store.hasWindow &&
                store.local == (if store.hasWindow then Cleared(old(store.local)) else old(store.local)) &&
                store.cookies == (if store.hasWindow then Cleared(old(store.cookies)) else old(store.cookies)) &&
                (forall i :: 0 <= i < |old(queue)| ==> out[i] == Rejected(old(queue)[i], FailureOf(result))) &&
                out[|old(queue)|] == Rejected(old(pending).value, FailureOf(result))
    {
      var originalRequest := pending.value;
      if Succeeded(result) {
        var newAccessToken := result.accessToken;
        store.SetTokens(newAccessToken.value, result.refreshToken);
        originalRequest := Stamp(originalRequest, newAccessToken);
        var replays := ProcessQueue(None, newAccessToken);
        out := replays + [Replayed(originalRequest, ThroughClient)];
        redirectToLogin := false;
      } else {
        var err := FailureOf(result);
        var rejections := ProcessQueue(Some(err), None);
        store.ClearTokens();
        redirectToLogin := store.hasWindow;
        out := rejections + [Rejected(originalRequest, err)];
      }
      isRefreshing := false;
      pending := None;
    }
  }
}
