/**
 * Client methods that step the coordinator through the concrete request
 * flows the interceptor is written for, and state what comes out.
 */
module Scenarios {
  import opened Wrappers
  import opened Tokens
  import opened Interceptor

  /** A retried request whose only header is the bearer token `token`. */
  function Retried(url: string, token: string): Req {
    Req(url, true, Some(map[Authorization := Bearer(token)]))
  }

  /** A retried request with no headers, stamped with `token`, carries exactly the bearer header; stamping it again keeps it so. */
  lemma StampedEmpty(url: string, token: string)
    requires token != ""
    ensures Stamp(Req(url, true, Some(map[])), Some(token)) == Retried(url, token)
    ensures Stamp(Retried(url, token), Some(token)) == Retried(url, token)
  {
    var r := Stamp(Req(url, true, Some(map[])), Some(token));
    assert r.headers.value.Keys == {Authorization};
    assert r.headers.value == map[Authorization := Bearer(token)];
    var r2 := Stamp(Retried(url, token), Some(token));
    assert r2.headers.value.Keys == {Authorization};
    assert r2.headers.value == map[Authorization := Bearer(token)];
  }

  /**
   * Three requests fail with 401 while the first one's refresh is in flight:
   * one exchange only; the queued ones replay first, in arrival order, over
   * the bare transport; the originating one replays last through the client.
   * The exchange returned no refresh token, so R1 stays stored.
   */
  method ConcurrentFailuresShareOneRefresh()
    returns (outcomes: seq<ErrorOutcome>, out: seq<Settlement>, access: Option<string>, refresh: Option<string>)
    ensures outcomes == [StartRefresh("R1"), Queued, Queued]
    ensures out == [Replayed(Retried("/b", "A2"), Bare), Replayed(Retried("/c", "A2"), Bare),
                    Replayed(Retried("/a", "A2"), ThroughClient)]
    ensures access == Some("A2") && refresh == Some("R1")
  {
    StampedEmpty("/a", "A2");
    StampedEmpty("/b", "A2");
    StampedEmpty("/c", "A2");
    var store := new TokenStore(true);
    store.SetTokens("A1", Some("R1"));
    var c := new RefreshCoordinator(store);
    var h: Option<map<string, string>> := Some(map[]);
    var a := c.OnError(HttpError(Some(Req("/a", false, h)), Some(401)));
    var b := c.OnError(HttpError(Some(Req("/b", false, h)), Some(401)));
    var d := c.OnError(HttpError(Some(Req("/c", false, h)), Some(401)));
    outcomes := [a, b, d];
    var redirect;
    out, redirect := c.OnRefreshSettled(Responded(Some("A2"), None));
    access := store.AccessToken();
    refresh := store.RefreshToken();
  }

  /**
   * The originating request, replayed through the client after a refresh to
   * A2, passes the request interceptor unchanged (it already carries
   * `Bearer A2`), and a further 401 on it is rejected without a second
   * exchange.
   */
  method RetriedReplayIsRejected() returns (restamped: Req, again: ErrorOutcome, stillIdle: bool)
    ensures restamped == Retried("/a", "A2")
    ensures again == Reject(HttpError(Some(Retried("/a", "A2")), Some(401)))
    ensures stillIdle
  {
    StampedEmpty("/a", "A2");
    var store := new TokenStore(true);
    store.SetTokens("A1", Some("R1"));
    var c := new RefreshCoordinator(store);
    var first := c.OnError(HttpError(Some(Req("/a", false, Some(map[]))), Some(401)));
    var out, redirect := c.OnRefreshSettled(Responded(Some("A2"), None));
    assert out[0] == Replayed(Retried("/a", "A2"), ThroughClient);
    restamped := c.OnRequest(out[0].req);
    again := c.OnError(HttpError(Some(restamped), Some(401)));
    stillIdle := !c.isRefreshing && c.queue == [];
  }

  /**
   * The exchange fails (the refresh endpoint answered 400, so the call threw)
   * while one request is queued: both are rejected with that error, queued
   * first, both tokens are gone from both locations, and the page is sent to
   * the login route.
   */
  method FailedRefreshEndsSession()
    returns (out: seq<Settlement>, redirect: bool, access: Option<string>, refresh: Option<string>,
             cookieAccess: Option<string>, cookieRefresh: Option<string>)
    ensures out == [Rejected(Req("/b", true, None), ExchangeFailed("400")),
                    Rejected(Req("/a", true, None), ExchangeFailed("400"))]
    ensures redirect
    ensures access == None && refresh == None && cookieAccess == None && cookieRefresh == None
  {
    var store := new TokenStore(true);
    store.SetTokens("A1", Some("R1"));
    var c := new RefreshCoordinator(store);
    var first := c.OnError(HttpError(Some(Req("/a", false, None)), Some(401)));
    var second := c.OnError(HttpError(Some(Req("/b", false, None)), Some(401)));
    out, redirect := c.OnRefreshSettled(Threw("400"));
    access := store.AccessToken();
    refresh := store.RefreshToken();
    cookieAccess := Lookup(store.cookies, AccessKey);
    cookieRefresh := Lookup(store.cookies, RefreshKey);
  }

  /** No refresh token stored: no exchange, the 401 is rejected, the store stays idle and empty. */
  method MissingRefreshTokenRejects() returns (o: ErrorOutcome, idle: bool, access: Option<string>)
    ensures o == NoRefreshToken(HttpError(Some(Req("/a", true, None)), Some(401)), true)
    ensures idle && access == None
  {
    var store := new TokenStore(true);
    store.SetTokens("A1", None);
    var c := new RefreshCoordinator(store);
    o := c.OnError(HttpError(Some(Req("/a", false, None)), Some(401)));
    idle := !c.isRefreshing && c.queue == [];
    access := store.AccessToken();
  }
}
