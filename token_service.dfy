/**
 * The credential store (data/axios/tokenService.ts): two token keys, each
 * written to `localStorage` and mirrored into a cookie of the same name so
 * that the route gate, which cannot see `localStorage`, sees the refresh
 * token too.
 */
module Tokens {
  import opened Wrappers

  const AccessKey: string := "app_access_token"
  const RefreshKey: string := "app_refresh_token"

  /** JavaScript truthiness of a possibly absent string: absent and "" are falsy. */
  predicate Truthy(v: Option<string>) {
    v.Some? && v.value != ""
  }

  /** `storage.getItem(k)`: the value under `k`, or null. */
  function Lookup(m: map<string, string>, k: string): Option<string> {
    if k in m then Some(m[k]) else None
  }

  /** One guarded write of `setTokens`: `k` is written only from a truthy `v`. */
  function WriteIfTruthy(m: map<string, string>, k: string, v: Option<string>): (r: map<string, string>)
    ensures Truthy(v) ==> Lookup(r, k) == v
    ensures !Truthy(v) ==> r == m
    ensures forall k' :: k' != k ==> Lookup(r, k') == Lookup(m, k')
  {
    if Truthy(v) then m[k := v.value] else m
  }

  /**
   * What `setTokens` leaves in one location (`localStorage` or the cookie jar):
   * each key is written from its own argument only, and only when that
   * argument is truthy; every other key is untouched.
   */
  function Written(m: map<string, string>, accessToken: string, refreshToken: Option<string>): (r: map<string, string>)
    ensures Lookup(r, AccessKey) == (if accessToken != "" then Some(accessToken) else Lookup(m, AccessKey))
    ensures Lookup(r, RefreshKey) == (if Truthy(refreshToken) then refreshToken else Lookup(m, RefreshKey))
    ensures forall k :: k != AccessKey && k != RefreshKey ==> Lookup(r, k) == Lookup(m, k)
  {
    WriteIfTruthy(WriteIfTruthy(m, AccessKey, Some(accessToken)), RefreshKey, refreshToken)
  }

  /** What `clearTokens` leaves in one location: both keys gone, every other key untouched. */
  function Cleared(m: map<string, string>): (r: map<string, string>)
    ensures Lookup(r, AccessKey) == None && Lookup(r, RefreshKey) == None
    ensures forall k :: k != AccessKey && k != RefreshKey ==> Lookup(r, k) == Lookup(m, k)
  {
    m - {AccessKey, RefreshKey}
  }

  /** The two locations agree on key `k`: both hold the same value or neither holds one. */
  predicate Mirrored(local: map<string, string>, cookies: map<string, string>, k: string) {
    Lookup(local, k) == Lookup(cookies, k)
  }

  /** Clearing is idempotent: a second `clearTokens` changes nothing. */
  lemma ClearedIdempotent(m: map<string, string>)
    ensures Cleared(Cleared(m)) == Cleared(m)
  {
  }

  /** Writing the same pair to two locations that mirror each other keeps them mirrored. */
  lemma WrittenKeepsMirror(local: map<string, string>, cookies: map<string, string>,
                           accessToken: string, refreshToken: Option<string>, k: string)
    requires Mirrored(local, cookies, k)
    ensures Mirrored(Written(local, accessToken, refreshToken), Written(cookies, accessToken, refreshToken), k)
  {
  }

  class TokenStore {
    /** `typeof window !== "undefined"`: whether browser storage exists at all. */
    const hasWindow: bool
    /** `localStorage`, as a whole (other keys belong to other parts of the page). */
    var local: map<string, string>
    /** `document.cookie`, as name/value pairs. */
    var cookies: map<string, string>

    /** The mirror invariant for both token keys. */
    ghost predicate Valid()
      reads this
    {
      Mirrored(local, cookies, AccessKey) && Mirrored(local, cookies, RefreshKey)
    }

    constructor (hasWindow: bool)
      ensures this.hasWindow == hasWindow && local == map[] && cookies == map[]
      ensures Valid()
    {
      this.hasWindow := hasWindow;
      local := map[];
      cookies := map[];
    }

    /** `getAccessToken`: null without a window, else the `localStorage` entry. */
    function AccessToken(): (t: Option<string>)
      reads this
      ensures !hasWindow ==> t == None
      ensures hasWindow ==> t == Lookup(local, AccessKey)
    {
      if hasWindow then Lookup(local, AccessKey) else None
    }

    /** `getRefreshToken`: null without a window, else the `localStorage` entry. */
    function RefreshToken(): (t: Option<string>)
      reads this
      ensures !hasWindow ==> t == None
      ensures hasWindow ==> t == Lookup(local, RefreshKey)
    {
      if hasWindow then Lookup(local, RefreshKey) else None
    }

    /** `setTokens({accessToken, refreshToken})`. */
    method SetTokens(accessToken: string, refreshToken: Option<string>)
      modifies this
      ensures local == (if hasWindow then Written(old(local), accessToken, refreshToken) else old(local))
      ensures cookies == (if hasWindow then Written(old(cookies), accessToken, refreshToken) else old(cookies))
      ensures hasWindow && accessToken != "" ==>
                AccessToken() == Some(accessToken) && Lookup(cookies, AccessKey) == Some(accessToken)
      ensures accessToken == "" ==> AccessToken() == old(AccessToken())
      ensures !Truthy(refreshToken) ==>
                RefreshToken() == old(RefreshToken()) && Lookup(cookies, RefreshKey) == Lookup(old(cookies), RefreshKey)
      ensures old(Valid()) ==> Valid()
    {
      if !hasWindow {
        return;
      }
      if accessToken != "" {
        local := local[AccessKey := accessToken];
        cookies := cookies[AccessKey := accessToken];
      }
      if Truthy(refreshToken) {
        local := local[RefreshKey := refreshToken.value];
        cookies := cookies[RefreshKey := refreshToken.value];
      }
    }

    /** `clearTokens()`: unconditional removal from both locations (when there is a window). */
    method ClearTokens()
      modifies this
      ensures local == (if hasWindow then Cleared(old(local)) else old(local))
      ensures cookies == (if hasWindow then Cleared(old(cookies)) else old(cookies))
      ensures hasWindow ==> AccessToken() == None && RefreshToken() == None
      ensures hasWindow ==> Lookup(cookies, AccessKey) == None && Lookup(cookies, RefreshKey) == None
      ensures hasWindow ==> Valid()
      ensures old(Valid()) ==> Valid()
    {
      if !hasWindow {
        return;
      }
      local := local - {AccessKey};
      local := local - {RefreshKey};
      cookies := cookies - {AccessKey};
      cookies := cookies - {RefreshKey};
      assert local == Cleared(old(local));
      assert cookies == Cleared(old(cookies));
    }
  }
}
