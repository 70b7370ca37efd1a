# Token lifecycle, credential store, route gate and UI stores — a Dafny model

This project models the client-side core of a Next.js boilerplate that talks
to a remote HTTP API with bearer tokens:

- **Refresh coordinator** (`Interceptor`, client_interceptor.dfy): the axios
  request interceptor that stamps `Authorization: Bearer <token>`, and the
  response-error handler that, on the first 401 of a request, either starts
  the single refresh exchange or parks the request in an ordered queue; when
  the exchange settles it replays every queued request with the new token and
  then the originating one, or rejects them all and wipes the credentials.
  The module-level `isRefreshing` flag and `failedQueue` become fields of the
  class `RefreshCoordinator`; the promise-based flow becomes two events,
  `OnError` (up to the await of the exchange) and `OnRefreshSettled` (after
  it), and each `resolve`/`reject` becomes one `Settlement` in a returned
  sequence, in the order the source makes them.
- **Credential store** (`Tokens`, token_service.dfy): the access and refresh
  tokens under `app_access_token` and `app_refresh_token`, written to
  `localStorage` and mirrored into same-named cookies; writes only from truthy
  values, unconditional clears, nothing at all without a window.
- **Post list store** (`Posts`, post_store.dfy): prepend, replace-by-id,
  remove-by-id, the selected post and the edit flag.
- **Route gate** (`Gate`, proxy.dfy): the `proxy` decision over a pathname
  and the refresh-token cookie, by raw prefix matching.
- **Auth store** (`Auth`, auth_store.dfy): `user`, `isAuthenticated`,
  `isHydrated`, with the invariant `isAuthenticated == (user != null)`, and
  the persisted projection.
- `Scenarios` (scenarios.dfy) steps the coordinator through concrete
  request flows (three concurrent 401s, a replay that fails again, a failed
  exchange, a missing refresh token) and states what comes out.

Ordering and errors of the refresh coordinator, as the code has them:

- On success the queued requests are replayed (`processQueue`,
  client.interceptor.ts:117) before the originating one (:118).
- On failure every waiter, queued ones first, is rejected with the refresh
  error itself (:120, :126): the thrown exchange error, or the "no new
  access token" error of :107. The redirect to `/login` is a boolean output.
- Queued requests are replayed over bare `axios.request`, which skips both
  interceptors; only the originating request goes back through the client
  (`Route` tells the two apart).

## Model

| member | source | states |
|---|---|---|
| Tokens.WriteIfTruthy | data/axios/tokenService.ts:40-51 | a guarded write stores the value exactly when it is truthy and leaves every other key as it was |
| Tokens.Written | data/axios/tokenService.ts:40-51 | after `setTokens`, the access key holds the access token if non-empty (else its old value), the refresh key holds the refresh token if truthy (else its old value), and no other key changes |
| Tokens.Cleared | data/axios/tokenService.ts:60-65 | after `clearTokens`, both keys are absent and every other key is unchanged |
| Tokens.ClearedIdempotent | data/axios/tokenService.ts:57-69 | clearing twice is clearing once |
| Tokens.WrittenKeepsMirror | data/axios/tokenService.ts:40-51 | writing the same pair to `localStorage` and to the cookies keeps each key mirrored between them |
| Tokens.TokenStore.AccessToken | data/axios/tokenService.ts:11-19 | null without a window, otherwise the `localStorage` entry for the access key |
| Tokens.TokenStore.RefreshToken | data/axios/tokenService.ts:21-29 | null without a window, otherwise the `localStorage` entry for the refresh key |
| Tokens.TokenStore.SetTokens | data/axios/tokenService.ts:31-55 | without a window nothing changes; otherwise both locations become `Written` of their old content, a non-empty access token is readable back from both, a falsy argument leaves its key untouched, and the mirror invariant is preserved |
| Tokens.TokenStore.ClearTokens | data/axios/tokenService.ts:57-69 | without a window nothing changes; otherwise both locations become `Cleared`, both getters return null, both cookies are gone and the mirror invariant holds |
| Interceptor.Status | data/axios/client.interceptor.ts:64 | the status reads as 401 exactly when the response carries 401; a zero status reads as absent, and an absent status is never 0 |
| Interceptor.Stamp | data/axios/client.interceptor.ts:46-50 | with a truthy token and headers present, `Authorization` becomes `Bearer <token>` overwriting any previous value, every other header is kept and no other header is added; otherwise the request passes unchanged; url and `_retry` are never touched |
| Interceptor.StampIdempotent | data/axios/client.interceptor.ts:44-51 | stamping a request twice with the same token equals stamping it once (the replay through the client re-stamps harmlessly) |
| Interceptor.StampOverwrites | data/axios/client.interceptor.ts:31-33 | a later truthy token replaces whatever an earlier stamp put there |
| Interceptor.FailureOf | data/axios/client.interceptor.ts:103-108 | a failed exchange is a "missing access token" failure exactly when the exchange answered; a thrown exchange passes its own error on |
| Interceptor.SettleQueued | data/axios/client.interceptor.ts:27-36 | a queued entry is rejected with the error when there is one, else replayed over the bare transport stamped with the token; its url and `_retry` are kept |
| Interceptor.RefreshCoordinator.constructor | data/axios/client.interceptor.ts:22-23 | the coordinator starts idle with an empty queue |
| Interceptor.RefreshCoordinator.OnRequest | data/axios/client.interceptor.ts:44-51 | the outgoing request is the incoming one stamped with the stored access token |
| Interceptor.RefreshCoordinator.OnError | data/axios/client.interceptor.ts:58-90 | missing config, non-401 or already-retried: rejected with the original error, nothing changes; first 401 while refreshing: marked retried and appended to the end of the queue, no second exchange; first 401 while idle with a refresh token: the exchange starts with that token; without one: tokens cleared, still idle, error rejected; `!isRefreshing ==> queue == []` and the storage mirror are preserved |
| Interceptor.RefreshCoordinator.ProcessQueue | data/axios/client.interceptor.ts:26-40 | one settlement per queued entry, in enqueue order, and the queue ends empty |
| Interceptor.RefreshCoordinator.OnRefreshSettled | data/axios/client.interceptor.ts:99-130 | success: the new pair is stored, each queued entry is replayed with `Bearer <new>` in enqueue order, then the originating request through the client; failure (throw or falsy access token): every queued entry and then the originating request is rejected with the same error, tokens are cleared and a redirect is signalled when there is a window; afterwards the access getter returns the new token (with a window) or both getters return null (on failure); either way the queue ends empty, the flag false, every settled request is marked retried and the storage mirror is preserved |
| Scenarios.ConcurrentFailuresShareOneRefresh | data/axios/client.interceptor.ts:67-118 | three concurrent 401s start exactly one exchange; replays come out as B, C over the bare transport then A through the client, each carrying exactly `Bearer A2`; an exchange without a refresh token keeps the stored one |
| Scenarios.RetriedReplayIsRejected | data/axios/client.interceptor.ts:118 | the originating replay passes the request interceptor unchanged, and a further 401 on it is rejected with the coordinator left idle |
| Scenarios.FailedRefreshEndsSession | data/axios/client.interceptor.ts:119-128 | a thrown exchange rejects the queued and then the originating request with that error, clears both tokens from both locations and signals the redirect |
| Scenarios.MissingRefreshTokenRejects | data/axios/client.interceptor.ts:80-90 | with no refresh token stored the 401 is rejected with the marked error, the coordinator stays idle and the access token is cleared |
| Posts.ReplaceById | data/stores/posts/usePostStore.ts:35 | same length; every element whose id matches becomes the new post, every other is unchanged |
| Posts.RemoveById | data/stores/posts/usePostStore.ts:41 | exactly the elements with that id are removed (the length drops by their count, membership is "in the old list with another id"), and nothing changes when the id is absent |
| Posts.RemoveByIdAppend | data/stores/posts/usePostStore.ts:41 | removal distributes over concatenation, so the survivors keep their order |
| Posts.RemoveByIdIdempotent | data/stores/posts/usePostStore.ts:39-44 | deleting an id twice is deleting it once |
| Posts.ReplaceByIdIdempotent | data/stores/posts/usePostStore.ts:33-38 | updating twice with the same post is updating once |
| Posts.RemoveAfterReplace | data/stores/posts/usePostStore.ts:33-44 | deleting an id after an update that kept that id gives the same list as deleting it directly |
| Posts.PostStore.constructor | data/stores/posts/usePostStore.ts:20-22 | initial state: no selected post, no posts, not editing |
| Posts.PostStore.AddPost | data/stores/posts/usePostStore.ts:25 | the new post is first, the old list follows in order, the length grows by one, the other fields are kept |
| Posts.PostStore.SetPost | data/stores/posts/usePostStore.ts:26 | only the selection changes |
| Posts.PostStore.SetPosts | data/stores/posts/usePostStore.ts:27 | only the list changes |
| Posts.PostStore.ToggleEdit | data/stores/posts/usePostStore.ts:28-32 | the selection becomes the argument and edit mode holds exactly when it is a post with a non-zero id |
| Posts.PostStore.UpdatePost | data/stores/posts/usePostStore.ts:33-38 | the list becomes `ReplaceById` of the old one; selection and edit mode are reset |
| Posts.PostStore.DeletePost | data/stores/posts/usePostStore.ts:39-44 | the list becomes `RemoveById` of the old one; selection and edit mode are reset |
| Gate.AnyPrefix | proxy.ts:16-20 | true exactly when some route of the list is a prefix of the path |
| Gate.RouteListsDisjoint | proxy.ts:5-8 | no path is both protected and an auth route |
| Gate.Proxy | proxy.ts:10-36 | redirect to `/login` exactly for a protected path without a truthy refresh-token cookie, redirect to `/dashboard` exactly for an auth route with one, pass-through exactly otherwise |
| Gate.NoRedirectLoop | proxy.ts:23-35 | with the same cookies, the target of any redirect passes through |
| Gate.RawPrefixMatching | proxy.ts:16-20 | `/dashboardX` is gated as protected and `/login-help` as an auth route |
| Gate.OnlyRefreshCookieConsulted | proxy.ts:14 | cookie jars that agree on `app_refresh_token` get the same decision |
| Gate.ClearedCookiesGateProtected | proxy.ts:23-26 | after the credential store has cleared its cookies, every protected path redirects to `/login` |
| Auth.Partialize | data/stores/auth/useAuthStore.ts:44-47 | the persisted record carries the user and the flag as they are in the state |
| Auth.PartializeDropsHydration | data/stores/auth/useAuthStore.ts:44-47 | the persisted record does not depend on `isHydrated`, and a consistent state persists a consistent pair |
| Auth.AuthStore.constructor | data/stores/auth/useAuthStore.ts:19-21 | initial state: no user, not authenticated, not hydrated, and the invariant holds |
| Auth.AuthStore.SetUser | data/stores/auth/useAuthStore.ts:23-28 | the user is set, `isAuthenticated` becomes "a user is present", and the invariant holds |
| Auth.AuthStore.Logout | data/stores/auth/useAuthStore.ts:30-36 | both tokens are cleared from both locations, the user is gone, not authenticated, `isHydrated` unchanged, invariant holds |
| Auth.AuthStore.MarkHydrated | data/stores/auth/useAuthStore.ts:38-40 | only `isHydrated` changes, to true, and the invariant is preserved |

## Left out

- Real HTTP, promises and their `resolve`/`reject` callbacks: the exchange is an external event (`OnRefreshSettled`) and each callback is a `Settlement`; interleavings of the event loop are sequences of method calls.
- The bare `refreshClient` construction (client.interceptor.ts:93-97) and the refresh endpoint's URL: only the exchange's outcome is modelled.
- `window.location.href = '/login'` (client.interceptor.ts:86-88, 123-125): a boolean `redirectToLogin` output.
- Cookie attribute strings (`path`, `sameSite`, `max-age`) and the storage exceptions the `try/catch` blocks swallow: storage is two plain maps and writes never fail.
- Tokens.TokenStore.SetTokens: token values are assumed cookie-safe (no `;`, no leading or trailing whitespace, nothing that URL-decoding changes), as bearer tokens of RFC 6750 are; the raw interpolation into `document.cookie` and the cookie encoding are not modelled, so the read-back from the cookie and the mirror invariant are stated for such values only.
- Tokens.TokenStore.SetTokens: the parameter types are strings; a non-string truthy value (which JavaScript would also write) is not modelled.
- The Next.js `matcher` (proxy.ts:38-46): the framework decides which paths reach `proxy`.
- The zustand `persist` middleware and the rehydration callback (useAuthStore.ts:48-50): only the `partialize` projection is modelled.
- React and react-query glue (the `call-hooks.ts` files, `QueryProvider.tsx`), the thin `api.ts` wrappers, the client's base URL and timeout, the user store and the store re-exports: they hold no logic of the core.
- Post ids are integers; JavaScript's `NaN` (falsy, and unequal to itself) is not modelled.
