/**
 * The auth store (data/stores/auth/useAuthStore.ts): the signed-in user, the
 * derived `isAuthenticated` flag and the `isHydrated` flag. Only `user` and
 * `isAuthenticated` are persisted.
 */
module Auth {
  import opened Wrappers
  import opened Tokens

  /** `User` (`UserInterface`). */
  datatype User = User(id: int, username: string, email: string, firstName: string,
                       lastName: string, gender: string, image: string)

  /** The store's state as a value. */
  datatype AuthState = AuthState(user: Option<User>, isAuthenticated: bool, isHydrated: bool)

  /** What `partialize` hands to the persistence layer. */
  datatype Persisted = Persisted(user: Option<User>, isAuthenticated: bool)

  /** The store's invariant: authenticated exactly when a user is present. */
  predicate Consistent(s: AuthState) {
    s.isAuthenticated == s.user.Some?
  }

  /** `partialize` (lines 44-47). */
  function Partialize(s: AuthState): (p: Persisted)
    ensures p.user == s.user && p.isAuthenticated == s.isAuthenticated
  {
    Persisted(s.user, s.isAuthenticated)
  }

  /**
   * The persisted projection does not depend on `isHydrated`, and it carries
   * the invariant: a consistent state persists a consistent pair.
   */
  lemma PartializeDropsHydration(s: AuthState, h: bool)
    ensures Partialize(s) == Partialize(s.(isHydrated := h))
    ensures Consistent(s) ==> Partialize(s).isAuthenticated == Partialize(s).user.Some?
  {
  }

  class AuthStore {
    /** The credential store that `logout` wipes. */
    const tokens: TokenStore
    var user: Option<User>
    var isAuthenticated: bool
    var isHydrated: bool

    function State(): (s: AuthState)
      reads this
      ensures s.user == user && s.isAuthenticated == isAuthenticated && s.isHydrated == isHydrated
    {
      AuthState(user, isAuthenticated, isHydrated)
    }

    ghost predicate Valid()
      reads this
    {
      Consistent(State())
    }

    /** Initial state (lines 19-21). */
    constructor (tokens: TokenStore)
      ensures this.tokens == tokens
      ensures user == None && !isAuthenticated && !isHydrated
      ensures Valid()
    {
      this.tokens := tokens;
      user := None;
      isAuthenticated := false;
      isHydrated := false;
    }

    /** `setUser(user)`: `isAuthenticated` becomes `Boolean(user)`. */
    method SetUser(u: Option<User>)
      modifies this`user, this`isAuthenticated
      ensures user == u && isAuthenticated == u.Some?
      ensures Valid()
    {
      user := u;
      isAuthenticated := u.Some?;
    }

    /** `logout()`: wipe both tokens, then sign out; hydration is untouched. */
    method Logout()
      modifies this`user, this`isAuthenticated, tokens
      ensures user == None && !isAuthenticated && isHydrated == old(isHydrated)
      ensures Valid()
      ensures tokens.local == (if tokens.hasWindow then Cleared(old(tokens.local)) else old(tokens.local))
      ensures tokens.cookies == (if tokens.hasWindow then Cleared(old(tokens.cookies)) else old(tokens.cookies))
      ensures tokens.hasWindow ==> tokens.AccessToken() == None && tokens.RefreshToken() == None
    {
      tokens.ClearTokens();
      user := None;
      isAuthenticated := false;
    }

    /** `markHydrated()`. */
    method MarkHydrated()
      modifies this`isHydrated
      ensures isHydrated
      ensures user == old(user) && isAuthenticated == old(isAuthenticated)
      ensures old(Valid()) ==> Valid()
    {
      isHydrated := true;
    }
  }
}
