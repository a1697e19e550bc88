/** The authentication store (packages/core/stores/auth.ts): a signed-in user
    and a session token, each possibly null, and the derived
    `isAuthenticated = !!token && !!user`. */
module Auth {
  import opened Common

  datatype AuthUser = AuthUser(id: string, email: string, name: string)

  /** `!!token && !!user`: the empty string is falsy, any user object is truthy. */
  predicate Authenticated(user: Option<AuthUser>, token: Option<string>)
  {
    token.Some? && token.value != "" && user.Some?
  }

  /** A token without a user is never authenticated, and neither is a user
      without a token or with the empty token. */
  lemma AuthenticationNeedsBoth(user: Option<AuthUser>, token: Option<string>)
    ensures user.None? ==> !Authenticated(user, token)
    ensures (token.None? || token == Some("")) ==> !Authenticated(user, token)
    ensures Authenticated(user, token) <==> user.Some? && token.Some? && |token.value| > 0
  {
  }

  class AuthStore {
    var user: Option<AuthUser>
    var token: Option<string>

    /** Both refs start as null, so the store starts unauthenticated. */
    constructor ()
      ensures user.None? && token.None? && !IsAuthenticated()
    {
      user := None;
      token := None;
    }

    function IsAuthenticated(): bool
      reads this
    {
      Authenticated(user, token)
    }

    /** `setAuth(u, t)` stores exactly `u` and `t`; authentication then
        depends only on whether `t` is empty. */
    method SetAuth(authUser: AuthUser, authToken: string)
      modifies this
      ensures user == Some(authUser) && token == Some(authToken)
      ensures IsAuthenticated() <==> authToken != ""
    {
      user := Some(authUser);
      token := Some(authToken);
    }

    /** `logout()` clears both refs: the state equals a fresh store's. */
    method Logout()
      modifies this
      ensures user.None? && token.None? && !IsAuthenticated()
    {
      user := None;
      token := None;
    }
  }
}
