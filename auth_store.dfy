/** The client-side session store: the token and the signed-in user. */
module AuthStore {
  import opened Wrappers
  import AppRoutes

  /** The `User` kept in the store. */
  datatype StoredUser = StoredUser(userId: string, email: string, fullName: string, role: string, emailVerified: bool)

  class Store {
    var token: Option<string>
    var user: Option<StoredUser>

    /** The store starts with neither a token nor a user. */
    constructor ()
      ensures token == None && user == None
      ensures !IsAuthenticated()
    {
      token := None;
      user := None;
    }

    /** `isAuthenticated`: `!!token`, so an empty token does not count. */
    predicate IsAuthenticated()
      reads this
    {
      token.Some? && token.value != ""
    }

    /** The role the guards look at, absent when no user is stored. */
    function Role(): Option<string>
      reads this
    {
      match user case None => None case Some(u) => Some(u.role)
    }

    /** `setAuth`: replaces both the token and the user. */
    method SetAuth(token: string, user: StoredUser)
      modifies this
      ensures this.token == Some(token) && this.user == Some(user)
      ensures IsAuthenticated() <==> token != ""
      ensures Role() == Some(user.role)
    {
      this.token := Some(token);
      this.user := Some(user);
    }

    /** `logout`: clears both. */
    method Logout()
      modifies this
      ensures token == None && user == None
      ensures !IsAuthenticated()
    {
      token := None;
      user := None;
    }
  }

  /** After logout every guarded page redirects to the login page. */
  lemma LoggedOutStoreIsSentToLogin(s: Store)
    requires s.token == None
    ensures AppRoutes.ProtectedRoute(s.IsAuthenticated()) == AppRoutes.Redirect("/login")
    ensures AppRoutes.BarberRoute(s.IsAuthenticated(), s.Role()) == AppRoutes.Redirect("/login")
    ensures AppRoutes.AdminRoute(s.IsAuthenticated(), s.Role()) == AppRoutes.Redirect("/login")
  {
  }

  /** A token with no stored user passes the plain guard but neither role guard. */
  lemma TokenWithoutUserIsNotPrivileged(s: Store)
    requires s.IsAuthenticated() && s.user == None
    ensures AppRoutes.ProtectedRoute(s.IsAuthenticated()) == AppRoutes.Render
    ensures AppRoutes.BarberRoute(s.IsAuthenticated(), s.Role()) == AppRoutes.Redirect("/dashboard")
    ensures AppRoutes.AdminRoute(s.IsAuthenticated(), s.Role()) == AppRoutes.Redirect("/dashboard")
  {
  }
}
