/** The route guards: each either renders its page or redirects. */
module AppRoutes {
  import opened Wrappers

  datatype Decision = Render | Redirect(to: string)

  /** `ProtectedRoute`: any authenticated user. */
  function ProtectedRoute(authenticated: bool): Decision
  {
    if !authenticated then Redirect("/login") else Render
  }

  /** `BarberRoute`: barbers and admins. `role` is absent when no user is stored. */
  function BarberRoute(authenticated: bool, role: Option<string>): Decision
  {
    if !authenticated then Redirect("/login")
    else if role != Some("BARBER") && role != Some("ADMIN") then Redirect("/dashboard")
    else Render
  }

  /** `AdminRoute`: admins only. */
  function AdminRoute(authenticated: bool, role: Option<string>): Decision
  {
    if !authenticated then Redirect("/login")
    else if role != Some("ADMIN") then Redirect("/dashboard")
    else Render
  }

  /** Every guard sends an unauthenticated visitor to the login page, whatever the stored role. */
  lemma UnauthenticatedGoesToLogin(role: Option<string>)
    ensures ProtectedRoute(false) == Redirect("/login")
    ensures BarberRoute(false, role) == Redirect("/login")
    ensures AdminRoute(false, role) == Redirect("/login")
  {
  }

  /** An authenticated user passes the barber guard exactly with role BARBER or ADMIN, and is otherwise
      sent to the dashboard. */
  lemma BarberRouteAdmits(role: Option<string>)
    ensures BarberRoute(true, role) == Render <==> role == Some("BARBER") || role == Some("ADMIN")
    ensures BarberRoute(true, role) != Render ==> BarberRoute(true, role) == Redirect("/dashboard")
  {
  }

  /** An authenticated user passes the admin guard exactly with role ADMIN, and is otherwise sent to
      the dashboard. */
  lemma AdminRouteAdmits(role: Option<string>)
    ensures AdminRoute(true, role) == Render <==> role == Some("ADMIN")
    ensures AdminRoute(true, role) != Render ==> AdminRoute(true, role) == Redirect("/dashboard")
  {
  }

  /** The guards are nested: whoever the admin guard admits, the barber guard admits, and whoever the
      barber guard admits, the plain guard admits. */
  lemma GuardsAreNested(authenticated: bool, role: Option<string>)
    ensures AdminRoute(authenticated, role) == Render ==> BarberRoute(authenticated, role) == Render
    ensures BarberRoute(authenticated, role) == Render ==> ProtectedRoute(authenticated) == Render
  {
  }
}
