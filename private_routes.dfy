/** The route guard wrapped around every private page: a spinner while the
    session is being restored, the login page without a session, the
    dashboard for a user lacking the required role, and otherwise the
    page itself. */
module PrivateRoutes {
  import opened Domain

  datatype Outcome = Spinner | RedirectTo(path: string) | Outlet

  /** A `tipo` prop only restricts the route when it is a non-empty string. */
  predicate RoleRequired(tipo: Option<string>)
  {
    tipo.Some? && tipo.value != ""
  }

  /** The guard, with the checks in the order loading, session, role. */
  function Guard(loading: bool, user: Option<User>, tipo: Option<string>): (o: Outcome)
    ensures o == Spinner <==> loading
    ensures o == RedirectTo("/") <==> !loading && user.None?
    ensures o == RedirectTo("/dashboard") <==>
      !loading && user.Some? && RoleRequired(tipo) && user.value.tipoDeUsuario != tipo.value
    ensures o == Outlet <==>
      !loading && user.Some? && (!RoleRequired(tipo) || user.value.tipoDeUsuario == tipo.value)
  {
    if loading then Spinner
    else if user.None? then RedirectTo("/")
    else if RoleRequired(tipo) && user.value.tipoDeUsuario != tipo.value then RedirectTo("/dashboard")
    else Outlet
  }

  /** What the routes table renders for a path: the dashboard behind the
      guard, which is given no `tipo`, and the sign-in page for "/" and, through
      the catch-all route, for every other path. */
  datatype Screen = SignInScreen | GuardedDashboard

  function Route(path: string): (s: Screen)
    ensures s == GuardedDashboard <==> path == "/dashboard"
    ensures s == SignInScreen <==> path != "/dashboard"
  {
    if path == "/dashboard" then GuardedDashboard else SignInScreen
  }

  /** Every outcome is one of the four. */
  lemma GuardOutcomes(loading: bool, user: Option<User>, tipo: Option<string>)
    ensures Guard(loading, user, tipo) in {Spinner, RedirectTo("/"), RedirectTo("/dashboard"), Outlet}
  {
  }

  /** A stricter route never lets through someone a looser one refuses, and
      a user always passes a route that requires their own role. */
  lemma OwnRolePasses(u: User)
    ensures Guard(false, Some(u), Some(u.tipoDeUsuario)) == Outlet
    ensures Guard(false, Some(u), Some("admin")) == Outlet ==> Guard(false, Some(u), None) == Outlet
  {
  }
}
