/** The two route guards: ProtectedRoute (src/components/auth/ProtectedRoute.tsx)
    and RoleBasedRoute (src/components/auth/RoleBasedRoute.tsx).  Each is a
    decision taken afresh on every render from the auth state alone. */
module Guards {
  import opened Wrappers
  import opened Identity

  /** What a guard renders: the loading screen, its content, or a `<Navigate>`. */
  datatype Decision = Loading | Allow | Redirect(to: string)

  /** ProtectedRoute: the loading screen while loading, otherwise the nested
      routes for an authenticated user and "/login" for anyone else. */
  function ProtectedRoute(isLoading: bool, isAuthenticated: bool): (d: Decision)
    ensures d == Loading <==> isLoading
    ensures d == Allow <==> !isLoading && isAuthenticated
    ensures d == Redirect("/login") <==> !isLoading && !isAuthenticated
    ensures d.Redirect? ==> d.to == "/login"
  {
    if isLoading then Loading
    else if isAuthenticated then Allow
    else Redirect("/login")
  }

  /** RoleBasedRoute: its children for a user whose role is listed, and
      "/dashboard" (not "/login") for anyone else, a missing user included.
      It does not look at the loading flag. */
  function RoleBasedRoute(user: Option<User>, roles: seq<string>): (d: Decision)
    ensures d == Allow <==> user.Some? && RoleName(user.value.role) in roles
    ensures d != Allow ==> d == Redirect("/dashboard")
  {
    if user.None? || RoleName(user.value.role) !in roles then Redirect("/dashboard")
    else Allow
  }

  /** Listing more roles never takes access away. */
  lemma RoleBasedRouteMonotone(user: Option<User>, roles: seq<string>, more: seq<string>)
    requires forall r :: r in roles ==> r in more
    ensures RoleBasedRoute(user, roles) == Allow ==> RoleBasedRoute(user, more) == Allow
  {
  }

  /** Only the role counts: two users with the same role get the same decision,
      whatever their id, name or email. */
  lemma RoleBasedRouteOnlyRole(u: User, v: User, roles: seq<string>)
    requires u.role == v.role
    ensures RoleBasedRoute(Some(u), roles) == RoleBasedRoute(Some(v), roles)
  {
  }

  /** An empty role list admits nobody. */
  lemma RoleBasedRouteEmpty(user: Option<User>)
    ensures RoleBasedRoute(user, []) == Redirect("/dashboard")
  {
  }

  /** The administrators' guard admits exactly the administrator. */
  lemma AdminGuard(user: Option<User>)
    ensures RoleBasedRoute(user, ["admin"]) == Allow <==> user.Some? && user.value.role == Admin
  {
    if user.Some? {
      assert RoleName(user.value.role) == "admin" <==> user.value.role == Admin;
    }
  }
}
