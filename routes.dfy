/** The route table of src/App.tsx: which page a path shows, and through
    which guards. */
module Routes {
  import opened Wrappers
  import opened Identity
  import opened Guards
  import opened AuthContext

  datatype Page =
    | LoginPage | RegisterPage | ForgotPasswordPage
    | DashboardPage | ProfilePage | MedicalRecordsPage | AppointmentsPage | SettingsPage
    | NotFoundPage

  /** The layout a page is shown in. */
  datatype Layout = AuthFrame | DashboardFrame | Bare

  /** What navigating to a path ends in. */
  datatype Screen = LoadingScreen | Show(layout: Layout, page: Page) | Navigate(to: string)

  /** The three pages under the auth layout, with no guard. */
  function PublicPage(path: string): Option<Page> {
    if path == "/login" then Some(LoginPage)
    else if path == "/register" then Some(RegisterPage)
    else if path == "/forgot-password" then Some(ForgotPasswordPage)
    else None
  }

  /** The five pages behind ProtectedRoute and the dashboard layout. */
  function ProtectedPage(path: string): Option<Page> {
    if path == "/dashboard" then Some(DashboardPage)
    else if path == "/profile" then Some(ProfilePage)
    else if path == "/medical-records" then Some(MedicalRecordsPage)
    else if path == "/appointments" then Some(AppointmentsPage)
    else if path == "/settings" then Some(SettingsPage)
    else None
  }

  /** Follows a guard's decision: its content on Allow. */
  function Guarded(d: Decision, content: Screen): Screen {
    match d
    case Loading => LoadingScreen
    case Allow => content
    case Redirect(to) => Navigate(to)
  }

  /** `<Routes>`: the screen a path shows in a given auth state. */
  function Resolve(path: string, auth: AuthState): (screen: Screen)
    ensures PublicPage(path).Some? ==> screen == Show(AuthFrame, PublicPage(path).value)
    ensures screen.Show? && screen.layout == DashboardFrame ==>
      ProtectedPage(path) == Some(screen.page) && !auth.isLoading && auth.isAuthenticated
    ensures screen.Show? && screen.page == SettingsPage ==> auth.user.Some? && auth.user.value.role == Admin
    ensures screen == LoadingScreen ==> ProtectedPage(path).Some? && auth.isLoading
    ensures screen.Navigate? ==> screen.to == "/login" || screen.to == "/dashboard"
    ensures screen == Show(Bare, NotFoundPage) <==> PublicPage(path).None? && ProtectedPage(path).None? && path != "/"
  {
    match PublicPage(path)
    case Some(p) => Show(AuthFrame, p)
    case None =>
      match ProtectedPage(path)
      case Some(p) =>
        var inner := if p == SettingsPage
          then Guarded(RoleBasedRoute(auth.user, ["admin"]), Show(DashboardFrame, SettingsPage))
          else Show(DashboardFrame, p);
        Guarded(ProtectedRoute(auth.isLoading, auth.isAuthenticated), inner)
      case None =>
        if path == "/" then Navigate("/dashboard") else Show(Bare, NotFoundPage)
  }

  /** The login, register and forgot-password pages show whatever the auth
      state. */
  lemma PublicRoutesUnguarded(path: string, auth: AuthState, other: AuthState)
    requires path in ["/login", "/register", "/forgot-password"]
    ensures Resolve(path, auth) == Resolve(path, other)
    ensures Resolve(path, auth).Show? && Resolve(path, auth).layout == AuthFrame
  {
  }

  /** The four member pages are exactly ProtectedRoute's decision. */
  lemma MemberRoutesProtected(path: string, auth: AuthState)
    requires path in ["/dashboard", "/profile", "/medical-records", "/appointments"]
    ensures Resolve(path, auth) == LoadingScreen <==> auth.isLoading
    ensures Resolve(path, auth).Show? <==> !auth.isLoading && auth.isAuthenticated
    ensures Resolve(path, auth) == Navigate("/login") <==> !auth.isLoading && !auth.isAuthenticated
  {
  }

  /** "/settings" chains both guards: loading first, then "/login" for no
      user, then "/dashboard" for a user who is not an administrator. */
  lemma SettingsRoute(auth: AuthState)
    requires auth.isAuthenticated <==> auth.user.Some?
    ensures auth.isLoading ==> Resolve("/settings", auth) == LoadingScreen
    ensures !auth.isLoading && auth.user.None? ==> Resolve("/settings", auth) == Navigate("/login")
    ensures !auth.isLoading && auth.user.Some? && auth.user.value.role != Admin ==>
      Resolve("/settings", auth) == Navigate("/dashboard")
    ensures !auth.isLoading && auth.user.Some? && auth.user.value.role == Admin ==>
      Resolve("/settings", auth) == Show(DashboardFrame, SettingsPage)
  {
    AdminGuard(auth.user);
  }

  /** "/" always redirects to the dashboard; any path not in the table is the
      not-found page. */
  lemma RootAndUnknownRoutes(path: string, auth: AuthState)
    ensures Resolve("/", auth) == Navigate("/dashboard")
    ensures PublicPage(path).None? && ProtectedPage(path).None? && path != "/" ==>
      Resolve(path, auth) == Show(Bare, NotFoundPage)
  {
  }

  /** For the state a provider hands down, a page reached through the guards
      is shown only to a signed-in user, and settings only to an
      administrator. */
  lemma ShownOnlyWhenSignedIn(path: string, auth: AuthState)
    requires auth.isAuthenticated <==> auth.user.Some?
    requires ProtectedPage(path).Some?
    ensures Resolve(path, auth).Show? ==> auth.user.Some? && !auth.isLoading
    ensures Resolve(path, auth).Show? && path == "/settings" ==> auth.user.value.role == Admin
  {
    AdminGuard(auth.user);
  }
}
