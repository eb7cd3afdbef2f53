/** The signed-in frame of src/layouts/DashboardLayout.tsx: the side menu
    built by role, the role label, the mobile menu flag and the logout button. */
module DashboardLayout {
  import opened Wrappers
  import opened Identity
  import opened Guards
  import opened AuthContext

  datatype MenuItem = MenuItem(name: string, path: string)

  /** The four entries every signed-in user sees, in order. */
  const BaseMenu: seq<MenuItem> := [
    MenuItem("Tableau de bord", "/dashboard"),
    MenuItem("Profil", "/profile"),
    MenuItem("Dossier m\U{E9}dical", "/medical-records"),
    MenuItem("Rendez-vous", "/appointments")
  ]

  const SettingsItem := MenuItem("Param\U{E8}tres", "/settings")

  /** `menuItems`: the base entries, and the settings entry pushed last for an
      administrator.  The settings entry is offered exactly when the guard in
      front of "/settings" would let the user through. */
  method BuildMenu(user: Option<User>) returns (items: seq<MenuItem>)
    ensures |items| >= 4 && items[..4] == BaseMenu
    ensures user.Some? && user.value.role == Admin ==> items == BaseMenu + [SettingsItem]
    ensures !(user.Some? && user.value.role == Admin) ==> items == BaseMenu
    ensures SettingsItem in items <==> RoleBasedRoute(user, ["admin"]) == Allow
  {
    items := BaseMenu;
    if user.Some? && user.value.role == Admin {
      items := items + [SettingsItem];
    }
    AdminGuard(user);
    assert SettingsItem !in BaseMenu;
  }

  /** The role shown next to the user's name; anything that is neither patient
      nor doctor, a missing user included, reads "Administrateur". */
  function RoleLabel(user: Option<User>): (text: string)
    ensures text == "Patient" <==> user.Some? && user.value.role == Patient
    ensures text == "M\U{E9}decin" <==> user.Some? && user.value.role == Doctor
    ensures text == "Administrateur" <==> user.None? || user.value.role == Admin
  {
    match user
    case Some(User(_, _, _, Patient)) => "Patient"
    case Some(User(_, _, _, Doctor)) => "M\U{E9}decin"
    case _ => "Administrateur"
  }

  /** The mobile menu of the layout. */
  class MobileMenu {
    var isOpen: bool

    constructor ()
      ensures !isOpen
    {
      isOpen := false;
    }

    /** The burger button. */
    method Toggle()
      modifies this
      ensures isOpen == !old(isOpen)
    {
      isOpen := !isOpen;
    }

    /** The close button. */
    method Close()
      modifies this
      ensures !isOpen
    {
      isOpen := false;
    }

    /** Choosing an entry closes the menu and navigates to its path. */
    method Select(item: MenuItem) returns (target: string)
      modifies this
      ensures !isOpen && target == item.path
    {
      isOpen := false;
      target := item.path;
    }
  }

  /** `handleLogout`: log out, then go to the login page. */
  method HandleLogout(auth: AuthProvider) returns (target: string)
    requires auth.Valid()
    modifies auth
    ensures auth.Valid()
    ensures auth.user == None && auth.storage == old(auth.storage) - {SessionKey}
    ensures auth.isLoading == old(auth.isLoading)
    ensures target == "/login"
  {
    auth.Logout();
    target := "/login";
  }
}
