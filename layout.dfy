/** The layout's role-dependent rules: `AppSidebar`'s navigation and quick stats, the
    `NotificationToast` styles and list, and the `Header` user menu. */
module Layout {
  import opened Common
  import opened AppContexts

  /** A sidebar entry; the icon is named by its component. */
  datatype NavItem = NavItem(icon: string, caption: string, path: string)

  const ClientNav: seq<NavItem> := [
    NavItem("Home", "Dashboard", "/app/dashboard"),
    NavItem("Calendar", "My Sessions", "/app/bookings"),
    NavItem("MessageSquare", "Messages", "/app/messages"),
    NavItem("Settings", "Settings", "/app/settings")]

  const ExpertNav: seq<NavItem> := [
    NavItem("Home", "Dashboard", "/app/dashboard"),
    NavItem("Calendar", "Schedule", "/app/calendar"),
    NavItem("Calendar", "Bookings", "/app/bookings"),
    NavItem("DollarSign", "Earnings", "/app/expert/earnings"),
    NavItem("MessageSquare", "Messages", "/app/messages"),
    NavItem("Settings", "Profile", "/app/expert/profile")]

  const AdminNav: seq<NavItem> := [
    NavItem("Shield", "Admin Panel", "/app/admin"),
    NavItem("Users", "Users", "/app/admin/users"),
    NavItem("BarChart3", "Analytics", "/app/admin/analytics")]

  /** Which list a profile role selects. */
  function NavFor(role: Option<string>): seq<NavItem> {
    if role == Some("expert") then ExpertNav
    else if role == Some("admin") then ClientNav + AdminNav
    else ClientNav
  }

  /** `navItems`, built as the component does it: the client list, replaced by the expert list
      for an expert, then extended by the admin list for an admin; and whether the "This
      Month" quick-stats block is shown, which it is only for experts. */
  method Sidebar(role: Option<string>) returns (navItems: seq<NavItem>, quickStats: bool)
    ensures navItems == NavFor(role)
    ensures quickStats <==> role == Some("expert")
  {
    var isExpert := role == Some("expert");
    var isAdmin := role == Some("admin");
    navItems := ClientNav;
    if isExpert {
      navItems := ExpertNav;
    }
    if isAdmin {
      navItems := navItems + AdminNav;
    }
    quickStats := isExpert;
  }

  /** An admin gets the client list, in order, followed by the admin list, in order; anyone
      but an expert or an admin (a missing profile included) gets the client list. */
  lemma AdminNavExtendsClientNav(role: Option<string>)
    ensures NavFor(Some("admin"))[..|ClientNav|] == ClientNav
    ensures NavFor(Some("admin"))[|ClientNav|..] == AdminNav
    ensures role != Some("expert") && role != Some("admin") ==> NavFor(role) == ClientNav
  {
  }

  /** Only an admin is shown the admin panel. */
  lemma AdminPanelOnlyForAdmins(role: Option<string>)
    ensures NavItem("Shield", "Admin Panel", "/app/admin") in NavFor(role) <==> role == Some("admin")
  {
    var panel := NavItem("Shield", "Admin Panel", "/app/admin");
    if role == Some("admin") {
      assert NavFor(role)[|ClientNav|] == panel;
    }
  }

  /** No two entries of a list share a path, so the `pathname === item.path` highlight marks
      at most one entry. */
  lemma NavPathsDistinct(role: Option<string>)
    ensures var items := NavFor(role);
      forall i, j :: 0 <= i < j < |items| ==> items[i].path != items[j].path
  {
  }

  /** `getIcon`: its icon and colour class. */
  function ToastIcon(kind: string): (r: (string, string))
    ensures kind == "success" ==> r == ("CheckCircle", "text-green-500")
    ensures kind == "error" ==> r == ("AlertCircle", "text-red-500")
    ensures kind == "warning" ==> r == ("AlertTriangle", "text-yellow-500")
    ensures kind !in {"success", "error", "warning"} ==> r == ("Info", "text-blue-500")
  {
    if kind == "success" then ("CheckCircle", "text-green-500")
    else if kind == "error" then ("AlertCircle", "text-red-500")
    else if kind == "warning" then ("AlertTriangle", "text-yellow-500")
    else ("Info", "text-blue-500")
  }

  /** `getColorClasses`. */
  function ToastColors(kind: string): (r: string)
    ensures kind == "success" ==> r == "bg-green-50 border-green-200"
    ensures kind == "error" ==> r == "bg-red-50 border-red-200"
    ensures kind == "warning" ==> r == "bg-yellow-50 border-yellow-200"
    ensures kind !in {"success", "error", "warning"} ==> r == "bg-blue-50 border-blue-200"
  {
    if kind == "success" then "bg-green-50 border-green-200"
    else if kind == "error" then "bg-red-50 border-red-200"
    else if kind == "warning" then "bg-yellow-50 border-yellow-200"
    else "bg-blue-50 border-blue-200"
  }

  /** The three named types are styled apart from each other and from `info`; any other type
      looks exactly like `info`. */
  lemma ToastStylesFallBackToInfo(kind: string)
    ensures kind !in {"success", "error", "warning"} ==> ToastIcon(kind) == ToastIcon("info") && ToastColors(kind) == ToastColors("info")
    ensures forall a, b :: a in {"success", "error", "warning", "info"} && b in {"success", "error", "warning", "info"} && a != b ==>
      ToastColors(a) != ToastColors(b) && ToastIcon(a) != ToastIcon(b)
  {
  }

  /** One rendered toast: its styles, its title and the message line when there is one. */
  datatype Toast = Toast(id: string, colors: string, icon: (string, string), title: string, messageLine: Option<string>)

  function ToastFor(n: Notification): Toast {
    Toast(n.id, ToastColors(n.kind), ToastIcon(n.kind), n.title,
          if n.message.Some? && n.message.value != "" then n.message else None)
  }

  /** `notifications.map(..)`: one toast per notification, in list order; the message line is
      rendered only for a present, non-empty message. */
  function Toasts(ns: seq<Notification>): (r: seq<Toast>)
    ensures |r| == |ns|
    ensures forall i :: 0 <= i < |ns| ==> r[i].id == ns[i].id && r[i].title == ns[i].title
    ensures forall i :: 0 <= i < |ns| ==> r[i].colors == ToastColors(ns[i].kind) && r[i].icon == ToastIcon(ns[i].kind)
    ensures forall i :: 0 <= i < |ns| ==>
      (r[i].messageLine.Some? <==> ns[i].message.Some? && ns[i].message.value != "") &&
      (r[i].messageLine.Some? ==> r[i].messageLine == ns[i].message)
  {
    if ns == [] then [] else [ToastFor(ns[0])] + Toasts(ns[1..])
  }

  /** `Header`'s `showUserMenu` cell. */
  class HeaderMenu {
    var showUserMenu: bool

    constructor ()
      ensures !showUserMenu
    {
      showUserMenu := false;
    }

    /** The avatar button is there only for a signed-in user whose profile is loaded. */
    static predicate HasUserMenu(user: Option<string>, profile: Option<ProfileRow>) {
      user.Some? && profile.Some?
    }

    /** The dropdown shows when the button is there and the menu is open. */
    predicate DropdownShown(user: Option<string>, profile: Option<ProfileRow>)
      reads this
    {
      HasUserMenu(user, profile) && showUserMenu
    }

    /** The avatar button toggles the menu. */
    method ToggleMenu()
      modifies this
      ensures showUserMenu == !old(showUserMenu)
    {
      showUserMenu := !showUserMenu;
    }

    /** Every menu link closes the menu. */
    method ClickItem()
      modifies this
      ensures !showUserMenu
      ensures forall user: Option<string>, profile: Option<ProfileRow> :: !DropdownShown(user, profile)
    {
      showUserMenu := false;
    }
  }
}
