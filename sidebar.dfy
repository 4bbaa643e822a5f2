/** The navigation sidebar: the link list for the session's state and role,
    and the open/closed flag. */
module Sidebar {
  import opened Wrappers
  import opened Json
  import opened Records
  import opened AuthContext

  datatype NavItem = NavItem(caption: string, to: string)

  const Home := NavItem("Home", "/")
  const SignupItem := NavItem("Signup", "/signup")
  const SigninItem := NavItem("Signin", "/signin")
  const Profile := NavItem("Profile", "/profile")
  const DashboardItem := NavItem("Dashboard", "/dashboard")
  const Products := NavItem("Products", "/products")
  const Shopping := NavItem("Shopping", "/shopping")

  /** Where logging out from the sidebar navigates. */
  const SigninPath := "/signin"

  const LoggedOutNavItems: seq<NavItem> := [Home, SignupItem, SigninItem]

  /** The logged-in link list: Profile and Dashboard, then Products for a
      farmer or Shopping for a retailer, and nothing more for any other role. */
  function LoggedInNavItems(role: Option<string>): (items: seq<NavItem>)
    ensures |items| >= 2 && items[0] == Profile && items[1] == DashboardItem
    ensures role == Some(FarmerRole) <==> items == [Profile, DashboardItem, Products]
    ensures role == Some(RetailerRole) <==> items == [Profile, DashboardItem, Shopping]
    ensures role != Some(FarmerRole) && role != Some(RetailerRole) <==> items == [Profile, DashboardItem]
  {
    if role == Some(FarmerRole) then [Profile, DashboardItem, Products]
    else if role == Some(RetailerRole) then [Profile, DashboardItem, Shopping]
    else [Profile, DashboardItem]
  }

  /** `getLoggedInNavItems`: starts from the two common links and pushes the role's link. */
  method GetLoggedInNavItems(role: Option<string>) returns (items: seq<NavItem>)
    ensures items == LoggedInNavItems(role)
  {
    items := [Profile, DashboardItem];
    if role == Some(FarmerRole) {
      items := items + [Products];
    } else if role == Some(RetailerRole) {
      items := items + [Shopping];
    }
  }

  /** The links for the session: Home, Signup and Signin while logged out,
      the role's list while logged in. */
  function NavItems(isLoggedIn: bool, role: Option<string>): (items: seq<NavItem>)
    ensures Home in items <==> !isLoggedIn
    ensures SignupItem in items <==> !isLoggedIn
    ensures SigninItem in items <==> !isLoggedIn
    ensures Profile in items <==> isLoggedIn
    ensures DashboardItem in items <==> isLoggedIn
  {
    if isLoggedIn then LoggedInNavItems(role) else LoggedOutNavItems
  }

  predicate LabelsDistinct(items: seq<NavItem>)
  {
    forall i, j :: 0 <= i < j < |items| ==> items[i].caption != items[j].caption
  }

  datatype MenuEntry = Link(item: NavItem) | LogoutButton

  /** The entries of the sidebar list: one link per nav item, then the
      Logout button exactly when logged in. */
  function Menu(isLoggedIn: bool, role: Option<string>): (m: seq<MenuEntry>)
    ensures LogoutButton in m <==> isLoggedIn
    ensures |m| == |NavItems(isLoggedIn, role)| + (if isLoggedIn then 1 else 0)
    ensures forall i :: 0 <= i < |NavItems(isLoggedIn, role)| ==> m[i] == Link(NavItems(isLoggedIn, role)[i])
    ensures LabelsDistinct(NavItems(isLoggedIn, role))
  {
    var items := NavItems(isLoggedIn, role);
    var links := seq(|items|, i requires 0 <= i < |items| => Link(items[i]));
    if isLoggedIn then links + [LogoutButton] else links
  }

  /** Whether the sidebar is open. */
  class SidebarState {
    var open: bool

    constructor ()
      ensures !open
    {
      open := false;
    }

    /** The menu button. */
    method Toggle()
      modifies this
      ensures open == !old(open)
    {
      open := !open;
    }

    /** A key press anywhere in the window: Escape closes, others do nothing. */
    method KeyDown(key: string)
      modifies this
      ensures open == (old(open) && key != "Escape")
    {
      if key == "Escape" {
        open := false;
      }
    }

    method ClickOverlay()
      modifies this
      ensures !open
    {
      open := false;
    }

    /** Following a link closes the sidebar and navigates to the link's target. */
    method ClickLink(item: NavItem) returns (to: string)
      modifies this
      ensures !open && to == item.to
    {
      open := false;
      to := item.to;
    }

    /** The Logout button: signs the session out, closes the sidebar and navigates to the sign-in page. */
    method HandleLogout(session: Session, jar: CookieJar) returns (to: string)
      modifies this, session, jar
      ensures !open && to == SigninPath
      ensures session.SignedOut() && jar.cookies == old(jar.cookies) - SessionCookies
    {
      session.Logout(jar);
      open := false;
      to := SigninPath;
    }
  }

  /** Logging out from the sidebar leaves the logged-out menu, with no Logout button left. */
  method LogoutShowsLoggedOutMenu(bar: SidebarState, session: Session, jar: CookieJar) returns (m: seq<MenuEntry>)
    modifies bar, session, jar
    ensures m == seq(3, i requires 0 <= i < 3 => Link(LoggedOutNavItems[i]))
    ensures LogoutButton !in m
  {
    var to := bar.HandleLogout(session, jar);
    m := Menu(session.isLoggedIn, session.userRole);
  }
}
