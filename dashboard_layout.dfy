/** The dashboard sidebar: navigation entries chosen by role. */
module DashboardLayout {
  import opened Options
  import opened Types
  import HomePage

  datatype NavIcon = LayoutDashboard | FileText | Users | Plane | Calendar

  datatype NavItem = NavItem(name: string, href: string, icon: NavIcon)

  function Names(items: seq<NavItem>): (names: seq<string>)
    ensures |names| == |items|
    ensures forall i :: 0 <= i < |items| ==> names[i] == items[i].name
  {
    seq(|items|, i requires 0 <= i < |items| => items[i].name)
  }

  /** Item names are used as React keys, so no two items of one list share a name. */
  predicate UniqueNames(items: seq<NavItem>) {
    forall i, j :: 0 <= i < j < |items| ==> items[i].name != items[j].name
  }

  const GuideNav: seq<NavItem> := [
    NavItem("Dashboard", "/tour-guide/dashboard", LayoutDashboard),
    NavItem("Assigned Requests", "/tour-guide/requests", FileText)
  ]

  const AdminNav: seq<NavItem> := [
    NavItem("Dashboard", "/admin/dashboard", LayoutDashboard),
    NavItem("Tour Guides", "/admin/tour-guides", Users),
    NavItem("Tour Packages", "/admin/packages", Plane),
    NavItem("Bookings", "/admin/bookings", Calendar),
    NavItem("Requests", "/admin/requests", FileText)
  ]

  // The 'My Bookings' entry (/bookings) is commented out in the default list.
  const UserNav: seq<NavItem> := [
    NavItem("Dashboard", "/dashboard", LayoutDashboard),
    NavItem("Packages", "/packages", FileText),
    NavItem("My Requests", "/requests", FileText)
  ]

  /** `getNavigation()`: the sidebar entries for the signed-in user (or for nobody). */
  function Navigation(user: Option<User>): (items: seq<NavItem>)
    ensures |items| > 0 && items[0].name == "Dashboard"
    ensures UniqueNames(items)
    ensures user.Some? && user.value.role == "tour_guide" ==>
              Names(items) == ["Dashboard", "Assigned Requests"] && items[0].href == "/tour-guide/dashboard"
    ensures user.Some? && user.value.role == "admin" ==>
              Names(items) == ["Dashboard", "Tour Guides", "Tour Packages", "Bookings", "Requests"]
    ensures user.None? || (user.value.role != "tour_guide" && user.value.role != "admin") ==>
              Names(items) == ["Dashboard", "Packages", "My Requests"]
              && forall i :: 0 <= i < |items| ==> items[i].href != "/bookings"
  {
    if user.Some? && user.value.role == "tour_guide" then GuideNav
    else if user.Some? && user.value.role == "admin" then AdminNav
    else UserNav
  }

  /** The declared role 'agent' has no list of its own: it gets the regular user's entries. */
  lemma AgentGetsUserNavigation(u: User)
    requires u.role == "agent"
    ensures Navigation(Some(u)) == Navigation(None)
  {
  }

  /**
   * Sidebar and landing page agree: the first entry of every signed-in user's
   * sidebar is the dashboard the landing page redirects that user to.
   */
  lemma DashboardEntryMatchesRedirect(u: User)
    ensures HomePage.Redirect(false, Some(u)) == Some(Navigation(Some(u))[0].href)
  {
  }
}
