/** The navigation sidebar (`src/components/renttrack/Sidebar.tsx`): which
    links a session is offered, which one is highlighted, and the mobile
    menu's open flag. */
module Sidebar {
  import opened Wrappers
  import opened Auth
  import App

  /** A link; its icon is presentation only. */
  datatype NavItem = NavItem(caption: string, path: string)

  const LandlordNav: seq<NavItem> := [
    NavItem("Dashboard", "/dashboard"),
    NavItem("Properties", "/properties"),
    NavItem("Onboarding", "/onboarding"),
    NavItem("Upload", "/upload"),
    NavItem("OCR Preview", "/ocr-preview"),
    NavItem("Tenants", "/tenants"),
    NavItem("Payments", "/payments"),
    NavItem("Settings", "/settings")
  ]

  const TenantNav: seq<NavItem> := [
    NavItem("Dashboard", "/dashboard"),
    NavItem("Lease", "/lease"),
    NavItem("Payments", "/payments"),
    NavItem("Settings", "/settings")
  ]

  /** LANDLORD and ADMIN get the landlord links; everyone else, including
      no user at all, gets the tenant links. */
  function NavItems(user: Option<User>): (items: seq<NavItem>)
    ensures items == LandlordNav <==> user.Some? && (user.value.role == "LANDLORD" || user.value.role == "ADMIN")
    ensures items == TenantNav <==> !(user.Some? && (user.value.role == "LANDLORD" || user.value.role == "ADMIN"))
  {
    assert LandlordNav != TenantNav by {
      assert |LandlordNav| != |TenantNav|;
    }
    if user.Some? && (user.value.role == "LANDLORD" || user.value.role == "ADMIN") then LandlordNav
    else TenantNav
  }

  /** `location.pathname === item.path`. */
  predicate IsActive(pathname: string, item: NavItem) {
    pathname == item.path
  }

  predicate DistinctNavPaths(items: seq<NavItem>) {
    forall i, j :: 0 <= i < j < |items| ==> items[i].path != items[j].path
  }

  lemma NavPathsDistinct()
    ensures DistinctNavPaths(LandlordNav) && DistinctNavPaths(TenantNav)
  {
  }

  /** Whatever the session and the location, at most one link is highlighted,
      and it is the one whose path is the location. */
  lemma AtMostOneActive(user: Option<User>, pathname: string, i: nat, j: nat)
    requires i < |NavItems(user)| && j < |NavItems(user)|
    requires IsActive(pathname, NavItems(user)[i]) && IsActive(pathname, NavItems(user)[j])
    ensures i == j && NavItems(user)[i].path == pathname
  {
    NavPathsDistinct();
  }

  /** Every tenant link leads to a page a TENANT is allowed to see. */
  lemma TenantLinksReachable(k: nat)
    requires k < |TenantNav|
    ensures App.Reachable(TenantNav[k].path, "TENANT")
    ensures App.Resolve(TenantNav[k].path).page != App.NotFound
  {
    if k == 1 {
      App.LeaseReachable("TENANT");
      App.ResolveListed(15);
    } else {
      var p := TenantNav[k].path;
      assert p in App.SharedPaths;
      App.SharedReachable(p, "TENANT");
      App.SharedRoutes(p);
    }
  }

  /** Every landlord link leads to a page LANDLORD and ADMIN may see. */
  lemma LandlordLinksReachable(k: nat, role: string)
    requires k < |LandlordNav|
    requires role == "LANDLORD" || role == "ADMIN"
    ensures App.Reachable(LandlordNav[k].path, role)
  {
    var p := LandlordNav[k].path;
    if 1 <= k <= 5 {
      assert p == App.LandlordPaths[if k == 5 then 5 else if k == 1 then 0 else k];
      App.LandlordReachable(p, role);
    } else {
      assert p in App.SharedPaths;
      App.SharedReachable(p, role);
    }
  }

  /** The links a signed-in user is shown all lead somewhere they may go
      exactly when the role is one the application knows: any other role
      is offered the lease link and is turned away there. */
  lemma ShownLinksReachable(u: User)
    ensures (forall k :: 0 <= k < |NavItems(Some(u))| ==> App.Reachable(NavItems(Some(u))[k].path, u.role))
            <==> u.role == "LANDLORD" || u.role == "ADMIN" || u.role == "TENANT"
  {
    var items := NavItems(Some(u));
    if u.role == "LANDLORD" || u.role == "ADMIN" {
      forall k | 0 <= k < |items|
        ensures App.Reachable(items[k].path, u.role)
      {
        LandlordLinksReachable(k, u.role);
      }
    } else if u.role == "TENANT" {
      forall k | 0 <= k < |items|
        ensures App.Reachable(items[k].path, u.role)
      {
        TenantLinksReachable(k);
      }
    } else {
      assert items[1].path == "/lease";
      App.LeaseReachable(u.role);
    }
  }

  /** The sidebar's own state: whether the mobile menu is open. */
  class SidebarState {
    var mobileOpen: bool

    constructor ()
      ensures !mobileOpen
    {
      mobileOpen := false;
    }

    /** The menu button flips the flag. */
    method ToggleMenu()
      modifies this
      ensures mobileOpen == !old(mobileOpen)
    {
      mobileOpen := !mobileOpen;
    }

    /** Following a link, or tapping the overlay, closes the menu. */
    method Close()
      modifies this
      ensures !mobileOpen
    {
      mobileOpen := false;
    }

    /** "Sign Out": the session's `logout`, then the menu closes. */
    method SignOut(auth: AuthProvider)
      requires auth.Valid()
      modifies this, auth, auth.storage, auth.api
      ensures !mobileOpen && auth.Valid()
      ensures auth.user == None && auth.token == None
      ensures auth.storage.items == map[] && auth.api.authToken == None
    {
      auth.Logout();
      mobileOpen := false;
    }
  }
}
