/** The route guard (`src/routes/ProtectedRoute.tsx`): what a protected
    route shows, given the session's `loading` flag, its user and the
    route's optional list of allowed roles. */
module ProtectedRoute {
  import opened Wrappers
  import opened Auth

  const LoginPath := "/login"
  const DashboardPath := "/dashboard"

  /** What the guard returns: `null`, a `<Navigate replace>` or the children. */
  datatype Outcome = RenderNothing | RedirectTo(path: string) | RenderChildren

  /** `allowedRoles && !allowedRoles.includes(user.role)`: a present list,
      even an empty one, restricts. */
  predicate RoleRefused(role: string, allowedRoles: Option<seq<string>>) {
    allowedRoles.Some? && role !in allowedRoles.value
  }

  /** The guard decision. */
  function Guard(loading: bool, user: Option<User>, allowedRoles: Option<seq<string>>): (o: Outcome)
    ensures o == RenderNothing <==> loading
    ensures o == RedirectTo(LoginPath) <==> !loading && user.None?
    ensures o == RedirectTo(DashboardPath) <==>
              !loading && user.Some? && allowedRoles.Some? && user.value.role !in allowedRoles.value
    ensures o == RenderChildren <==>
              !loading && user.Some? && (allowedRoles.None? || user.value.role in allowedRoles.value)
    ensures o.RedirectTo? ==> o.path == LoginPath || o.path == DashboardPath
  {
    if loading then RenderNothing
    else if user.None? then RedirectTo(LoginPath)
    else if RoleRefused(user.value.role, allowedRoles) then RedirectTo(DashboardPath)
    else RenderChildren
  }

  /** Widening the allowed roles never turns a rendered page into a redirect. */
  lemma GuardMonotone(loading: bool, user: Option<User>, roles: seq<string>, more: seq<string>)
    requires forall r :: r in roles ==> r in more
    ensures Guard(loading, user, Some(roles)) == RenderChildren ==>
              Guard(loading, user, Some(more)) == RenderChildren
    ensures Guard(loading, user, Some(more)) == RenderChildren ==>
              Guard(loading, user, None) == RenderChildren
  {
  }

  /** An empty `allowedRoles` array is truthy in JavaScript, so it admits no
      one: every signed-in user is sent to the dashboard. */
  lemma EmptyRolesAdmitNoOne(user: User)
    ensures Guard(false, Some(user), Some([])) == RedirectTo(DashboardPath)
  {
  }
}

/** The route table (`src/App.tsx`): every path the router knows, the page
    it shows and how it is guarded. */
module App {
  import opened Wrappers
  import opened Seqs
  import opened Auth
  import opened ProtectedRoute

  datatype Page =
    | Index | Login | Register | ForgotPassword | ResetPassword | ContactAdmin
    | Dashboard | Payments | Settings
    | Properties | AddProperty | Onboarding | Upload | OcrPreview | Tenants
    | Lease
    | NotFound

  /** A public route, or one wrapped in `ProtectedRoute` with its `allowedRoles`. */
  datatype Guarding = Public | Protected(allowedRoles: Option<seq<string>>)

  datatype Route = Route(path: string, page: Page, guarding: Guarding)

  const LandlordRoles: seq<string> := ["LANDLORD", "ADMIN"]
  const TenantRoles: seq<string> := ["TENANT"]

  /** The paths listed before the `"*"` catch-all, in order. */
  const Routes: seq<Route> := [
    Route("/", Index, Public),
    Route("/login", Login, Public),
    Route("/register", Register, Public),
    Route("/forgot-password", ForgotPassword, Public),
    Route("/reset-password", ResetPassword, Public),
    Route("/contact-admin", ContactAdmin, Public),
    Route("/dashboard", Dashboard, Protected(None)),
    Route("/payments", Payments, Protected(None)),
    Route("/settings", Settings, Protected(None)),
    Route("/properties", Properties, Protected(Some(LandlordRoles))),
    Route("/properties/new", AddProperty, Protected(Some(LandlordRoles))),
    Route("/onboarding", Onboarding, Protected(Some(LandlordRoles))),
    Route("/upload", Upload, Protected(Some(LandlordRoles))),
    Route("/ocr-preview", OcrPreview, Protected(Some(LandlordRoles))),
    Route("/tenants", Tenants, Protected(Some(LandlordRoles))),
    Route("/lease", Lease, Protected(Some(TenantRoles)))
  ]

  const PublicPaths: seq<string> :=
    ["/", "/login", "/register", "/forgot-password", "/reset-password", "/contact-admin"]
  const SharedPaths: seq<string> := ["/dashboard", "/payments", "/settings"]
  const LandlordPaths: seq<string> :=
    ["/properties", "/properties/new", "/onboarding", "/upload", "/ocr-preview", "/tenants"]
  const TenantPaths: seq<string> := ["/lease"]

  /** No two routes share a path. */
  predicate DistinctPaths(routes: seq<Route>) {
    forall i, j :: 0 <= i < j < |routes| ==> routes[i].path != routes[j].path
  }

  /** The first route whose path is exactly `path`. */
  function Lookup(routes: seq<Route>, path: string): (r: Option<Route>)
    ensures r.Some? ==> exists k :: 0 <= k < |routes| && routes[k] == r.value && r.value.path == path
                                    && forall j :: 0 <= j < k ==> routes[j].path != path
    ensures r.None? ==> forall i :: 0 <= i < |routes| ==> routes[i].path != path
  {
    match FindIndex(routes, (route: Route) => route.path == path)
    case Some(k) => Some(routes[k])
    case None => None
  }

  /** With distinct paths, looking a route's path up finds that route. */
  lemma LookupIndex(routes: seq<Route>, i: nat)
    requires DistinctPaths(routes) && i < |routes|
    ensures Lookup(routes, routes[i].path) == Some(routes[i])
  {
    var k :| 0 <= k < |routes| && routes[k] == Lookup(routes, routes[i].path).value
             && routes[k].path == routes[i].path
             && forall j :: 0 <= j < k ==> routes[j].path != routes[i].path;
    assert k == i;
  }

  /** The catch-all page is not among the listed routes. */
  lemma RoutePages()
    ensures forall i :: 0 <= i < |Routes| ==> Routes[i].page != NotFound
  {
  }

  /** The router's choice for a path: a listed route, else the `"*"` route,
      which shows `NotFound` unguarded. */
  function Resolve(path: string): (r: Route)
    ensures r.page == NotFound <==> forall i :: 0 <= i < |Routes| ==> Routes[i].path != path
    ensures r.page != NotFound ==> r in Routes && r.path == path
  {
    RoutePages();
    match Lookup(Routes, path)
    case Some(route) => route
    case None => Route("*", NotFound, Public)
  }

  /** What appears on screen. */
  datatype Screen = Show(page: Page) | Blank | Redirect(to: string)

  /** The page the router renders at `path` for the current session. */
  function Render(path: string, loading: bool, user: Option<User>): (s: Screen)
    ensures Resolve(path).guarding.Public? ==> s == Show(Resolve(path).page)
    ensures Resolve(path).guarding.Protected? ==>
              (s == Show(Resolve(path).page) <==>
                 Guard(loading, user, Resolve(path).guarding.allowedRoles) == RenderChildren)
  {
    var route := Resolve(path);
    match route.guarding
    case Public => Show(route.page)
    case Protected(roles) =>
      match Guard(loading, user, roles)
      case RenderChildren => Show(route.page)
      case RenderNothing => Blank
      case RedirectTo(to) => Redirect(to)
  }

  /** A signed-in user with `role` sees the page at `path` once the session
      has loaded. */
  predicate Reachable(path: string, role: string) {
    var u := User(None, "", "", role);
    Render(path, false, Some(u)) == Show(Resolve(path).page)
  }

  lemma RoutesDistinct()
    ensures DistinctPaths(Routes)
  {
  }

  /** Every listed route resolves to itself. */
  lemma ResolveListed(i: nat)
    requires i < |Routes|
    ensures Resolve(Routes[i].path) == Routes[i]
  {
    RoutesDistinct();
    LookupIndex(Routes, i);
  }

  /** The public pages are shown to everyone, signed in or not, loading or not. */
  lemma PublicRoutes(path: string, loading: bool, user: Option<User>)
    requires path in PublicPaths
    ensures Resolve(path).guarding == Public && Resolve(path).page != NotFound
    ensures Render(path, loading, user) == Show(Resolve(path).page)
  {
    var k :| 0 <= k < |PublicPaths| && PublicPaths[k] == path;
    assert Routes[k].path == path;
    ResolveListed(k);
  }

  /** Dashboard, payments and settings need a session but no particular role. */
  lemma SharedRoutes(path: string)
    requires path in SharedPaths
    ensures Resolve(path).guarding == Protected(None)
  {
    var k :| 0 <= k < |SharedPaths| && SharedPaths[k] == path;
    assert Routes[6 + k].path == path;
    ResolveListed(6 + k);
  }

  /** The management pages admit LANDLORD and ADMIN only. */
  lemma LandlordRoutes(path: string)
    requires path in LandlordPaths
    ensures Resolve(path).guarding == Protected(Some(LandlordRoles))
  {
    var k :| 0 <= k < |LandlordPaths| && LandlordPaths[k] == path;
    assert Routes[9 + k].path == path;
    ResolveListed(9 + k);
  }

  /** The lease page admits TENANT only. */
  lemma TenantRoutes()
    ensures Resolve("/lease").guarding == Protected(Some(TenantRoles))
  {
    assert Routes[15].path == "/lease";
    ResolveListed(15);
  }

  /** The table lists the four groups' paths, in this order. */
  lemma RoutesLayout()
    ensures forall i :: 0 <= i < |Routes| ==> Routes[i].path == (PublicPaths + SharedPaths + LandlordPaths + TenantPaths)[i]
  {
  }

  /** The four groups cover the table, so any other path is not found. */
  lemma UnlistedNotFound(path: string)
    requires path !in PublicPaths && path !in SharedPaths && path !in LandlordPaths && path !in TenantPaths
    ensures Resolve(path).page == NotFound && Resolve(path).guarding == Public
  {
    var all := PublicPaths + SharedPaths + LandlordPaths + TenantPaths;
    assert path !in all;
    RoutesLayout();
    assert |Routes| == |all|;
    forall i | 0 <= i < |Routes|
      ensures Routes[i].path != path
    {
      assert all[i] in all;
    }
  }

  /** Shared pages are reached by every signed-in user, whatever the role. */
  lemma SharedReachable(path: string, role: string)
    requires path in SharedPaths
    ensures Reachable(path, role)
  {
    SharedRoutes(path);
  }

  /** Management pages are reached exactly by LANDLORD and ADMIN. */
  lemma LandlordReachable(path: string, role: string)
    requires path in LandlordPaths
    ensures Reachable(path, role) <==> role == "LANDLORD" || role == "ADMIN"
  {
    LandlordRoutes(path);
    assert role in LandlordRoles <==> role == "LANDLORD" || role == "ADMIN";
  }

  /** The lease page is reached exactly by TENANT. */
  lemma LeaseReachable(role: string)
    ensures Reachable("/lease", role) <==> role == "TENANT"
  {
    TenantRoutes();
    assert role in TenantRoles <==> role == "TENANT";
  }
}
