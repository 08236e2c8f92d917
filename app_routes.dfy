/** The application's route table: which page each path shows and which
    roles, if any, guard it; any other path shows the not-found page. */
module AppRoutes {
  import opened Common
  import opened Sessions
  import opened Guard

  datatype Page = LoginPage | DashboardPage | AdminPanelPage | UnauthorizedPage | NotFoundPage

  /** One row of the table; `allowedRoles` is None for an unguarded page. */
  datatype Route = Route(path: string, allowedRoles: Option<seq<string>>, page: Page)

  const Routes: seq<Route> := [
    Route("/", None, LoginPage),
    Route("/dashboard", Some(["admin", "user"]), DashboardPage),
    Route("/admin", Some(["admin"]), AdminPanelPage),
    Route("/unauthorized", None, UnauthorizedPage)
  ]

  /** The `*` route. */
  const CatchAll := Route("*", None, NotFoundPage)

  /** The first row of `table` whose path is `path`, else the catch-all. */
  function MatchRoute(table: seq<Route>, path: string): (r: Route)
    ensures (r in table && r.path == path) ||
            (r == CatchAll && forall k :: 0 <= k < |table| ==> table[k].path != path)
    decreases |table|
  {
    if table == [] then CatchAll
    else if table[0].path == path then table[0]
    else MatchRoute(table[1..], path)
  }

  /** Of several rows with the requested path, the first one wins. */
  lemma {:induction false} MatchRouteIsFirst(table: seq<Route>, path: string, k: nat)
    requires k < |table| && table[k].path == path
    requires forall j :: 0 <= j < k ==> table[j].path != path
    ensures MatchRoute(table, path) == table[k]
    decreases k
  {
    if k > 0 {
      MatchRouteIsFirst(table[1..], path, k - 1);
    }
  }

  /** What a navigation to `path` shows: the page, or a guard's redirect. */
  datatype Screen = Shows(page: Page) | Redirected(to: string)

  /** The matched row's page is shown when the row is unguarded or its
      guard lets the session through; otherwise the guard's redirect is
      followed. */
  function Navigate(user: Option<Session>, path: string): (s: Screen)
    ensures s.Shows? <==>
              MatchRoute(Routes, path).allowedRoles.None? ||
              Permitted(user, MatchRoute(Routes, path).allowedRoles.value)
    ensures s.Shows? ==> s.page == MatchRoute(Routes, path).page
    ensures s.Redirected? ==>
              s == Redirected(ProtectedRoute(user, MatchRoute(Routes, path).allowedRoles.value).path)
  {
    var route := MatchRoute(Routes, path);
    match route.allowedRoles
    case None => Shows(route.page)
    case Some(roles) =>
      match ProtectedRoute(user, roles)
      case RenderChildren => Shows(route.page)
      case RedirectTo(p) => Redirected(p)
  }

  /** `/` and `/unauthorized` are shown to everyone. */
  lemma UnguardedPaths(user: Option<Session>)
    ensures Navigate(user, "/") == Shows(LoginPage)
    ensures Navigate(user, "/unauthorized") == Shows(UnauthorizedPage)
  {
  }

  /** `/dashboard` admits the roles admin and user. */
  lemma DashboardGuard(user: Option<Session>)
    ensures user.None? ==> Navigate(user, "/dashboard") == Redirected("/")
    ensures user.Some? && user.value.user.role in {"admin", "user"} ==>
              Navigate(user, "/dashboard") == Shows(DashboardPage)
    ensures user.Some? && user.value.user.role !in {"admin", "user"} ==>
              Navigate(user, "/dashboard") == Redirected("/unauthorized")
  {
  }

  /** `/admin` admits the role admin only. */
  lemma AdminGuard(user: Option<Session>)
    ensures user.None? ==> Navigate(user, "/admin") == Redirected("/")
    ensures user.Some? && user.value.user.role == "admin" ==> Navigate(user, "/admin") == Shows(AdminPanelPage)
    ensures user.Some? && user.value.user.role != "admin" ==> Navigate(user, "/admin") == Redirected("/unauthorized")
  {
  }

  /** Every path outside the table shows the not-found page, to anyone. */
  lemma OtherPathsNotFound(user: Option<Session>, path: string)
    requires path !in {"/", "/dashboard", "/admin", "/unauthorized"}
    ensures Navigate(user, path) == Shows(NotFoundPage)
  {
  }

  /** A redirect always lands on a page that is shown without a further
      redirect: the guard's two targets are unguarded. */
  lemma RedirectsLandOnAPage(user: Option<Session>, path: string)
    ensures Navigate(user, path).Redirected? ==> Navigate(user, Navigate(user, path).to).Shows?
  {
    if Navigate(user, path).Redirected? {
      UnguardedPaths(user);
    }
  }
}
