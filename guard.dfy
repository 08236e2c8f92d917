/** The route guard: a decision over the current session and the roles a
    page allows, with no memory of earlier navigations. */
module Guard {
  import opened Common
  import opened Sessions

  const UnauthorizedPath := "/unauthorized"
  const RootPath := "/"

  datatype GuardResult = RedirectTo(path: string) | RenderChildren

  /** The session may see the page: it exists and its role is allowed. */
  predicate Permitted(user: Option<Session>, allowedRoles: seq<string>)
  {
    user.Some? && user.value.user.role in allowedRoles
  }

  /** Anonymous visitors go to `/`; sessions whose role is not allowed go
      to `/unauthorized`; everyone else sees the guarded page. */
  function ProtectedRoute(user: Option<Session>, allowedRoles: seq<string>): (r: GuardResult)
    ensures r == RenderChildren <==> Permitted(user, allowedRoles)
    ensures r.RedirectTo? ==> r.path == RootPath || r.path == UnauthorizedPath
    ensures user.None? ==> r == RedirectTo(RootPath)
    ensures user.Some? && user.value.user.role !in allowedRoles ==> r == RedirectTo(UnauthorizedPath)
  {
    if user.None? then RedirectTo(RootPath)
    else if user.value.user.role !in allowedRoles then RedirectTo(UnauthorizedPath)
    else RenderChildren
  }

  /** The anonymous check comes first: an anonymous visitor is sent to `/`,
      never to `/unauthorized`, whatever roles the page allows. */
  lemma AnonymousGoesToRoot(allowedRoles: seq<string>)
    ensures ProtectedRoute(None, allowedRoles) == RedirectTo(RootPath)
    ensures ProtectedRoute(None, allowedRoles) != RedirectTo(UnauthorizedPath)
  {
  }

  /** The decision reads nothing of the session but its role. */
  lemma DecisionDependsOnlyOnRole(a: Session, b: Session, allowedRoles: seq<string>)
    requires a.user.role == b.user.role
    ensures ProtectedRoute(Some(a), allowedRoles) == ProtectedRoute(Some(b), allowedRoles)
  {
  }
}
