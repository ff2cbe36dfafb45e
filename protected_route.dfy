/** `ProtectedRoute`: render the wrapped page, or redirect to the home page. */
module ProtectedRoute {
  import opened Wrappers
  import opened Plans

  datatype RouteDecision = RedirectTo(path: string) | RenderChildren

  /** `adminEmail` is the configured `REACT_APP_ADMIN_EMAIL`. */
  function Decide(user: Option<User>, adminOnly: bool, adminEmail: string): (r: RouteDecision)
    ensures r == RenderChildren <==> user.Some? && (!adminOnly || user.value.email == adminEmail)
    ensures r != RenderChildren ==> r == RedirectTo("/")
  {
    if user.None? then RedirectTo("/")
    else if adminOnly && user.value.email != adminEmail then RedirectTo("/")
    else RenderChildren
  }

  /** Admin-only routes admit fewer users than plain protected routes: whoever
      passes the admin check passes the plain one. */
  lemma AdminOnlyIsStricter(user: Option<User>, adminEmail: string)
    ensures Decide(user, true, adminEmail) == RenderChildren ==> Decide(user, false, adminEmail) == RenderChildren
  {
  }
}
