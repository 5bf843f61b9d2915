/**
 * The client-side route guard (ProtectedRoute.tsx): from the signed-in
 * user, whether the first profile request has settled, the current path and
 * the roles a route admits, it either redirects or renders the page.
 */
module ProtectedRoute {
  import opened Wrappers
  import opened Common
  import opened FrontTypes

  datatype Outcome = RedirectTo(path: string) | RenderChildren

  const LoginPath: string := "/login"
  const HomePath: string := "/"

  /** The guard's two checks, in order; `allowedRoles` `None` is a route without the prop. */
  function Decide(user: Option<UserView>, initialized: bool, pathname: string,
                  allowedRoles: Option<seq<Role>>): Outcome
  {
    if user.None? && initialized && pathname != LoginPath then RedirectTo(LoginPath)
    else if user.Some? && allowedRoles.Some? && user.value.role !in allowedRoles.value then RedirectTo(HomePath)
    else RenderChildren
  }

  /**
   * The page is rendered exactly when a signed-in user's role is admitted, or
   * nobody is signed in and either the profile request is still open or the
   * page is the login page; every redirect goes to the login page or home.
   */
  lemma DecideMeaning(user: Option<UserView>, initialized: bool, pathname: string, allowedRoles: Option<seq<Role>>)
    ensures Decide(user, initialized, pathname, allowedRoles) == RenderChildren <==>
      (if user.Some? then allowedRoles.None? || user.value.role in allowedRoles.value
       else !initialized || pathname == LoginPath)
    ensures Decide(user, initialized, pathname, allowedRoles) == RedirectTo(LoginPath) <==>
      user.None? && initialized && pathname != LoginPath
    ensures Decide(user, initialized, pathname, allowedRoles) == RedirectTo(HomePath) <==>
      user.Some? && allowedRoles.Some? && user.value.role !in allowedRoles.value
  {
  }

  /** Before the profile request settles, every page renders, even to nobody. */
  lemma RendersWhileInitializing(pathname: string, allowedRoles: Option<seq<Role>>)
    ensures Decide(None, false, pathname, allowedRoles) == RenderChildren
  {
  }

  /** A route without `allowedRoles` renders for every signed-in user. */
  lemma AnyRoleWithoutAllowedRoles(u: UserView, initialized: bool, pathname: string)
    ensures Decide(Some(u), initialized, pathname, None) == RenderChildren
  {
  }
}
