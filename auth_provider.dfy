/** The authentication guard around the dashboard: where it navigates and
    when it renders its children. */
module AuthProvider {
  import opened Seqs

  const LoginPath := "/login"
  const DashboardPath := "/dashboard"

  /** The navigation the guard performs, if any: a signed-out visitor away
      from the login page goes there, a signed-in one on it goes to the
      dashboard; nothing happens before mounting or while loading. */
  function Redirect(mounted: bool, isLoading: bool, isAuthenticated: bool, pathname: string): (r: Option<string>)
    ensures !mounted || isLoading ==> r.None?
    ensures mounted && !isLoading && !isAuthenticated && pathname != LoginPath ==> r == Some(LoginPath)
    ensures mounted && !isLoading && isAuthenticated && pathname == LoginPath ==> r == Some(DashboardPath)
    ensures r.Some? <==> mounted && !isLoading && (isAuthenticated <==> pathname == LoginPath)
  {
    if mounted && !isLoading then
      if !isAuthenticated && pathname != LoginPath then Some(LoginPath)
      else if isAuthenticated && pathname == LoginPath then Some(DashboardPath)
      else None
    else None
  }

  /** The children show once mounted and done loading; until then a spinner does. */
  function RendersChildren(mounted: bool, isLoading: bool): (r: bool)
    ensures r <==> mounted && !isLoading
  {
    mounted && !isLoading
  }

  /** A page the guard renders and leaves in place is one the visitor may
      see: the dashboard pages when signed in, the login page when signed out. */
  lemma RenderedPageIsAllowed(mounted: bool, isLoading: bool, isAuthenticated: bool, pathname: string)
    requires RendersChildren(mounted, isLoading) && Redirect(mounted, isLoading, isAuthenticated, pathname).None?
    ensures isAuthenticated <==> pathname != LoginPath
  {
  }

  /** The guard renders a protected page to a signed-out visitor in the same
      state in which it sends them to the login page: the children show until
      the navigation completes. */
  lemma RendersWhileRedirecting(pathname: string)
    requires pathname != LoginPath
    ensures RendersChildren(true, false) && Redirect(true, false, false, pathname) == Some(LoginPath)
  {
  }

  /** The guard never navigates to the page it is on, and once it has
      navigated it stays put: the target page triggers no further navigation. */
  lemma RedirectSettles(mounted: bool, isLoading: bool, isAuthenticated: bool, pathname: string)
    requires Redirect(mounted, isLoading, isAuthenticated, pathname).Some?
    ensures Redirect(mounted, isLoading, isAuthenticated, pathname).value != pathname
    ensures Redirect(mounted, isLoading, isAuthenticated, Redirect(mounted, isLoading, isAuthenticated, pathname).value).None?
  {
  }
}
