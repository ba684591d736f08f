/** The route guard (src/components/auth/ProtectedRoute.jsx): a spinner while
    the session loads, the nested routes for an authenticated session, a
    redirect to the login page otherwise. */
module ProtectedRoute {
  import opened Common
  import Auth

  datatype RouteView = Spinner | Outlet | Redirect(to: string, replace: bool)

  /** The guard's decision from the session's `loading` and `isAuthenticated`. */
  function Decide(loading: bool, isAuthenticated: bool): (v: RouteView)
    ensures v == Spinner <==> loading
    ensures v == Outlet <==> !loading && isAuthenticated
    ensures v.Redirect? <==> !loading && !isAuthenticated
    ensures v.Redirect? ==> v.to == Auth.LoginPath && v.replace
  {
    if loading then Spinner
    else if isAuthenticated then Outlet
    else Redirect(Auth.LoginPath, true)
  }

  /** The guard as the app runs it, on the session the provider exposes. */
  function Guard(s: Auth.Session): (v: RouteView)
    reads s
    ensures v == Spinner <==> s.loading
    ensures v == Outlet <==> !s.loading && s.token.Some? && s.token.value != ""
    ensures v.Redirect? ==> v.to == Auth.LoginPath && v.replace
  {
    Decide(s.loading, s.IsAuthenticated())
  }

  /** Protected pages are reachable only with a non-empty token. */
  lemma OutletNeedsToken(s: Auth.Session)
    requires Guard(s) == Outlet
    ensures s.token.Some? && s.token.value != "" && !s.loading
  {
  }

  /** While the session loads, either the provider or the guard shows a
      spinner; the provider's gate only ever covers a guard that would show one. */
  lemma SpinnerWhileLoading(loading: bool, token: Option<string>)
    ensures loading ==> Auth.SpinnerGate(loading, token) || Decide(loading, Truthy(token)) == Spinner
    ensures Auth.SpinnerGate(loading, token) ==> Decide(loading, Truthy(token)) == Spinner
  {
  }

  /** Once the session has settled without a token, protected pages redirect to login. */
  lemma SettledWithoutTokenRedirects(s: Auth.Session)
    requires !s.loading && s.token.None?
    ensures Guard(s) == Redirect(Auth.LoginPath, true)
  {
  }
}
