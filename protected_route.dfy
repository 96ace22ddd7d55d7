/** The route guard wrapped around every page except sign-in. */
module ProtectedRoute {
  import opened Common
  import opened Tables

  datatype GuardView = Placeholder | RedirectTo(path: string) | Children

  /** While the session is loading a placeholder, then a redirect to the
      sign-in page without a user, and the page itself with one. */
  function Guard(loading: bool, user: Option<User>): (r: GuardView)
    ensures r == Placeholder <==> loading
    ensures r == RedirectTo("/auth") <==> !loading && user.None?
    ensures r == Children <==> !loading && user.Some?
    ensures r.RedirectTo? ==> r.path == "/auth"
  {
    if loading then Placeholder
    else if user.None? then RedirectTo("/auth")
    else Children
  }
}
