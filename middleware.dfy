/** The request middleware: a signed-out visitor of a protected page is sent to sign-in. Each
    protected path is a pattern with no `:param` segment, so its anchored expression
    `^path$` accepts exactly the path itself. */
module Middleware {
  import opened Wrappers
  import opened Sequences

  const ProtectedRoutes: seq<string> := ["/profile"]

  /** `findCurrentRoute`: the first protected route whose pattern accepts the whole path. */
  function FindCurrentRoute(path: string): (r: Option<string>)
    ensures r.Some? <==> path in ProtectedRoutes
    ensures r.Some? ==> r.value == path
  {
    Find((route: string) => route == path, ProtectedRoutes)
  }

  datatype Decision = Redirect(url: string) | Next

  /** `middleware`: redirect to `origin/signin` when the route is protected and there is no
      session, let the request through otherwise. */
  function Decide(path: string, origin: string, signedIn: bool): (r: Decision)
    ensures r.Redirect? <==> path == "/profile" && !signedIn
    ensures r.Redirect? ==> r.url == origin + "/signin"
  {
    if FindCurrentRoute(path).Some? && !signedIn then Redirect(origin + "/signin") else Next
  }

  /** A signed-in visitor is never redirected, and the only page that ever redirects is the
      profile itself: neither a page below it nor a longer name is protected. */
  lemma OnlyProfileGuarded(origin: string)
    ensures forall path :: Decide(path, origin, true) == Next
    ensures Decide("/profile", origin, false) == Redirect(origin + "/signin")
    ensures Decide("/profile/edit", origin, false) == Next
    ensures Decide("/profiles", origin, false) == Next
    ensures Decide("/", origin, false) == Next
  {
  }
}
