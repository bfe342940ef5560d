/** The guard around the signed-in pages. */
module ProtectedRouteComponent {

  const SignInPath := "/sign-in"

  /** What the guard renders. */
  datatype Outcome = ShowLoader | RenderChildren | Redirect(to: string)

  /** While the session is loading the loader shows, whatever the sign-in
      state; once loaded, a signed-in user sees the page and anyone else is
      sent to the sign-in page. */
  function Gate(isLoaded: bool, isSignedIn: bool): (o: Outcome)
    ensures o == ShowLoader <==> !isLoaded
    ensures o == RenderChildren <==> isLoaded && isSignedIn
    ensures o.Redirect? <==> isLoaded && !isSignedIn
    ensures o.Redirect? ==> o.to == SignInPath
  {
    if !isLoaded then ShowLoader
    else if isSignedIn then RenderChildren
    else Redirect(SignInPath)
  }
}
