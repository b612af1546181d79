/**
 * The route guard of the Next.js middleware: whether a request is let through
 * or redirected to the login page. The user lookup against the hosted
 * authentication service is not modelled; its outcome is the `hasUser` flag.
 */
module Middleware {
  import opened Strings

  /** The path prefixes that need a signed-in user. */
  const ProtectedPaths: seq<string> := ["/dashboard", "/profile"]

  /** Where a signed-out visitor of a protected path is sent. */
  const LoginRedirectUrl: string := "https://landing-page-volunteer.vercel.app/login"

  /** `NextResponse.next(...)` (the request continues) or `NextResponse.redirect(url)`. */
  datatype Decision = PassThrough | Redirect(url: string)

  /** `prefixes.some(p => path.startsWith(p))`. */
  function AnyPrefix(path: string, prefixes: seq<string>): (b: bool)
    ensures b <==> exists i :: 0 <= i < |prefixes| && StartsWith(path, prefixes[i])
  {
    if prefixes == [] then false
    else StartsWith(path, prefixes[0]) || AnyPrefix(path, prefixes[1..])
  }

  /** `isProtectedPath`. */
  function IsProtectedPath(path: string): (b: bool)
    ensures b <==> StartsWith(path, "/dashboard") || StartsWith(path, "/profile")
  {
    assert ProtectedPaths[0] == "/dashboard" && ProtectedPaths[1] == "/profile";
    AnyPrefix(path, ProtectedPaths)
  }

  /** The guard: redirect exactly when there is no user and the path is protected. */
  function Decide(path: string, hasUser: bool): (d: Decision)
    ensures d.Redirect? <==> !hasUser && (StartsWith(path, "/dashboard") || StartsWith(path, "/profile"))
    ensures d.Redirect? ==> d.url == LoginRedirectUrl
  {
    if !hasUser && IsProtectedPath(path) then Redirect(LoginRedirectUrl) else PassThrough
  }

  /** A signed-in user is never redirected, whatever the path. */
  lemma SignedInPassesThrough(path: string)
    ensures Decide(path, true) == PassThrough
  {
  }

  /** A path outside both prefixes is never redirected, with or without a user. */
  lemma PublicPathPassesThrough(path: string, hasUser: bool)
    requires !StartsWith(path, "/dashboard") && !StartsWith(path, "/profile")
    ensures Decide(path, hasUser) == PassThrough
  {
  }

  /** The home page is public. */
  lemma HomeIsPublic(hasUser: bool)
    ensures Decide("/", hasUser) == PassThrough
  {
  }

  /** Every redirect goes to the same place, whichever path triggered it. */
  lemma RedirectTargetIgnoresPath(p1: string, p2: string)
    requires Decide(p1, false).Redirect? && Decide(p2, false).Redirect?
    ensures Decide(p1, false) == Decide(p2, false)
  {
  }

  /**
   * Matching is by prefix, not by path segment: anything appended to a
   * protected path is protected too, even without a separating slash.
   */
  lemma ProtectedIsPrefixClosed(path: string, suffix: string)
    requires IsProtectedPath(path)
    ensures IsProtectedPath(path + suffix)
  {
  }

  /** Sample paths: sub-paths and look-alike names are protected; matching is case-sensitive. */
  lemma ProtectedSamples()
    ensures IsProtectedPath("/dashboard") && IsProtectedPath("/profile")
    ensures IsProtectedPath("/dashboard/x") && IsProtectedPath("/profiles") && IsProtectedPath("/dashboardfoo")
    ensures !IsProtectedPath("/") && !IsProtectedPath("/dash") && !IsProtectedPath("/Dashboard")
  {
    ProtectedIsPrefixClosed("/dashboard", "/x");
    ProtectedIsPrefixClosed("/profile", "s");
    ProtectedIsPrefixClosed("/dashboard", "foo");
    assert "/Dashboard"[..10] != "/dashboard" by { assert "/Dashboard"[1] != "/dashboard"[1]; }
  }
}
