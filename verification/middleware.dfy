/**
 * The authentication middleware: the decision, for each request, between
 * letting it through and redirecting it.
 */
module Middleware {
  import opened Common

  /** `NextResponse.next()` or a redirect to `location` carrying an optional `callbackUrl` search parameter. */
  datatype Response = Next | Redirect(location: string, callbackUrl: Option<string>)

  const PUBLIC_ROUTES: seq<string> := ["/login", "/register", "/"]

  /** `publicRoutes.some(route => pathname === route || pathname.startsWith("/api/auth"))`. */
  predicate IsPublicRoute(pathname: string) {
    exists i :: 0 <= i < |PUBLIC_ROUTES| && (pathname == PUBLIC_ROUTES[i] || StartsWith(pathname, "/api/auth"))
  }

  /**
   * The middleware. `production` says whether `NODE_ENV` is 'production',
   * `hasToken` whether the session token was found, and `encode` stands for
   * `encodeURI`.
   */
  function Decide(production: bool, pathname: string, hasToken: bool, encode: string -> string): (r: Response)
    ensures !production ==> r == Next
    ensures r.Redirect? && r.callbackUrl.Some? ==> r.location == "/login" && r.callbackUrl.value == encode(pathname)
  {
    if !production then Next
    else if !hasToken && !IsPublicRoute(pathname) then Redirect("/login", Some(encode(pathname)))
    else if hasToken && (pathname == "/login" || pathname == "/register") then Redirect("/", None)
    else Next
  }

  /** The public test reads as: one of the three routes exactly, or anything under "/api/auth". */
  lemma PublicRoutes(pathname: string)
    ensures IsPublicRoute(pathname) <==>
      pathname in {"/login", "/register", "/"} || StartsWith(pathname, "/api/auth")
  {
    if pathname == "/register" {
      assert PUBLIC_ROUTES[1] == pathname;
    } else if pathname == "/" {
      assert PUBLIC_ROUTES[2] == pathname;
    } else if pathname == "/login" || StartsWith(pathname, "/api/auth") {
      assert PUBLIC_ROUTES[0] == "/login";
    }
  }

  /** In production, the whole decision table. */
  lemma DecisionTable(pathname: string, hasToken: bool, encode: string -> string)
    ensures var r := Decide(true, pathname, hasToken, encode);
      (!hasToken && !IsPublicRoute(pathname) ==> r == Redirect("/login", Some(encode(pathname)))) &&
      (hasToken && (pathname == "/login" || pathname == "/register") ==> r == Redirect("/", None)) &&
      (hasToken && pathname != "/login" && pathname != "/register" ==> r == Next) &&
      (!hasToken && IsPublicRoute(pathname) ==> r == Next)
  {
  }

  /** An unauthenticated request for a public route is never redirected; so the login page itself is always reachable. */
  lemma PublicNeverRedirectsAnonymous(production: bool, pathname: string, encode: string -> string)
    requires IsPublicRoute(pathname)
    ensures Decide(production, pathname, false, encode) == Next
  {
  }

  /** A redirect always leads to a page that, for the same user, is let through: there is no redirect loop. */
  lemma NoRedirectLoop(pathname: string, hasToken: bool, encode: string -> string)
    ensures var r := Decide(true, pathname, hasToken, encode);
      r.Redirect? ==> Decide(true, r.location, hasToken, encode) == Next
  {
    PublicRoutes("/login");
    PublicRoutes("/");
  }

  /** The auth prefix is matched as a string prefix, not a path segment: "/api/authz" is public too. */
  lemma AuthPrefixIsTextual(encode: string -> string)
    ensures IsPublicRoute("/api/authz") && Decide(true, "/api/authz", false, encode) == Next
  {
    assert StartsWith("/api/authz", "/api/auth");
    assert PUBLIC_ROUTES[0] == "/login";
  }
}
