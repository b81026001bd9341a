/**
 * The request gate in front of the account area (middleware.ts): requests
 * under a protected route prefix need an `auth-token` cookie that the token
 * verifier accepts; every failure redirects to the sign-up page.
 *
 * The verifier lives in a library that is not part of this model, so it is a
 * parameter: an arbitrary total predicate standing for the truthiness of
 * `verifyToken(token)`.
 */
module Middleware {
  import opened Wrappers
  import opened JsText

  /** The routes whose every extension (by raw string prefix) is protected. */
  const ProtectedRoutes: seq<string> := ["/account"]
  /** Where an unauthenticated request is sent. */
  const SignupPath: string := "/signup"
  const AuthCookie: string := "auth-token"

  /** The part of an incoming request the gate reads. */
  datatype Request = Request(pathname: string, cookies: map<string, string>)

  /** `NextResponse.next()` or `NextResponse.redirect(new URL(location, request.url))`. */
  datatype Decision = Next | Redirect(location: string)

  /** `routes.some(route => path.startsWith(route))`. */
  function AnyRouteIsPrefix(routes: seq<string>, path: string): (r: bool)
    ensures r <==> exists i :: 0 <= i < |routes| && StartsWith(path, routes[i])
  {
    if routes == [] then false
    else if StartsWith(path, routes[0]) then true
    else
      var rest := AnyRouteIsPrefix(routes[1..], path);
      assert forall i :: 1 <= i < |routes| ==> routes[i] == routes[1..][i - 1];
      rest
  }

  predicate IsProtectedRoute(path: string)
  {
    AnyRouteIsPrefix(ProtectedRoutes, path)
  }

  /** `request.cookies.get("auth-token")?.value`. */
  function AuthToken(request: Request): (token: Option<string>)
    ensures token.Some? <==> AuthCookie in request.cookies
    ensures token.Some? ==> token.value == request.cookies[AuthCookie]
  {
    if AuthCookie in request.cookies then Some(request.cookies[AuthCookie]) else None
  }

  /** JavaScript truthiness of an optional string: present and not empty. */
  predicate Truthy(token: Option<string>)
  {
    token.Some? && token.value != ""
  }

  /** Whether the gate calls the verifier at all for this request. */
  predicate ConsultsVerifier(request: Request)
  {
    IsProtectedRoute(request.pathname) && Truthy(AuthToken(request))
  }

  /**
   * The gate. Its only outcomes are "continue" and the sign-up redirect;
   * a request continues exactly when its path is unprotected, or it carries a
   * non-empty token that the verifier accepts.
   */
  function Gate(request: Request, verifyToken: string -> bool): (d: Decision)
    ensures d == Next || d == Redirect(SignupPath)
    ensures d == Next <==>
      (!IsProtectedRoute(request.pathname)
       || (Truthy(AuthToken(request)) && verifyToken(AuthToken(request).value)))
  {
    var token := AuthToken(request);
    if IsProtectedRoute(request.pathname) then
      if !Truthy(token) then Redirect(SignupPath)
      else if !verifyToken(token.value) then Redirect(SignupPath)
      else Next
    else Next
  }

  /** A path no protected route is a prefix of always continues, whatever the cookies and the verifier. */
  lemma UnprotectedAlwaysContinues(request: Request, verifyToken: string -> bool)
    requires forall i :: 0 <= i < |ProtectedRoutes| ==> !StartsWith(request.pathname, ProtectedRoutes[i])
    ensures Gate(request, verifyToken) == Next
  {
  }

  /** On a protected path, a missing or empty cookie redirects to sign-up. */
  lemma MissingTokenRedirects(request: Request, verifyToken: string -> bool)
    requires IsProtectedRoute(request.pathname)
    requires AuthCookie !in request.cookies || request.cookies[AuthCookie] == ""
    ensures Gate(request, verifyToken) == Redirect(SignupPath)
  {
  }

  /** On a protected path, a non-empty token the verifier rejects redirects to sign-up. */
  lemma RejectedTokenRedirects(request: Request, verifyToken: string -> bool)
    requires IsProtectedRoute(request.pathname)
    requires AuthCookie in request.cookies && request.cookies[AuthCookie] != ""
    requires !verifyToken(request.cookies[AuthCookie])
    ensures Gate(request, verifyToken) == Redirect(SignupPath)
  {
  }

  /** A non-empty token the verifier accepts continues, on a protected path or anywhere else. */
  lemma AcceptedTokenContinues(request: Request, verifyToken: string -> bool)
    requires AuthCookie in request.cookies && request.cookies[AuthCookie] != ""
    requires verifyToken(request.cookies[AuthCookie])
    ensures Gate(request, verifyToken) == Next
  {
  }

  /**
   * The caller cannot tell a missing token from a rejected one: on the same
   * path, both give the very same response.
   */
  lemma MissingAndRejectedIndistinguishable(
    missing: Request, rejected: Request, v1: string -> bool, v2: string -> bool)
    requires missing.pathname == rejected.pathname && IsProtectedRoute(missing.pathname)
    requires !Truthy(AuthToken(missing))
    requires Truthy(AuthToken(rejected)) && !v2(AuthToken(rejected).value)
    ensures Gate(missing, v1) == Gate(rejected, v2)
  {
  }

  /**
   * The verifier is consulted only on a protected path with a non-empty
   * token: anywhere else, no two verifiers can lead to different decisions.
   * Where it is consulted, its verdict alone decides.
   */
  lemma VerifierConsultedOnlyWhenNeeded(request: Request, v1: string -> bool, v2: string -> bool)
    ensures !ConsultsVerifier(request) ==> Gate(request, v1) == Gate(request, v2)
    ensures ConsultsVerifier(request) ==>
      (Gate(request, v1) == Next <==> v1(AuthToken(request).value))
  {
  }

  /** The raw prefix test protects `/account` and everything under it, but also `/accounting`. */
  lemma ProtectionIsRawPrefix()
    ensures IsProtectedRoute("/account")
    ensures IsProtectedRoute("/account/security")
    ensures IsProtectedRoute("/accounting")
    ensures !IsProtectedRoute("/")
    ensures !IsProtectedRoute("/acc")
  {
    assert StartsWith("/account", ProtectedRoutes[0]);
    assert StartsWith("/account/security", ProtectedRoutes[0]);
    assert StartsWith("/accounting", ProtectedRoutes[0]);
  }

  /**
   * The framework's matcher `/account/:path*`: the middleware runs only for
   * `/account` itself and paths below it.
   */
  predicate MatcherAdmits(path: string)
  {
    path == "/account" || StartsWith(path, "/account/")
  }

  /** What a request actually meets: the gate where the matcher admits the path, and nothing elsewhere. */
  function Handle(request: Request, verifyToken: string -> bool): (d: Decision)
    ensures !MatcherAdmits(request.pathname) ==> d == Next
    ensures MatcherAdmits(request.pathname) ==>
      (d == Next <==> Truthy(AuthToken(request)) && verifyToken(AuthToken(request).value))
  {
    MatchedPathsAreProtected(request.pathname);
    if MatcherAdmits(request.pathname) then Gate(request, verifyToken) else Next
  }

  /** Every path the matcher admits is protected, so the gate never waves one of them through unchecked. */
  lemma MatchedPathsAreProtected(path: string)
    ensures MatcherAdmits(path) ==> IsProtectedRoute(path)
  {
    if MatcherAdmits(path) {
      assert path[..|"/account"|] == "/account" by {
        if path != "/account" {
          assert path[..9][..8] == path[..8];
        }
      }
      assert StartsWith(path, ProtectedRoutes[0]);
    }
  }

  /**
   * `/accounting` is protected by the gate's own test, yet the matcher keeps
   * the gate from running there: such a request continues with no token.
   */
  lemma AccountingPassesThroughMatcher(verifyToken: string -> bool)
    ensures Gate(Request("/accounting", map[]), verifyToken) == Redirect(SignupPath)
    ensures Handle(Request("/accounting", map[]), verifyToken) == Next
  {
    ProtectionIsRawPrefix();
    assert !StartsWith("/accounting", "/account/") by {
      DifferAt("/accounting", "/account/", 8);
    }
  }
}
