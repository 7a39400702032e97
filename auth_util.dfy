/**
 * Request authorisation (utils/auth.ts): which token a request carries, whether it
 * verifies, and the context it yields. Public tokens are confined to a fixed list of
 * routes and act as the tenant found by the Host header; every other verified token
 * acts as the tenant and user it names, with the scopes it carries. Token verification
 * is an oracle; the tenant look-up reads the tenants collection.
 */
module AuthUtil {
  import opened Wrappers
  import opened Enums
  import opened Common
  import opened Schema
  import opened Text
  import opened Rbac
  import opened Jwt
  import opened TenantRepo

  /** The parts of an incoming request the authoriser reads. */
  datatype Request = Request(
    httpMethod: string, url: string, authorization: Option<string>, accessTokenCookie: Option<string>, host: Option<string>)

  /** `AuthorisationPayload`: failure, or success with the request's context. */
  datatype Authorisation = Denied | Authorised(context: Context)

  const Bearer: string := "Bearer "

  /**
   * The token the request presents: the `accessToken` cookie when it is non-empty, else
   * the Authorization header with its "Bearer " prefix removed, else none.
   */
  function SelectToken(cookie: Option<string>, header: Option<string>): (r: Option<string>)
    ensures Present(cookie) ==> r == cookie
    ensures !Present(cookie) ==> (r.Some? <==> header.Some? && StartsWith(header.value, Bearer))
    ensures !Present(cookie) && r.Some? ==> header.value == Bearer + r.value
  {
    if Present(cookie) then cookie
    else if header.Some? && StartsWith(header.value, Bearer) then Some(header.value[|Bearer|..])
    else None
  }

  /** The two regular-expression shapes of the public routes: `^prefix` and `^path$`. */
  datatype PathPattern = Prefix(prefix: string) | Exact(path: string)

  predicate PatternMatches(pattern: PathPattern, url: string)
  {
    match pattern
    case Prefix(p) => StartsWith(url, p)
    case Exact(p) => url == p
  }

  datatype PublicRoute = PublicRoute(httpMethod: string, path: PathPattern)

  /** `publicMethods`: the routes a public token may call. */
  const PublicMethods: seq<PublicRoute> := [
    PublicRoute("GET", Prefix("/public/")),
    PublicRoute("POST", Prefix("/public/")),
    PublicRoute("POST", Exact("/auth/sso")),
    PublicRoute("POST", Exact("/tenant/create"))
  ]

  /** `routes.some(...)`: some route has the request's method and matches its URL. */
  predicate SomeRoute(routes: seq<PublicRoute>, httpMethod: string, url: string)
  {
    |routes| > 0 &&
    ((routes[0].httpMethod == httpMethod && PatternMatches(routes[0].path, url)) || SomeRoute(routes[1..], httpMethod, url))
  }

  predicate IsPublicMethod(httpMethod: string, url: string)
  {
    SomeRoute(PublicMethods, httpMethod, url)
  }

  /** `some` holds exactly when one of the routes matches. */
  lemma {:induction false} SomeRouteIff(routes: seq<PublicRoute>, httpMethod: string, url: string)
    ensures SomeRoute(routes, httpMethod, url) <==>
      exists i :: 0 <= i < |routes| && routes[i].httpMethod == httpMethod && PatternMatches(routes[i].path, url)
  {
    if |routes| > 0 {
      SomeRouteIff(routes[1..], httpMethod, url);
      if exists i :: 0 <= i < |routes| && routes[i].httpMethod == httpMethod && PatternMatches(routes[i].path, url) {
        var i :| 0 <= i < |routes| && routes[i].httpMethod == httpMethod && PatternMatches(routes[i].path, url);
        if i > 0 {
          assert routes[1..][i - 1] == routes[i];
        }
      }
    }
  }

  /**
   * The public routes are exactly: GET or POST under "/public/", POST "/auth/sso" and
   * POST "/tenant/create" (the whole URL, query string included, must match).
   */
  lemma PublicRoutesExactly(httpMethod: string, url: string)
    ensures IsPublicMethod(httpMethod, url) <==>
      ((httpMethod == "GET" || httpMethod == "POST") && StartsWith(url, "/public/")) ||
      (httpMethod == "POST" && (url == "/auth/sso" || url == "/tenant/create"))
  {
    SomeRouteIff(PublicMethods, httpMethod, url);
    var r := PublicMethods;
    assert r[0].httpMethod == "GET" && r[0].path == Prefix("/public/");
    assert r[1].httpMethod == "POST" && r[1].path == Prefix("/public/");
    assert r[2].httpMethod == "POST" && r[2].path == Exact("/auth/sso");
    assert r[3].httpMethod == "POST" && r[3].path == Exact("/tenant/create");
  }

  /**
   * The identity of a public request: the id of the tenant whose domain is the Host
   * header, as both tenant and user, or the text "null" when there is no host or no
   * such tenant. A public context carries no scopes.
   */
  function PublicContext(requestId: string, host: Option<string>, tenants: seq<Tenant>): (c: Context)
    ensures c.requestId == requestId && c.tenantId == c.userId && c.scopes.None?
    ensures c.tenantId == "null" ||
      (Present(host) && exists i :: 0 <= i < |tenants| && tenants[i].id == c.tenantId && tenants[i].domain == host.value)
    ensures !Present(host) || (forall i :: 0 <= i < |tenants| ==> tenants[i].domain != host.value) ==> c.tenantId == "null"
  {
    var tenant := if Present(host) then FindTenant(tenants, ByDomain(host.value)) else None;
    var id := if tenant.Some? && tenant.value.id != "" then tenant.value.id else "null";
    Context(requestId, id, id, None)
  }

  /** `authorizeRequest`. */
  function AuthorizeRequest(req: Request, requestId: string, verify: string -> Option<VerifiedToken>, tenants: seq<Tenant>)
    : (r: Authorisation)
    ensures var token := SelectToken(req.accessTokenCookie, req.authorization);
      r.Authorised? ==> Present(token) && verify(token.value).Some? && r.context.requestId == requestId
    ensures var token := SelectToken(req.accessTokenCookie, req.authorization);
      r.Authorised? && verify(token.value).value.claims.accessType.Public? ==>
        IsPublicMethod(req.httpMethod, req.url) && r.context == PublicContext(requestId, req.host, tenants)
    ensures var token := SelectToken(req.accessTokenCookie, req.authorization);
      Present(token) && verify(token.value).Some? && !verify(token.value).value.claims.accessType.Public? ==>
        var claims := verify(token.value).value.claims;
        r == Authorised(Context(requestId, claims.tenantId, claims.userId, Some(OrElse(claims.scopes, []))))
  {
    var token := SelectToken(req.accessTokenCookie, req.authorization);
    if !Present(token) then Denied
    else
      match verify(token.value)
      case None => Denied
      case Some(payload) =>
        if payload.claims.accessType.Public? then
          if !IsPublicMethod(req.httpMethod, req.url) then Denied
          else Authorised(PublicContext(requestId, req.host, tenants))
        else
          Authorised(Context(requestId, payload.claims.tenantId, payload.claims.userId, Some(OrElse(payload.claims.scopes, []))))
  }

  /** A request without a usable token, or whose token does not verify, is refused. */
  lemma UnverifiedIsDenied(req: Request, requestId: string, verify: string -> Option<VerifiedToken>, tenants: seq<Tenant>)
    requires var token := SelectToken(req.accessTokenCookie, req.authorization);
      !Present(token) || verify(token.value).None?
    ensures AuthorizeRequest(req, requestId, verify, tenants) == Denied
  {
  }

  /** A verified public token is accepted exactly on the public routes. */
  lemma PublicTokenOnlyOnPublicRoutes(req: Request, requestId: string, verify: string -> Option<VerifiedToken>, tenants: seq<Tenant>)
    requires var token := SelectToken(req.accessTokenCookie, req.authorization);
      Present(token) && verify(token.value).Some? && verify(token.value).value.claims.accessType.Public?
    ensures AuthorizeRequest(req, requestId, verify, tenants).Authorised? <==>
      ((req.httpMethod == "GET" || req.httpMethod == "POST") && StartsWith(req.url, "/public/")) ||
      (req.httpMethod == "POST" && (req.url == "/auth/sso" || req.url == "/tenant/create"))
  {
    PublicRoutesExactly(req.httpMethod, req.url);
  }

  /**
   * A refresh token is accepted like an access token, but it carries no scopes, so the
   * context it yields passes no scope check.
   */
  lemma RefreshTokenGrantsNoScope(req: Request, requestId: string, verify: string -> Option<VerifiedToken>, tenants: seq<Tenant>,
                                  tenant: Tenant, user: User, s: Scope)
    requires var token := SelectToken(req.accessTokenCookie, req.authorization);
      Present(token) && verify(token.value).Some? && verify(token.value).value.claims == RefreshClaims(tenant, user)
    ensures AuthorizeRequest(req, requestId, verify, tenants).Authorised?
    ensures !IsPermitted(AuthorizeRequest(req, requestId, verify, tenants).context.scopes, s)
  {
  }
}
