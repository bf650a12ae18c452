/** The server side of the CORS protocol (section 3.2 of the WHATWG Fetch
    Standard) as the backend applies it: an exact-match allow-list of two
    origins, four `Access-Control-*` headers for a listed origin, and a 204
    answer to every preflight request. */
module Cors {
  import opened Wrappers
  import opened Http

  const LocalOrigin := "http://localhost:3000"
  const ProductionOrigin := "https://your-production-domain.com"
  const AllowedOrigins: seq<string> := [LocalOrigin, ProductionOrigin]

  const AllowOriginHeader := "Access-Control-Allow-Origin"
  const AllowMethodsHeader := "Access-Control-Allow-Methods"
  const AllowHeadersHeader := "Access-Control-Allow-Headers"
  const AllowCredentialsHeader := "Access-Control-Allow-Credentials"

  const AllowedMethods := "GET, POST, PUT, DELETE, OPTIONS"
  const AllowedRequestHeaders := "Content-Type, Authorization"

  /** The four header names a listed origin receives. */
  const AccessControlNames: set<string> :=
    {AllowOriginHeader, AllowMethodsHeader, AllowHeadersHeader, AllowCredentialsHeader}

  /** `req.headers.get('origin') || ''`: a missing header reads as the empty string. */
  function RequestOrigin(req: Request): string
  {
    match req.origin
    case None => ""
    case Some(o) => o
  }

  /** `allowedOrigins.includes(origin)`: exact, case-sensitive membership. */
  predicate IsAllowedOrigin(origin: string)
    ensures IsAllowedOrigin(origin) <==> origin == LocalOrigin || origin == ProductionOrigin
  {
    origin in AllowedOrigins
  }

  /** The headers `corsMiddleware` sets on its response for a request from `origin`. */
  function CorsHeaders(origin: string): (h: map<string, string>)
    ensures AllowOriginHeader in h <==> origin == LocalOrigin || origin == ProductionOrigin
    ensures h.Keys == if IsAllowedOrigin(origin) then AccessControlNames else {}
    ensures AllowOriginHeader in h ==> h[AllowOriginHeader] == origin
    ensures AllowMethodsHeader in h ==> h[AllowMethodsHeader] == AllowedMethods
    ensures AllowHeadersHeader in h ==> h[AllowHeadersHeader] == AllowedRequestHeaders
    ensures AllowCredentialsHeader in h ==> h[AllowCredentialsHeader] == "true"
  {
    if IsAllowedOrigin(origin) then
      map[AllowOriginHeader := origin,
          AllowMethodsHeader := AllowedMethods,
          AllowHeadersHeader := AllowedRequestHeaders,
          AllowCredentialsHeader := "true"]
    else
      map[]
  }

  /** `corsMiddleware(req)`: sets the CORS headers one by one on a fresh
      pass-through response; a preflight request gets instead a new 204
      response with no body carrying a copy of those headers. */
  method CorsMiddleware(req: Request) returns (res: Response)
    ensures fresh(res) && fresh(res.headers)
    ensures res.headers.entries == CorsHeaders(RequestOrigin(req))
    ensures res.body == None
    ensures req.httpMethod == PreflightMethod ==> !res.next && res.status == 204
    ensures req.httpMethod != PreflightMethod ==> res.next && res.status == 200
  {
    var origin := RequestOrigin(req);
    var isAllowedOrigin := IsAllowedOrigin(origin);

    var response := new Response.Next();

    if isAllowedOrigin {
      response.headers.Set(AllowOriginHeader, origin);
      response.headers.Set(AllowMethodsHeader, AllowedMethods);
      response.headers.Set(AllowHeadersHeader, AllowedRequestHeaders);
      response.headers.Set(AllowCredentialsHeader, "true");
    }

    if req.httpMethod == PreflightMethod {
      res := new Response.Create(None, 204, response.headers.entries);
      return;
    }

    res := response;
  }

  /** A request without an `Origin` header is treated as coming from `""`,
      which is not listed, so it receives no CORS header at all. */
  lemma MissingOriginGetsNoCorsHeaders(req: Request)
    requires req.origin.None?
    ensures CorsHeaders(RequestOrigin(req)) == map[]
  {
  }

  /** Matching is exact string equality: a trailing slash or a change of case
      is a different, unlisted origin. */
  lemma MatchingIsExact()
    ensures CorsHeaders("http://localhost:3000/") == map[]
    ensures CorsHeaders("HTTP://localhost:3000") == map[]
    ensures CorsHeaders("https://Your-Production-Domain.com") == map[]
    ensures CorsHeaders(LocalOrigin)[AllowOriginHeader] == LocalOrigin
  {
  }
}
