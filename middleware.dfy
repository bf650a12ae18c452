/** The middleware chain run for every API request: CORS first, an early
    return for a preflight request, the rate limiter, an early return when the
    limiter resolves a response, and last a loop copying the security headers
    into the CORS response.

    The adapter resolves a response on both of its branches, so the second
    early return always fires and the security headers never reach a response.
    `Finish` states what the tail of the chain does for ANY limiter result;
    `Middleware` shows which result it actually gets. */
module Middleware {
  import opened Wrappers
  import opened Http
  import opened Cors
  import opened SecurityHeaders
  import opened RateLimiter

  /** `source.forEach((value, key) => target.set(key, value))`: each header of
      `source` is set on `target`, replacing a header of the same name; the
      other headers of `target` stay as they were. */
  method CopyHeaders(source: Headers, target: Headers)
    requires source != target
    modifies target
    ensures target.entries == old(target.entries) + source.entries
  {
    ghost var before := target.entries;
    var pending := source.entries.Keys;
    ghost var done: set<string> := {};
    while pending != {}
      invariant pending !! done && pending + done == source.entries.Keys
      invariant target.entries.Keys == before.Keys + done
      invariant forall k | k in done :: target.entries[k] == source.entries[k]
      invariant forall k | k in before && k !in done :: target.entries[k] == before[k]
      decreases pending
    {
      var key :| key in pending;
      target.Set(key, source.entries[key]);
      pending := pending - {key};
      done := done + {key};
    }
    OverlayByKeys(before, source.entries, target.entries);
  }

  /** A map with the keys of `before` and `overlay` that agrees with `overlay`
      on its keys and with `before` elsewhere is `before + overlay`. */
  lemma OverlayByKeys(before: map<string, string>, overlay: map<string, string>, result: map<string, string>)
    requires result.Keys == before.Keys + overlay.Keys
    requires forall k | k in overlay :: result[k] == overlay[k]
    requires forall k | k in before && k !in overlay :: result[k] == before[k]
    ensures result == before + overlay
  {
  }

  /** The tail of the chain as written, after the limiter has run: return the
      limiter's result if it is a `NextResponse`; otherwise copy the security
      headers into the CORS response and return that. `copied` records
      whether the copy ran. */
  method Finish(corsResponse: Response, limited: LimiterResult) returns (res: Response, ghost copied: bool)
    modifies corsResponse.headers
    ensures copied <==> limited.NotAResponse?
    ensures limited.NextResponse? ==> res == limited.response && unchanged(corsResponse.headers)
    ensures limited.NotAResponse? ==>
      && res == corsResponse
      && res.headers.entries == old(corsResponse.headers.entries) + SecurityHeaderMap()
  {
    if limited.NextResponse? {
      return limited.response, false;
    }
    var securityHeaders := SecurityMiddleware();
    CopyHeaders(securityHeaders, corsResponse.headers);
    return corsResponse, true;
  }

  /** `middleware(req)`, with the rate limiter's verdict on this request as a
      parameter. */
  method Middleware(req: Request, outcome: LimiterOutcome) returns (res: Response, ghost securityApplied: bool)
    ensures !securityApplied
    ensures req.httpMethod == PreflightMethod ==>
      && fresh(res) && !res.next && res.status == 204 && res.body == None
      && res.headers.entries == CorsHeaders(RequestOrigin(req))
    ensures req.httpMethod != PreflightMethod && outcome.Limited? ==>
      && fresh(res) && !res.next && res.status == 429
      && res.body == Some(outcome.message)
      && res.headers.entries == map[]
    ensures req.httpMethod != PreflightMethod && outcome.NotLimited? ==>
      && fresh(res) && res.next && res.status == 200 && res.body == None
      && res.headers.entries == CorsHeaders(RequestOrigin(req))
  {
    var corsResponse := CorsMiddleware(req);

    if req.httpMethod == PreflightMethod {
      return corsResponse, false;
    }

    var rateLimitResponse := Limit(outcome, corsResponse);
    res, securityApplied := Finish(corsResponse, rateLimitResponse);
  }

  /** The CORS headers and the security headers have no name in common, so a
      response carrying exactly the CORS headers carries none of the security
      headers. */
  lemma CorsAndSecurityHeadersDisjoint(origin: string)
    ensures CorsHeaders(origin).Keys !! SecurityHeaderMap().Keys
  {
    assert forall name | name in AccessControlNames :: name[0] == 'A';
    assert forall name | name in SecurityHeaderNames :: name[0] != 'A';
  }

  /** What the unreachable copy loop would produce: every security header with
      its fixed value, and every CORS header left as it was. */
  lemma SecuredCorsHeaders(origin: string)
    ensures var secured := CorsHeaders(origin) + SecurityHeaderMap();
      && secured.Keys == CorsHeaders(origin).Keys + SecurityHeaderNames
      && (forall name | name in SecurityHeaderNames :: secured[name] == SecurityHeaderMap()[name])
      && (forall name | name in CorsHeaders(origin) :: secured[name] == CorsHeaders(origin)[name])
  {
    CorsAndSecurityHeadersDisjoint(origin);
  }

  /** A GET from a listed origin that the limiter lets through leaves the
      chain without a `Content-Security-Policy` header, nor any other of the
      five security headers. */
  method SecurityHeadersNeverSent() returns (res: Response)
    ensures res.next && res.status == 200
    ensures res.headers.entries.Keys !! SecurityHeaderNames
  {
    ghost var applied;
    res, applied := Middleware(Request("GET", Some(LocalOrigin)), NotLimited);
    CorsAndSecurityHeadersDisjoint(LocalOrigin);
  }

  /** The tail of the chain with the check the comments describe: return the
      limiter's response only when it is a response other than the CORS one,
      that is, when the limiter refused the request; otherwise apply the
      security headers. */
  method FinishIntended(corsResponse: Response, limited: LimiterResult) returns (res: Response)
    modifies corsResponse.headers
    ensures limited.NextResponse? && limited.response != corsResponse ==>
      res == limited.response && unchanged(corsResponse.headers)
    ensures limited.NotAResponse? || limited.response == corsResponse ==>
      && res == corsResponse
      && res.headers.entries == old(corsResponse.headers.entries) + SecurityHeaderMap()
  {
    if limited.NextResponse? && limited.response != corsResponse {
      return limited.response;
    }
    var securityHeaders := SecurityMiddleware();
    CopyHeaders(securityHeaders, corsResponse.headers);
    return corsResponse;
  }

  /** The chain with `FinishIntended` in place of `Finish`: a request that is
      neither a preflight nor refused carries the CORS headers and all five
      security headers. */
  method MiddlewareIntended(req: Request, outcome: LimiterOutcome) returns (res: Response)
    ensures req.httpMethod == PreflightMethod ==>
      && fresh(res) && !res.next && res.status == 204 && res.body == None
      && res.headers.entries == CorsHeaders(RequestOrigin(req))
    ensures req.httpMethod != PreflightMethod && outcome.Limited? ==>
      && fresh(res) && !res.next && res.status == 429
      && res.body == Some(outcome.message)
      && res.headers.entries == map[]
    ensures req.httpMethod != PreflightMethod && outcome.NotLimited? ==>
      && fresh(res) && res.next && res.status == 200 && res.body == None
      && res.headers.entries == CorsHeaders(RequestOrigin(req)) + SecurityHeaderMap()
  {
    var corsResponse := CorsMiddleware(req);

    if req.httpMethod == PreflightMethod {
      return corsResponse;
    }

    var rateLimitResponse := Limit(outcome, corsResponse);
    res := FinishIntended(corsResponse, rateLimitResponse);
  }

  /** With the corrected check, a GET from a listed origin that the limiter
      lets through carries every security header with its fixed value. */
  method SecurityHeadersSentWhenIntended() returns (res: Response)
    ensures res.next && res.status == 200
    ensures forall name | name in SecurityHeaderNames ::
      name in res.headers.entries && res.headers.entries[name] == SecurityHeaderMap()[name]
  {
    res := MiddlewareIntended(Request("GET", Some(LocalOrigin)), NotLimited);
  }
}
