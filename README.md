# mintly backend: request middleware and credential routes

A Dafny model of the request-handling logic of the mintly backend, a
Next.js API. The model has two halves.

- **The middleware chain.** It runs for every API request. CORS comes first,
  with an exact allow-list of two origins (section 3.2 of the WHATWG Fetch
  Standard). A preflight `OPTIONS` request returns there with a 204. Then
  comes the `express-rate-limit` adapter. Last comes a loop that copies five
  fixed security headers into the response.
- **The two credential routes.** `POST /api/auth/register` validates the
  body, refuses a known email with 409, and inserts a row holding the bcrypt
  hash of the password. `POST /api/auth/login` validates the body, answers
  401 for an unknown email and for a wrong password alike, and on success
  sets an `authToken` cookie holding a 30-day JWT.

Headers and responses are objects that the code updates in place. They are
modelled as the classes `Http.Headers` and `Http.Response`. The user table is
a class, `AuthService.UserTable`, whose `map` field is updated by the register
route and only read by the login route. Each route is also a pure function
(`RegisterRoute.Post`, `LoginRoute.Post`). The class methods are proved equal
to these functions, and the properties are proved about the functions.

The foreign libraries are the fields of `Auth.Libraries`. Each one is an
uninterpreted function, and a result of `None` means the call throws. They
are `request.json()`, zod's `.email()`, `bcrypt.hash`, `bcrypt.compare` and
`jwt.sign`. Whether the database throws is an input (`Auth.StoreFaults`). So
is the id it gives a new row. The rate limiter's verdict is an input
(`RateLimiter.LimiterOutcome`). So are `NODE_ENV` and `JWT_SECRET`
(`LoginRoute.Env`).

Behaviours of the code worth noting, all of which the model keeps:
- The `Access-Control-Allow-Methods` value has spaces after the commas.
- A uniqueness violation raised by `create` is answered with 500, not 409.
- Emails are used as given, with no case normalisation.
- The security headers are never sent (see Findings).

## Model

| member | source | states |
|---|---|---|
| Cors.IsAllowedOrigin | apps/backend/middleware/cors.ts:4-11 | an origin is allowed iff it equals `http://localhost:3000` or `https://your-production-domain.com` exactly |
| Cors.CorsHeaders | apps/backend/middleware/cors.ts:16-21 | `Access-Control-Allow-Origin` is present iff the origin is listed, and then echoes it; a listed origin gets exactly the four `Access-Control-*` names, with methods `GET, POST, PUT, DELETE, OPTIONS`, headers `Content-Type, Authorization` and credentials `true`; an unlisted origin gets none |
| Cors.CorsMiddleware | apps/backend/middleware/cors.ts:9-32 | the response is new and carries exactly the CORS headers of the request's origin; `OPTIONS` gets a terminal 204 with no body, whose headers are a copy; any other method gets the pass-through response |
| Cors.MissingOriginGetsNoCorsHeaders | apps/backend/middleware/cors.ts:10-11 | a request without an `Origin` header is read as `""` and gets no CORS header |
| Cors.MatchingIsExact | apps/backend/middleware/cors.ts:11 | a trailing slash or a change of case makes an origin unlisted |
| SecurityHeaders.SecurityHeaderMap | apps/backend/middleware/securityHeaders.ts:4-12 | exactly five header names; the exact CSP, `no-referrer`, `DENY`, `nosniff` and `1; mode=block` values |
| SecurityHeaders.SecurityMiddleware | apps/backend/middleware/securityHeaders.ts:3-13 | each call returns a new `Headers` object holding that same five-entry map |
| RateLimiter.Limit | apps/backend/middleware/rateLimiter.ts:12-24 | the adapter always resolves a `NextResponse`, never `NotAResponse`; an `Error` gives a new 429 response whose body is the error's message; anything else gives back the very response object it was handed |
| Middleware.CopyHeaders | apps/backend/middleware/index.ts:21-23 | the `forEach` copy sets every source header on the target, replacing same-named ones, and leaves the target's other headers alone |
| Middleware.Finish | apps/backend/middleware/index.ts:17-25 | for any limiter result: a `NextResponse` is returned as is and the CORS headers are not touched; only `NotAResponse` reaches the copy loop, which adds the security headers to the CORS response and returns it |
| Middleware.Middleware | apps/backend/middleware/index.ts:6-26 | `OPTIONS` returns the CORS 204 before the limiter runs; a refused request gets the new 429 without any CORS header; any other request gets the CORS pass-through response unchanged; the copy loop never runs |
| Middleware.CorsAndSecurityHeadersDisjoint | apps/backend/middleware/index.ts:17-25 | no CORS header name is a security header name, so a response with exactly the CORS headers has no security header |
| Middleware.SecuredCorsHeaders | apps/backend/middleware/index.ts:20-25 | if the loop ran, each security header would have its fixed value and each CORS header would keep its value |
| Middleware.SecurityHeadersNeverSent | apps/backend/middleware/index.ts:16-17 | a `GET` from a listed origin that the limiter lets through leaves with a 200 and none of the five security headers |
| Middleware.FinishIntended | apps/backend/middleware/index.ts:15-25 | corrected tail: only a response other than the CORS response is returned early; otherwise the security headers are added |
| Middleware.MiddlewareIntended | apps/backend/middleware/index.ts:6-26 | corrected chain: a request that is neither a preflight nor refused carries the CORS headers plus the five security headers |
| Middleware.SecurityHeadersSentWhenIntended | apps/backend/middleware/index.ts:19-23 | with the corrected check, the same `GET` carries every security header with its fixed value |
| Auth.ParseCredentials | apps/backend/src/app/api/auth/register/route.ts:6-9 | the schema accepts exactly an object whose `email` is a string passing the email check and whose `password` is a string of at least 8 characters, and returns those two strings |
| Auth.ShortPasswordRejected | apps/backend/src/app/api/auth/login/route.ts:14 | a password shorter than 8 characters is refused whatever the email |
| RegisterRoute.Post | apps/backend/src/app/api/auth/register/route.ts:11-51 | the body is one of four fixed messages, so the password and hash are never echoed; a 201 requires a fresh, valid email and a successful hash, and the table then gains exactly one row for that email holding the hash at cost 12, with nothing else changed; any other answer leaves the table unchanged |
| RegisterRoute.PostStatus | apps/backend/src/app/api/auth/register/route.ts:13-50 | 400 iff the schema refuses the JSON; 409 iff the email is already a key; 201 iff lookup, hash and insert all succeed for a fresh email; everything else, a JSON parse failure and an insert failure included, is 500 |
| RegisterRoute.PostKeepsRows | apps/backend/src/app/api/auth/register/route.ts:32-37 | every existing row survives a call unchanged, and the table stays keyed by email |
| RegisterRoute.RegisterAll | apps/backend/src/app/api/auth/register/route.ts:22-37 | over any sequence of calls, existing rows are never changed and the table grows by exactly one row per 201 |
| RegisterRoute.CreatedOnlyWhenFresh | apps/backend/src/app/api/auth/register/route.ts:22-28 | a 201 in a sequence is only given for an email absent from the starting table |
| RegisterRoute.CreatedEmailsDiffer | apps/backend/src/app/api/auth/register/route.ts:22-37 | two calls of a sequence that both get 201 submitted different emails |
| RegisterRoute.AtMostOneCreatedPerEmail | apps/backend/src/app/api/auth/register/route.ts:22-37 | in any sequence of calls, no two 201 responses are for the same email |
| RegisterRoute.RegisterTwice | apps/backend/src/app/api/auth/register/route.ts:22-28 | after a 201 for an email, a second call for that email gets 409 and changes nothing |
| RegisterRoute.ValidationIgnoresTable | apps/backend/src/app/api/auth/register/route.ts:14-18 | a body the schema refuses gets 400 whatever the table holds, and the table is unchanged |
| RegisterRoute.EmailsAreCaseSensitive | apps/backend/src/app/api/auth/register/route.ts:20-28 | an email that differs from a stored key only in case is not a duplicate |
| LoginRoute.AuthCookie | apps/backend/src/app/api/auth/login/route.ts:45-51 | the cookie is `authToken` holding the token, HttpOnly, SameSite=Strict, path `/`, Max-Age 2592000; it is Secure iff `NODE_ENV` is `production` |
| LoginRoute.Post | apps/backend/src/app/api/auth/login/route.ts:17-64 | 400 `Invalid email or password` iff the schema refuses the JSON; 401 `Invalid credentials` iff the email is unknown or bcrypt says the password is wrong; 200 iff the password matches and signing succeeds, and then the message is `Login successful` and the cookie carries the token signed over exactly the user's id and email with expiry `30d`; a cookie is set iff the status is 200; all else is 500 |
| LoginRoute.UnknownEmailLooksLikeWrongPassword | apps/backend/src/app/api/auth/login/route.ts:32-39 | an unknown email and a known email with a wrong password get identical responses |
| LoginRoute.OnlyTheSubmittedRowMatters | apps/backend/src/app/api/auth/login/route.ts:28-30 | the answer depends on the table only through the row of the submitted email |
| AuthService.UserTable.Register | apps/backend/src/app/api/auth/register/route.ts:11-51 | the step-by-step handler with early returns answers and updates the table exactly as `RegisterRoute.Post` says, and keeps the table keyed by email |
| AuthService.UserTable.Login | apps/backend/src/app/api/auth/login/route.ts:17-64 | the step-by-step handler answers exactly as `LoginRoute.Post` says, and it has no write access to the table; on a table keyed by email, a 200's cookie holds the token signed over the submitted email and its row's id |
| AuthService.RegisterThenLogin | apps/backend/src/app/api/auth/login/route.ts:28-56 | if bcrypt verifies its own hashes and nothing throws, then logging in with the same body after a 201 gives 200 and a cookie holding the token signed over the new id and email |

## Findings

| source | as written | input that shows it | evidently intended | confidence | as-written member | corrected member |
|---|---|---|---|---|---|---|
| apps/backend/middleware/index.ts:17 | `rateLimitResponse instanceof NextResponse` holds on both branches of the adapter, because it resolves either a new 429 or the CORS response itself; so the chain always returns at line 17 and lines 20-23 never run | `GET` with `Origin: http://localhost:3000` that the limiter lets through: the response has no `Content-Security-Policy` and none of the other four security headers | "Apply security headers" to every response that the limiter does not refuse | not executed; follows from the adapter's code | Middleware.SecurityHeadersNeverSent | Middleware.SecurityHeadersSentWhenIntended |

`Middleware.Middleware` stays the model of the code as written. Its
`securityApplied` result is false on every path.

## Left out

- The web frontend (pages, layout, UI package, build configuration) is not part of this model.
- The internals of bcrypt, `jsonwebtoken`, zod's email check and `request.json()` are left out. Each is an uninterpreted function.
- The cookie string that `cookie.serialize` produces is left out. The cookie is a record of its attributes, and serialisation is taken never to throw.
- The JWT's `iat` and `exp` claims come from the clock inside `jwt.sign`. The model passes `expiresIn: '30d'` to the signer and goes no further.
- `express-rate-limit`'s per-IP counting, its window clock, its IP extraction and the `RateLimit-*` headers it sets are left out. They are hidden library state shared between requests. Its verdict on a request is an input, and the window, maximum and message are constants only.
- RateLimiter.Limit: the library is taken to call the adapter's callback exactly once, so a request never hangs.
- RateLimiter.Limit: the new 429 response is given no headers. The `Content-Type: text/plain` that a string body adds is left out.
- Header names are kept as written. The Fetch `Headers` object compares them case-insensitively and lower-cases them. No two names used here differ only in case, so nothing depends on this.
- `NextResponse.next()`'s internal headers, JSON `Content-Type` headers and the `matcher: '/api/:path*'` routing are left out.
- Prisma I/O, async/await and the race between two concurrent registrations of one email are left out. The model is sequential, and the database's uniqueness constraint is not modelled beyond `create` being allowed to throw.
- The id of a new row is an input. Its type and its uniqueness belong to the database schema, which is not part of this model.
- `Auth.Libraries.hash` is a pure function of the password and the cost. bcrypt's random salt is left out, so two registrations with the same password store the same hash here.
- zod's `min(8)` counts UTF-16 code units. The model counts the characters of a Dafny string. JSON numbers are `real`s.
- `console` logging in development mode is left out. It has no effect on responses.
- The timing difference between the not-found and wrong-password paths is left out. Only responses are modelled, not time.
