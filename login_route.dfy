/** `POST /api/auth/login`: validate the body, look the email up, compare the
    password with the stored hash, and on success sign a 30-day token and set
    it as the `authToken` cookie. An unknown email and a wrong password get
    the same 401 answer. Any exception on the way is answered with 500. */
module LoginRoute {
  import opened Wrappers
  import opened Auth

  /** `expiresIn` passed to the signer: the token's `exp` claim (section 4.1.4
      of RFC 7519) lies 30 days after its issue. */
  const JwtExpiry := "30d"
  /** The cookie's lifetime in seconds: 30 days. */
  const CookieMaxAge: nat := 60 * 60 * 24 * 30
  const AuthCookieName := "authToken"
  const ProductionEnv := "production"

  const InvalidInput := ApiResponse(400, "Invalid email or password", None)
  const InvalidCredentials := ApiResponse(401, "Invalid credentials", None)
  const LoginSuccessful := "Login successful"

  /** The process environment the route reads: `NODE_ENV` and `JWT_SECRET`. */
  datatype Env = Env(nodeEnv: Option<string>, jwtSecret: Option<string>)

  /** One call of the route: the raw body, and whether the lookup throws. */
  datatype LoginCall = LoginCall(body: string, findFails: bool)

  /** The session cookie that carries `token`. */
  function AuthCookie(token: string, env: Env): (c: Cookie)
    ensures c.name == "authToken" && c.value == token
    ensures c.httpOnly && c.sameSite == Strict && c.path == "/"
    ensures c.maxAge == 2592000
    ensures c.secure <==> env.nodeEnv == Some("production")
  {
    Cookie(AuthCookieName, token, true, env.nodeEnv == Some(ProductionEnv), Strict, "/", CookieMaxAge)
  }

  /** The claims signed for `user`: its id and its email, nothing else. */
  function Claims(user: User): TokenClaims
  {
    TokenClaims(user.id, user.email)
  }

  /** The password matches the row stored for the submitted email. */
  predicate Authenticates(lib: Libraries, users: UserRows, c: Credentials)
  {
    c.email in users && lib.compare(c.password, users[c.email].passwordHash) == Some(true)
  }

  /** The route as a function of the table; it only reads the table. */
  function Post(lib: Libraries, env: Env, users: UserRows, call: LoginCall): (r: ApiResponse)
    ensures r.status in {200, 400, 401, 500}
    ensures r.setCookie.Some? <==> r.status == 200
    ensures r.status != 200 ==> r in {InvalidInput, InvalidCredentials, InternalError}
    ensures r == InvalidInput <==> RejectedBySchema(lib, call.body)
    ensures r == InvalidCredentials <==>
      var c := Submitted(lib, call.body);
      && c.Some? && !call.findFails
      && (c.value.email !in users || lib.compare(c.value.password, users[c.value.email].passwordHash) == Some(false))
    ensures r.status == 200 <==>
      var c := Submitted(lib, call.body);
      && c.Some? && !call.findFails && Authenticates(lib, users, c.value)
      && lib.sign(Claims(users[c.value.email]), env.jwtSecret, JwtExpiry).Some?
    ensures r.status == 200 ==>
      var c := Submitted(lib, call.body);
      && c.Some? && !call.findFails && Authenticates(lib, users, c.value)
      && lib.sign(Claims(users[c.value.email]), env.jwtSecret, JwtExpiry).Some?
      && r.message == LoginSuccessful
      && r.setCookie == Some(AuthCookie(lib.sign(Claims(users[c.value.email]), env.jwtSecret, JwtExpiry).value, env))
  {
    match lib.json(call.body)
    case None => InternalError
    case Some(body) =>
      match ParseCredentials(lib.isEmail, body)
      case None => InvalidInput
      case Some(c) =>
        if call.findFails then InternalError
        else if c.email !in users then InvalidCredentials
        else
          var user := users[c.email];
          match lib.compare(c.password, user.passwordHash)
          case None => InternalError
          case Some(valid) =>
            if !valid then InvalidCredentials
            else
              match lib.sign(Claims(user), env.jwtSecret, JwtExpiry)
              case None => InternalError
              case Some(token) => ApiResponse(200, LoginSuccessful, Some(AuthCookie(token, env)))
  }

  /** No user enumeration: an unknown email and a known email with the wrong
      password get the same status and the same message. */
  lemma UnknownEmailLooksLikeWrongPassword(lib: Libraries, env: Env, users: UserRows, unknown: LoginCall, wrong: LoginCall)
    requires Submitted(lib, unknown.body).Some? && !unknown.findFails
    requires Submitted(lib, unknown.body).value.email !in users
    requires Submitted(lib, wrong.body).Some? && !wrong.findFails
    requires Submitted(lib, wrong.body).value.email in users
    requires !Authenticates(lib, users, Submitted(lib, wrong.body).value)
    requires lib.compare(Submitted(lib, wrong.body).value.password, users[Submitted(lib, wrong.body).value.email].passwordHash).Some?
    ensures Post(lib, env, users, unknown) == Post(lib, env, users, wrong) == InvalidCredentials
  {
  }

  /** The outcome of a login depends on the table only through the row of the
      submitted email. */
  lemma OnlyTheSubmittedRowMatters(lib: Libraries, env: Env, users: UserRows, others: UserRows, call: LoginCall)
    requires Submitted(lib, call.body).Some?
    requires var e := Submitted(lib, call.body).value.email;
      (e in users <==> e in others) && (e in users ==> users[e] == others[e])
    ensures Post(lib, env, users, call) == Post(lib, env, others, call)
  {
  }
}
