/** The user table the two auth routes share, as an object whose table the
    register route updates in place and the login route only reads. */
module AuthService {
  import opened Wrappers
  import opened Auth
  import RegisterRoute
  import LoginRoute

  class UserTable {
    var users: UserRows

    /** Every row sits under its own email. */
    predicate Valid()
      reads this
    {
      KeyedByEmail(users)
    }

    constructor ()
      ensures Valid() && users == map[]
    {
      users := map[];
    }

    /** `POST` of the register route: each step either ends the request with
        its answer or moves on, and only the last one writes the table. */
    method Register(lib: Libraries, call: RegisterRoute.RegisterCall) returns (response: ApiResponse)
      requires Valid()
      modifies this
      ensures Valid()
      ensures RegisterRoute.Outcome(response, users) == RegisterRoute.Post(lib, old(users), call)
    {
      var parsed := lib.json(call.body);
      if parsed.None? {
        return InternalError;
      }
      var data := ParseCredentials(lib.isEmail, parsed.value);
      if data.None? {
        return RegisterRoute.InvalidData;
      }
      var email, password := data.value.email, data.value.password;

      if call.faults.findFails {
        return InternalError;
      }
      if email in users {
        return RegisterRoute.AlreadyExists;
      }

      var hashed := lib.hash(password, RegisterRoute.HashCost);
      if hashed.None? {
        return InternalError;
      }

      if call.faults.createFails {
        return InternalError;
      }
      users := users[email := User(call.newId, email, hashed.value)];
      response := RegisterRoute.Created;
    }

    /** `POST` of the login route. It has no `modifies` clause: it reads the
        table and never changes it. Because every row sits under its own
        email, a session token is signed over the email that was submitted. */
    method Login(lib: Libraries, env: LoginRoute.Env, call: LoginRoute.LoginCall) returns (response: ApiResponse)
      requires Valid()
      ensures response == LoginRoute.Post(lib, env, users, call)
      ensures response.status == 200 ==>
        var e := Submitted(lib, call.body).value.email;
        response.setCookie == Some(LoginRoute.AuthCookie(
          lib.sign(TokenClaims(users[e].id, e), env.jwtSecret, LoginRoute.JwtExpiry).value, env))
    {
      var parsed := lib.json(call.body);
      if parsed.None? {
        return InternalError;
      }
      var data := ParseCredentials(lib.isEmail, parsed.value);
      if data.None? {
        return LoginRoute.InvalidInput;
      }
      var email, password := data.value.email, data.value.password;

      if call.findFails {
        return InternalError;
      }
      if email !in users {
        return LoginRoute.InvalidCredentials;
      }
      var user := users[email];

      var isPasswordValid := lib.compare(password, user.passwordHash);
      if isPasswordValid.None? {
        return InternalError;
      }
      if !isPasswordValid.value {
        return LoginRoute.InvalidCredentials;
      }

      var token := lib.sign(LoginRoute.Claims(user), env.jwtSecret, LoginRoute.JwtExpiry);
      if token.None? {
        return InternalError;
      }
      var cookie := LoginRoute.AuthCookie(token.value, env);
      response := ApiResponse(200, LoginRoute.LoginSuccessful, Some(cookie));
    }
  }

  /** bcrypt's promise, taken as a hypothesis about the library: a password
      compares equal to its own hash. */
  ghost predicate HashVerifies(lib: Libraries)
  {
    forall p: string | lib.hash(p, RegisterRoute.HashCost).Some? ::
      lib.compare(p, lib.hash(p, RegisterRoute.HashCost).value) == Some(true)
  }

  /** Register, then log in with the same body: when the libraries and the
      database do not throw and bcrypt verifies its own hashes, the login
      succeeds and its cookie carries the token signed over the new user's
      id and email. */
  lemma RegisterThenLogin(lib: Libraries, env: LoginRoute.Env, users: UserRows, call: RegisterRoute.RegisterCall)
    requires HashVerifies(lib)
    requires RegisterRoute.Post(lib, users, call).response == RegisterRoute.Created
    requires var c := Submitted(lib, call.body).value;
      lib.sign(TokenClaims(call.newId, c.email), env.jwtSecret, LoginRoute.JwtExpiry).Some?
    ensures var c := Submitted(lib, call.body).value;
      var after := RegisterRoute.Post(lib, users, call).users;
      var token := lib.sign(TokenClaims(call.newId, c.email), env.jwtSecret, LoginRoute.JwtExpiry).value;
      LoginRoute.Post(lib, env, after, LoginRoute.LoginCall(call.body, false))
        == ApiResponse(200, LoginRoute.LoginSuccessful, Some(LoginRoute.AuthCookie(token, env)))
  {
    var c := Submitted(lib, call.body).value;
    var after := RegisterRoute.Post(lib, users, call).users;
    assert after[c.email].passwordHash == lib.hash(c.password, RegisterRoute.HashCost).value;
    assert lib.compare(c.password, after[c.email].passwordHash) == Some(true);
  }
}
