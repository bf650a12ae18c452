/** What the register and login routes share: the JSON request body, the
    credential schema, the user row, the response shape, and the foreign
    libraries the routes call, each taken as an uninterpreted function. */
module Auth {
  import opened Wrappers

  /** A JSON value as `request.json()` yields it. */
  datatype Json =
    | JNull
    | JBool(b: bool)
    | JNumber(n: real)
    | JString(s: string)
    | JArray(items: seq<Json>)
    | JObject(fields: map<string, Json>)

  /** The body once the schema has accepted it. */
  datatype Credentials = Credentials(email: string, password: string)

  type UserId = nat

  /** A row of the user table. `passwordHash` is the column the routes call
      `password`: it holds the bcrypt hash, never the submitted password. */
  datatype User = User(id: UserId, email: string, passwordHash: string)

  /** The user table, keyed by its unique `email` column. */
  type UserRows = map<string, User>

  /** Each row sits under its own email. */
  predicate KeyedByEmail(users: UserRows)
  {
    forall e | e in users :: users[e].email == e
  }

  /** The claims a session token is signed over. */
  datatype TokenClaims = TokenClaims(id: UserId, email: string)

  /** The foreign calls of both routes. `None` is a call that throws.
      - `json`: `request.json()` on the raw body;
      - `isEmail`: zod's `.email()` check;
      - `hash`: `bcrypt.hash(password, cost)`;
      - `compare`: `bcrypt.compare(password, hash)`;
      - `sign`: `jwt.sign(claims, secret, { expiresIn })`. */
  datatype Libraries = Libraries(
    json: string -> Option<Json>,
    isEmail: string -> bool,
    hash: (string, nat) -> Option<string>,
    compare: (string, string) -> Option<bool>,
    sign: (TokenClaims, Option<string>, string) -> Option<string>)

  /** Whether the database's `findUnique` and `create` throw on this request. */
  datatype StoreFaults = StoreFaults(findFails: bool, createFails: bool)

  datatype SameSite = Strict | Lax | NoRestriction

  /** The attributes `cookie.serialize` is given, kept as a record. */
  datatype Cookie = Cookie(
    name: string,
    value: string,
    httpOnly: bool,
    secure: bool,
    sameSite: SameSite,
    path: string,
    maxAge: nat)

  /** `NextResponse.json({ message }, { status })`, with the `Set-Cookie`
      header when one is set. */
  datatype ApiResponse = ApiResponse(status: nat, message: string, setCookie: Option<Cookie>)

  const MinPasswordLength: nat := 8

  const InternalError := ApiResponse(500, "Internal server error", None)

  /** The string under `name` when `body` is an object holding one. */
  function StringField(body: Json, name: string): Option<string>
  {
    if body.JObject? && name in body.fields && body.fields[name].JString? then
      Some(body.fields[name].s)
    else
      None
  }

  /** `registerSchema.safeParse(body)` and `loginSchema.safeParse(body)`, which
      are the same schema: an object whose `email` is a string that passes the
      email check and whose `password` is a string of at least 8 characters.
      Other fields are ignored. */
  function ParseCredentials(isEmail: string -> bool, body: Json): (r: Option<Credentials>)
    ensures r.Some? ==> isEmail(r.value.email) && |r.value.password| >= MinPasswordLength
    ensures r.Some? ==>
      StringField(body, "email") == Some(r.value.email) &&
      StringField(body, "password") == Some(r.value.password)
    ensures r.None? <==>
      || StringField(body, "email").None?
      || StringField(body, "password").None?
      || !isEmail(StringField(body, "email").value)
      || |StringField(body, "password").value| < MinPasswordLength
  {
    match (StringField(body, "email"), StringField(body, "password"))
    case (Some(email), Some(password)) =>
      if isEmail(email) && |password| >= MinPasswordLength then
        Some(Credentials(email, password))
      else
        None
    case _ => None
  }

  /** The credentials of a raw body: parsed as JSON, then by the schema. */
  function Submitted(lib: Libraries, body: string): Option<Credentials>
  {
    match lib.json(body)
    case None => None
    case Some(j) => ParseCredentials(lib.isEmail, j)
  }

  /** The body is JSON but the schema refuses it. */
  predicate RejectedBySchema(lib: Libraries, body: string)
  {
    lib.json(body).Some? && ParseCredentials(lib.isEmail, lib.json(body).value).None?
  }

  /** A body shorter than the minimum never passes the schema. */
  lemma ShortPasswordRejected(isEmail: string -> bool, email: string, password: string)
    requires |password| < MinPasswordLength
    ensures ParseCredentials(isEmail, JObject(map["email" := JString(email), "password" := JString(password)])).None?
  {
  }
}
