/** `POST /api/auth/register`: validate the body, refuse a known email with
    409, otherwise hash the password with cost 12 and insert one row. Any
    exception on the way is answered with 500. */
module RegisterRoute {
  import opened Wrappers
  import opened Auth

  const HashCost: nat := 12

  const InvalidData := ApiResponse(400, "Invalid data provided", None)
  const AlreadyExists := ApiResponse(409, "User already exists", None)
  const Created := ApiResponse(201, "User registered successfully", None)

  /** One call of the route: the raw body, whether the database throws, and
      the id the database gives a row it creates. */
  datatype RegisterCall = RegisterCall(body: string, faults: StoreFaults, newId: UserId)

  /** The response and the table after the call. */
  datatype Outcome = Outcome(response: ApiResponse, users: UserRows)

  /** The route as a function of the table before the call. Its answer is
      one of four fixed messages; only a 201 changes the table, by inserting
      one row for a fresh email holding the hash of the password. */
  function Post(lib: Libraries, users: UserRows, call: RegisterCall): (r: Outcome)
    ensures r.response in {Created, InvalidData, AlreadyExists, InternalError}
    ensures r.response == Created ==>
      && Submitted(lib, call.body).Some?
      && var c := Submitted(lib, call.body).value;
      && c.email !in users
      && lib.hash(c.password, HashCost).Some?
      && r.users == users[c.email := User(call.newId, c.email, lib.hash(c.password, HashCost).value)]
      && |r.users| == |users| + 1
    ensures r.response != Created ==> r.users == users
  {
    match lib.json(call.body)
    case None => Outcome(InternalError, users)
    case Some(body) =>
      match ParseCredentials(lib.isEmail, body)
      case None => Outcome(InvalidData, users)
      case Some(c) =>
        if call.faults.findFails then Outcome(InternalError, users)
        else if c.email in users then Outcome(AlreadyExists, users)
        else
          match lib.hash(c.password, HashCost)
          case None => Outcome(InternalError, users)
          case Some(hashed) =>
            if call.faults.createFails then Outcome(InternalError, users)
            else Outcome(Created, users[c.email := User(call.newId, c.email, hashed)])
  }

  /** Which of the four answers a call gets: 400 exactly when the JSON is
      refused by the schema, 409 exactly when the email is already a key,
      201 exactly when lookup, hashing and insertion all succeed for a fresh
      email. Everything else, a JSON parse failure included, is 500. */
  lemma PostStatus(lib: Libraries, users: UserRows, call: RegisterCall)
    ensures Post(lib, users, call).response == InvalidData <==> RejectedBySchema(lib, call.body)
    ensures Post(lib, users, call).response == AlreadyExists <==>
      var c := Submitted(lib, call.body);
      c.Some? && !call.faults.findFails && c.value.email in users
    ensures Post(lib, users, call).response == Created <==>
      var c := Submitted(lib, call.body);
      && c.Some? && !call.faults.findFails && c.value.email !in users
      && lib.hash(c.value.password, HashCost).Some? && !call.faults.createFails
  {
  }

  /** A successful call keeps every existing row and the table keyed by email. */
  lemma PostKeepsRows(lib: Libraries, users: UserRows, call: RegisterCall)
    ensures forall e | e in users :: e in Post(lib, users, call).users && Post(lib, users, call).users[e] == users[e]
    ensures KeyedByEmail(users) ==> KeyedByEmail(Post(lib, users, call).users)
  {
  }

  /** The email of a body the schema accepts. */
  function SubmittedEmail(lib: Libraries, body: string): Option<string>
  {
    match Submitted(lib, body)
    case None => None
    case Some(c) => Some(c.email)
  }

  /** The responses and the final table of a sequence of calls, run one after
      the other on the table each call leaves behind. */
  datatype History = History(responses: seq<ApiResponse>, users: UserRows)

  /** How many of `responses` report a new user. */
  function CountCreated(responses: seq<ApiResponse>): nat
  {
    if responses == [] then 0
    else (if responses[0] == Created then 1 else 0) + CountCreated(responses[1..])
  }

  /** Runs `calls` in order, starting from `users`. Existing rows are never
      changed, and the table grows by exactly one row per 201 response. */
  function RegisterAll(lib: Libraries, users: UserRows, calls: seq<RegisterCall>): (h: History)
    ensures |h.responses| == |calls|
    ensures forall e | e in users :: e in h.users && h.users[e] == users[e]
    ensures |h.users| == |users| + CountCreated(h.responses)
    ensures KeyedByEmail(users) ==> KeyedByEmail(h.users)
    decreases |calls|
  {
    if calls == [] then History([], users)
    else
      var first := Post(lib, users, calls[0]);
      var rest := RegisterAll(lib, first.users, calls[1..]);
      assert CountCreated([first.response] + rest.responses) ==
        (if first.response == Created then 1 else 0) + CountCreated(rest.responses) by {
        assert ([first.response] + rest.responses)[1..] == rest.responses;
      }
      History([first.response] + rest.responses, rest.users)
  }

  /** The responses of a non-empty sequence: the first call's, then those of
      the rest run on the table the first call leaves. */
  lemma RegisterAllStep(lib: Libraries, users: UserRows, calls: seq<RegisterCall>)
    requires calls != []
    ensures var first := Post(lib, users, calls[0]);
      var rest := RegisterAll(lib, first.users, calls[1..]);
      && RegisterAll(lib, users, calls).responses[0] == first.response
      && (forall k | 0 < k < |calls| :: RegisterAll(lib, users, calls).responses[k] == rest.responses[k - 1])
  {
  }

  /** A call in a sequence creates a user only for an email that was not in
      the table the sequence started from. */
  lemma {:induction false} CreatedOnlyWhenFresh(lib: Libraries, users: UserRows, calls: seq<RegisterCall>, j: nat)
    requires j < |calls|
    requires RegisterAll(lib, users, calls).responses[j] == Created
    ensures SubmittedEmail(lib, calls[j].body).Some?
    ensures SubmittedEmail(lib, calls[j].body).value !in users
    decreases |calls|
  {
    var first := Post(lib, users, calls[0]);
    RegisterAllStep(lib, users, calls);
    if j > 0 {
      CreatedOnlyWhenFresh(lib, first.users, calls[1..], j - 1);
      assert calls[1..][j - 1] == calls[j];
    }
  }

  /** Two calls of a sequence that both create a user submitted different emails. */
  lemma {:induction false} CreatedEmailsDiffer(lib: Libraries, users: UserRows, calls: seq<RegisterCall>, i: nat, j: nat)
    requires i < j < |calls|
    requires RegisterAll(lib, users, calls).responses[i] == Created
    requires RegisterAll(lib, users, calls).responses[j] == Created
    ensures SubmittedEmail(lib, calls[i].body) != SubmittedEmail(lib, calls[j].body)
    decreases |calls|
  {
    var first := Post(lib, users, calls[0]);
    var rest := RegisterAll(lib, first.users, calls[1..]);
    RegisterAllStep(lib, users, calls);
    assert calls[1..][j - 1] == calls[j];
    if i == 0 {
      // The first call put its email in the table the rest starts from.
      var e := Submitted(lib, calls[0].body).value.email;
      assert e in first.users;
      CreatedOnlyWhenFresh(lib, first.users, calls[1..], j - 1);
      assert SubmittedEmail(lib, calls[0].body) == Some(e);
    } else {
      assert calls[1..][i - 1] == calls[i];
      CreatedEmailsDiffer(lib, first.users, calls[1..], i - 1, j - 1);
    }
  }

  /** Uniqueness: however many calls are made one after the other, no two of
      them create a user for the same email. */
  lemma {:induction false} AtMostOneCreatedPerEmail(lib: Libraries, users: UserRows, calls: seq<RegisterCall>)
    ensures var h := RegisterAll(lib, users, calls);
      forall i, j | 0 <= i < j < |calls| && h.responses[i] == Created && h.responses[j] == Created ::
        SubmittedEmail(lib, calls[i].body) != SubmittedEmail(lib, calls[j].body)
  {
    var h := RegisterAll(lib, users, calls);
    forall i, j | 0 <= i < j < |calls| && h.responses[i] == Created && h.responses[j] == Created
      ensures SubmittedEmail(lib, calls[i].body) != SubmittedEmail(lib, calls[j].body)
    {
      CreatedEmailsDiffer(lib, users, calls, i, j);
    }
  }

  /** Registering the same email twice in a row: the first call creates the
      user, the second is refused with 409 and changes nothing. */
  lemma RegisterTwice(lib: Libraries, users: UserRows, first: RegisterCall, second: RegisterCall)
    requires Post(lib, users, first).response == Created
    requires SubmittedEmail(lib, second.body) == SubmittedEmail(lib, first.body)
    requires !second.faults.findFails
    ensures Post(lib, Post(lib, users, first).users, second).response == AlreadyExists
    ensures Post(lib, Post(lib, users, first).users, second).users == Post(lib, users, first).users
  {
  }

  /** The table is consulted only after validation: a body the schema refuses
      gets the same answer whatever the table holds, and changes nothing. */
  lemma ValidationIgnoresTable(lib: Libraries, users: UserRows, others: UserRows, call: RegisterCall)
    requires RejectedBySchema(lib, call.body)
    ensures Post(lib, users, call) == Outcome(InvalidData, users)
    ensures Post(lib, others, call).response == Post(lib, users, call).response
  {
  }

  /** Emails are keys as given: an email that differs from a stored one only
      in case is not a duplicate. */
  lemma EmailsAreCaseSensitive(lib: Libraries, u: User, call: RegisterCall)
    requires SubmittedEmail(lib, call.body) == Some("alice@example.com")
    requires !call.faults.findFails
    ensures Post(lib, map["Alice@example.com" := u], call).response != AlreadyExists
  {
    assert "alice@example.com" != "Alice@example.com" by {
      assert "alice@example.com"[0] != "Alice@example.com"[0];
    }
  }
}
