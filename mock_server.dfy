/** The credential check of the mock server's `POST /auth` handler (`server.js`): a
    username and password pair is tried first, an email and password pair second, each
    against the first matching user record; the records are an input, never changed. */
module MockServer {
  import opened Wrappers
  import opened Text

  const InvalidCredentials: string := "Invalid credentials"
  const MissingCredentials: string := "Missing credentials"

  /** One entry of the `auth` list; any field may be missing. */
  datatype AuthRecord = AuthRecord(username: Option<string>, email: Option<string>, password: Option<string>, token: Option<string>)

  /** The request body's fields; any of them may be missing. */
  datatype AuthBody = AuthBody(username: Option<string>, password: Option<string>, email: Option<string>)

  /** The answer's body: a token (which the record may lack) or a message. */
  datatype ReplyBody = TokenBody(token: Option<string>) | MessageBody(message: string)

  datatype Reply = Reply(status: nat, body: ReplyBody)

  /** The pair a lookup compares with `===`. */
  datatype Credential = ByUsername(username: string, password: string) | ByEmail(email: string, password: string)

  predicate Matches(u: AuthRecord, c: Credential) {
    match c
    case ByUsername(name, password) => u.username == Some(name) && u.password == Some(password)
    case ByEmail(email, password) => u.email == Some(email) && u.password == Some(password)
  }

  /** Record i is the first that matches `c`. */
  predicate IsFirstMatch(db: seq<AuthRecord>, c: Credential, i: int) {
    0 <= i < |db| && Matches(db[i], c) && forall j :: 0 <= j < i ==> !Matches(db[j], c)
  }

  /** `db.auth.find(...)`, as the position found: the first match, or none when no record
      matches. */
  function FindFirst(db: seq<AuthRecord>, c: Credential): (r: Option<nat>)
    ensures r.Some? ==> IsFirstMatch(db, c, r.value)
    ensures r.None? <==> forall j :: 0 <= j < |db| ==> !Matches(db[j], c)
  {
    if db == [] then None
    else if Matches(db[0], c) then Some(0)
    else
      match FindFirst(db[1..], c)
      case None => None
      case Some(i) =>
        assert forall j :: 1 <= j < |db| ==> db[j] == db[1..][j - 1];
        Some(i + 1)
  }

  /** The reply for one lookup: the found record's token, or 400 "Invalid credentials". */
  function Answer(db: seq<AuthRecord>, c: Credential): (r: Reply)
    ensures r.status == 200 || r.status == 400
    ensures forall i :: IsFirstMatch(db, c, i) ==> r == Reply(200, TokenBody(db[i].token))
    ensures (forall j :: 0 <= j < |db| ==> !Matches(db[j], c)) ==> r == Reply(400, MessageBody(InvalidCredentials))
  {
    match FindFirst(db, c)
    case Some(i) => Reply(200, TokenBody(db[i].token))
    case None => Reply(400, MessageBody(InvalidCredentials))
  }

  /** The `/auth` handler's decision. */
  function Authenticate(db: seq<AuthRecord>, body: AuthBody): (r: Reply)
    ensures r.status == 200 <==> r.body.TokenBody?
    ensures r.status == 200 || r.status == 400
    ensures r.status == 400 ==> r.body.message == InvalidCredentials || r.body.message == MissingCredentials
  {
    if Present(body.username) && Present(body.password) then
      Answer(db, ByUsername(body.username.value, body.password.value))
    else if Present(body.email) && Present(body.password) then
      Answer(db, ByEmail(body.email.value, body.password.value))
    else
      Reply(400, MessageBody(MissingCredentials))
  }

  /** When a non-empty username and password are given, the token is that of the first record
      with both, and "Invalid credentials" when there is none. */
  lemma UsernameLookup(db: seq<AuthRecord>, body: AuthBody, i: nat)
    requires Present(body.username) && Present(body.password)
    ensures var c := ByUsername(body.username.value, body.password.value);
      && (IsFirstMatch(db, c, i) ==> Authenticate(db, body) == Reply(200, TokenBody(db[i].token)))
      && ((forall j :: 0 <= j < |db| ==> !Matches(db[j], c)) ==>
            Authenticate(db, body) == Reply(400, MessageBody(InvalidCredentials)))
  {
    var c := ByUsername(body.username.value, body.password.value);
    if IsFirstMatch(db, c, i) {
      FirstMatchUnique(db, c, i);
    }
  }

  /** The first match is unique, so the lookup finds exactly it. */
  lemma FirstMatchUnique(db: seq<AuthRecord>, c: Credential, i: nat)
    requires IsFirstMatch(db, c, i)
    ensures FindFirst(db, c) == Some(i)
  {
  }

  /** With a username and password given, the email plays no part: a failed username match
      answers "Invalid credentials" even when the email and password would match. */
  lemma UsernameTakesPriority(db: seq<AuthRecord>, body: AuthBody)
    requires Present(body.username) && Present(body.password)
    ensures Authenticate(db, body) == Authenticate(db, body.(email := None))
    ensures (forall j :: 0 <= j < |db| ==> !Matches(db[j], ByUsername(body.username.value, body.password.value)))
      ==> Authenticate(db, body).body == MessageBody(InvalidCredentials)
  {
  }

  /** Without a username, a non-empty email and password give the token of the first record
      with both, and "Invalid credentials" when there is none. */
  lemma EmailLookup(db: seq<AuthRecord>, body: AuthBody, i: nat)
    requires !Present(body.username) && Present(body.email) && Present(body.password)
    ensures var c := ByEmail(body.email.value, body.password.value);
      && (IsFirstMatch(db, c, i) ==> Authenticate(db, body) == Reply(200, TokenBody(db[i].token)))
      && ((forall j :: 0 <= j < |db| ==> !Matches(db[j], c)) ==>
            Authenticate(db, body) == Reply(400, MessageBody(InvalidCredentials)))
  {
    var c := ByEmail(body.email.value, body.password.value);
    if IsFirstMatch(db, c, i) {
      FirstMatchUnique(db, c, i);
    }
  }

  /** When neither pair is complete (an empty string counts as missing) the answer is
      400 "Missing credentials", whatever the records hold. */
  lemma MissingPairs(db: seq<AuthRecord>, body: AuthBody)
    requires !(Present(body.username) && Present(body.password))
    requires !(Present(body.email) && Present(body.password))
    ensures Authenticate(db, body) == Reply(400, MessageBody(MissingCredentials))
  {
  }

  /** A token is only ever handed out for a record whose password is the one sent. */
  lemma TokenNeedsPassword(db: seq<AuthRecord>, body: AuthBody)
    requires Authenticate(db, body).status == 200
    ensures exists i :: 0 <= i < |db| && db[i].password == body.password
                        && Authenticate(db, body).body.token == db[i].token
  {
    if Present(body.username) && Present(body.password) {
      var i := FindFirst(db, ByUsername(body.username.value, body.password.value)).value;
      assert db[i].password == body.password;
    } else {
      var i := FindFirst(db, ByEmail(body.email.value, body.password.value)).value;
      assert db[i].password == body.password;
    }
  }
}
