/** The authentication state of `src/context/AuthContext.tsx`: the session token, the
    `loading` and `initializing` flags, the key-value store the token is kept in, and the
    rule that picks the message shown when a login fails. The HTTP calls are replaced by
    their outcomes, given as parameters. */
module Auth {
  import opened Wrappers
  import opened Text

  /** The store key the token is kept under. */
  const TokenKey: string := "token"

  /** The fixed credentials a web login sends to the local mock server. */
  const WebUsername: string := "kminchelle"
  const WebPassword: string := "0lelplR"

  /** The message of the error raised when a login response carries no token. */
  const NoTokenMessage: string := "Authentication failed: no token returned"

  /** The last fallback of the failure message. */
  const UnknownError: string := "Unknown error"

  /** The prefix of the failure alert. */
  const AlertPrefix: string := "Login failed: "

  datatype Platform = Web | Native

  /** The request a login sends: `POST /auth` to the mock server on the web, or
      `POST /api/login` to the remote service on a device. */
  datatype LoginRequest = MockAuth(username: string, password: string) | RemoteLogin(email: string, password: string)

  /** The body of a failed response, as far as the message rule reads it: its `message`,
      `error` and `errors` fields (absent or text), and its JSON serialization. */
  datatype ErrorData = ErrorData(message: Option<string>, error: Option<string>, errors: Option<string>, json: string)

  /** What a login call came back with: a successful response, whose `token` field may be
      missing, or an error with its message and, when the server answered, its body. */
  datatype LoginOutcome = Responded(token: Option<string>) | Rejected(message: string, data: Option<ErrorData>)

  /** Reading the store at start-up: it answers, or it throws. */
  datatype StoreRead = ReadOk | ReadFailed

  /** The request a login sends; the web ignores the typed credentials. */
  function LoginRequestFor(platform: Platform, email: string, password: string): (r: LoginRequest)
    ensures platform == Web ==> r == MockAuth(WebUsername, WebPassword)
    ensures platform == Native ==> r == RemoteLogin(email, password)
  {
    match platform
    case Web => MockAuth(WebUsername, WebPassword)
    case Native => RemoteLogin(email, password)
  }

  /** `data && (data.message || data.error || data.errors || JSON.stringify(data))`, with ""
      standing for a falsy result. */
  function ServerMessage(data: Option<ErrorData>): (r: string)
    ensures data.None? ==> r == ""
    ensures data.Some? ==> r == FirstTruthy(Candidates(data, "")[..3], data.value.json)
    ensures data.Some? && r == "" ==> forall k :: 0 <= k < 4 ==> Candidates(data, "")[k] == ""
  {
    match data
    case None => ""
    case Some(d) =>
      var c := Candidates(data, "")[..3];
      assert FirstTruthy(c[2..], d.json) == if Present(d.errors) then d.errors.value else d.json by {
        assert c[2..][1..] == [];
      }
      assert FirstTruthy(c[1..], d.json) == if Present(d.error) then d.error.value else FirstTruthy(c[2..], d.json) by {
        assert c[1..][1..] == c[2..];
      }
      if Present(d.message) then d.message.value
      else if Present(d.error) then d.error.value
      else if Present(d.errors) then d.errors.value
      else d.json
  }

  /** `serverMsg || error.message || "Unknown error"`. */
  function UserMessage(data: Option<ErrorData>, errorMessage: string): (r: string)
    ensures r != ""
    ensures r == ServerMessage(data) || r == errorMessage || r == UnknownError
    ensures ServerMessage(data) != "" ==> r == ServerMessage(data)
    ensures ServerMessage(data) == "" && errorMessage != "" ==> r == errorMessage
  {
    var serverMsg := ServerMessage(data);
    if Truthy(serverMsg) then serverMsg
    else if Truthy(errorMessage) then errorMessage
    else UnknownError
  }

  /** The first non-empty candidate, or `fallback` when there is none. */
  function FirstTruthy(candidates: seq<string>, fallback: string): (r: string)
    ensures r == fallback <== forall i :: 0 <= i < |candidates| ==> candidates[i] == ""
    ensures (exists i :: 0 <= i < |candidates| && candidates[i] != "") ==>
      exists i :: (0 <= i < |candidates| && r == candidates[i] && r != ""
        && forall j :: 0 <= j < i ==> candidates[j] == "")
  {
    if candidates == [] then fallback
    else if candidates[0] != "" then candidates[0]
    else
      var r := FirstTruthy(candidates[1..], fallback);
      assert forall j :: 1 <= j < |candidates| ==> candidates[j] == candidates[1..][j - 1];
      r
  }

  /** The candidates of the failure message, in the order they are tried. */
  function Candidates(data: Option<ErrorData>, errorMessage: string): seq<string> {
    match data
    case None => [errorMessage]
    case Some(d) => [d.message.GetOr(""), d.error.GetOr(""), d.errors.GetOr(""), d.json, errorMessage]
  }

  /** The failure message is the first present one of the body's `message`, `error`,
      `errors`, its serialization (only when there is a body), the error's own message,
      and then "Unknown error"; it is never empty. */
  lemma UserMessageIsFirstPresent(data: Option<ErrorData>, errorMessage: string)
    ensures UserMessage(data, errorMessage) == FirstTruthy(Candidates(data, errorMessage), UnknownError)
    ensures UserMessage(data, errorMessage) != ""
  {
    var c := Candidates(data, errorMessage);
    var u := UnknownError;
    if data.Some? {
      var d := data.value;
      assert FirstTruthy(c[4..], u) == if errorMessage != "" then errorMessage else u by {
        assert c[4..] == [errorMessage] && c[4..][1..] == [];
      }
      assert FirstTruthy(c[3..], u) == if d.json != "" then d.json else FirstTruthy(c[4..], u) by {
        assert c[3..][1..] == c[4..];
      }
      assert FirstTruthy(c[2..], u) == if Present(d.errors) then d.errors.value else FirstTruthy(c[3..], u) by {
        assert c[2..][1..] == c[3..];
      }
      assert FirstTruthy(c[1..], u) == if Present(d.error) then d.error.value else FirstTruthy(c[2..], u) by {
        assert c[1..][1..] == c[2..];
      }
      assert FirstTruthy(c, u) == if Present(d.message) then d.message.value else FirstTruthy(c[1..], u);
    } else {
      assert c[1..] == [];
    }
  }

  /** The alert a login ends with, if any: a response without a token, a rejected call and
      a failed store write all alert "Login failed: " and the chosen message. */
  function LoginAlert(outcome: LoginOutcome, storeError: Option<string>): (r: Option<string>)
    ensures outcome.Responded? && Present(outcome.token) && storeError.None? <==> r.None?
    ensures r.Some? ==> |r.value| > |AlertPrefix| && r.value[..|AlertPrefix|] == AlertPrefix
    ensures outcome.Rejected? ==> r == Some(AlertPrefix + UserMessage(outcome.data, outcome.message))
    ensures outcome.Responded? && !Present(outcome.token) ==> r == Some(AlertPrefix + NoTokenMessage)
    ensures outcome.Responded? && Present(outcome.token) && storeError.Some? ==>
      r == Some(AlertPrefix + UserMessage(None, storeError.value))
  {
    var message :=
      match outcome
      case Responded(token) =>
        if !Present(token) then Some(UserMessage(None, NoTokenMessage))
        else if storeError.Some? then Some(UserMessage(None, storeError.value))
        else None
      case Rejected(m, data) => Some(UserMessage(data, m));
    match message
    case None => None
    case Some(m) => Some(AlertPrefix + m)
  }

  /** The provider whose fields the source updates in place. */
  class AuthProvider {
    var token: Option<string>
    var initializing: bool
    var loading: bool
    /** The persistent key-value store, as its contents. */
    var storage: map<string, string>

    /** A token that is set is never empty. */
    ghost predicate Valid()
      reads this
    {
      token.Some? ==> token.value != ""
    }

    constructor (storage: map<string, string>)
      ensures Valid()
      ensures token == None && initializing && !loading && this.storage == storage
    {
      token := None;
      initializing := true;
      loading := false;
      this.storage := storage;
    }

    /** The start-up effect: adopt a stored token only when it is present and non-empty;
        `initializing` ends whether or not the store could be read. */
    method LoadToken(read: StoreRead)
      requires Valid()
      modifies this`token, this`initializing
      ensures Valid()
      ensures !initializing
      ensures token == if read.ReadOk? && TokenKey in storage && storage[TokenKey] != ""
                       then Some(storage[TokenKey]) else old(token)
    {
      if read.ReadOk? {
        var storedToken := if TokenKey in storage then Some(storage[TokenKey]) else None;
        if Present(storedToken) {
          token := storedToken;
        }
      }
      initializing := false;
    }

    /** The first half of `login`, up to the awaited call: set `loading` and choose the
        request. */
    method BeginLogin(platform: Platform, email: string, password: string) returns (req: LoginRequest)
      modifies this`loading
      ensures loading
      ensures req == LoginRequestFor(platform, email, password)
    {
      loading := true;
      if platform == Web {
        req := MockAuth(WebUsername, WebPassword);
      } else {
        req := RemoteLogin(email, password);
      }
    }

    /** The second half of `login`: a response with a token sets it and writes it to the
        store; anything else leaves token and store as they were and alerts; `loading`
        ends false on every path. */
    method FinishLogin(outcome: LoginOutcome, storeError: Option<string>) returns (alert: Option<string>)
      requires Valid()
      modifies this`token, this`storage, this`loading
      ensures Valid()
      ensures !loading
      ensures alert == LoginAlert(outcome, storeError)
      ensures outcome.Responded? && Present(outcome.token) ==>
        && token == outcome.token
        && storage == if storeError.None? then old(storage)[TokenKey := outcome.token.value] else old(storage)
      ensures !(outcome.Responded? && Present(outcome.token)) ==> token == old(token) && storage == old(storage)
    {
      match outcome {
        case Responded(authToken) =>
          if !Present(authToken) {
            alert := Some(AlertPrefix + UserMessage(None, NoTokenMessage));
          } else {
            token := authToken;
            if storeError.None? {
              storage := storage[TokenKey := authToken.value];
              alert := None;
            } else {
              alert := Some(AlertPrefix + UserMessage(None, storeError.value));
            }
          }
        case Rejected(message, data) =>
          alert := Some(AlertPrefix + UserMessage(data, message));
      }
      loading := false;
    }

    /** `login(email, password)` run to completion. */
    method Login(platform: Platform, email: string, password: string, outcome: LoginOutcome, storeError: Option<string>)
      returns (req: LoginRequest, alert: Option<string>)
      requires Valid()
      modifies this`token, this`storage, this`loading
      ensures Valid()
      ensures !loading
      ensures req == LoginRequestFor(platform, email, password)
      ensures alert == LoginAlert(outcome, storeError)
      ensures outcome.Responded? && Present(outcome.token) ==>
        && token == outcome.token
        && storage == if storeError.None? then old(storage)[TokenKey := outcome.token.value] else old(storage)
      ensures !(outcome.Responded? && Present(outcome.token)) ==> token == old(token) && storage == old(storage)
    {
      req := BeginLogin(platform, email, password);
      alert := FinishLogin(outcome, storeError);
    }

    /** `logout`: forget the token and remove it from the store. */
    method Logout()
      requires Valid()
      modifies this`token, this`storage
      ensures Valid()
      ensures token == None
      ensures storage == old(storage) - {TokenKey}
      ensures TokenKey !in storage
    {
      token := None;
      storage := storage - {TokenKey};
    }
  }
}
