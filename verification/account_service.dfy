/**
 The account service: the `/register` and `/login` handlers over a user
 collection. The collection is a sequence of records in insertion order;
 nothing but the order of the handler's own checks keeps emails unique.
 */
module AccountService {
  import opened Values
  import opened Http

  /** A stored user document: the request body as it was inserted. */
  type Record = Object

  type Store = seq<Record>

  /** What a handler sends back: a JSON body with a status, or Flask's generic 500 page for an uncaught exception. */
  datatype Response = Respond(status: int, body: Value) | InternalError

  /** The result of `/register`: the store afterwards, the response, and the calls made to the message service. */
  datatype RegisterStep = RegisterStep(store: Store, response: Response, calls: seq<Call>)

  /**
   How the call to the message service ended, as `requests` sees it: an
   exception from the transport, a body that is not JSON, or a decoded
   body (whatever the status: `requests` does not raise on 4xx/5xx).
   */
  datatype WelcomeReply = RequestFailed | NotJson | JsonBody(body: Value)

  const WelcomeFallback := "Welcome to our service!"

  function ErrorBody(text: string): Value {
    Obj(map["error" := Str(text)])
  }

  // ---------------------------------------------------------------------
  // The user collection

  /** The lookup `{"email": email}` matches this record. */
  predicate Matches(rec: Record, email: Value) {
    "email" in rec && rec["email"] == email
  }

  /** Some stored record has this email. */
  ghost predicate EmailTaken(store: Store, email: Value) {
    exists i :: 0 <= i < |store| && Matches(store[i], email)
  }

  /** Index of the first record with this email. */
  function FindFirst(store: Store, email: Value): (r: Option<nat>)
    ensures r.Some? ==> r.value < |store| && Matches(store[r.value], email)
    ensures r.Some? ==> forall j :: 0 <= j < r.value ==> !Matches(store[j], email)
    ensures r.None? ==> forall j :: 0 <= j < |store| ==> !Matches(store[j], email)
  {
    if |store| == 0 then None
    else if Matches(store[0], email) then Some(0)
    else
      match FindFirst(store[1..], email)
      case None => None
      case Some(i) => Some(i + 1)
  }

  /** `get_user`: the first record whose email matches, or nothing. */
  function GetUser(store: Store, email: Value): (r: Option<Record>)
    ensures r.None? <==> !EmailTaken(store, email)
    ensures r.Some? ==> Matches(r.value, email) && r.value in store
    ensures r.Some? ==> exists i :: 0 <= i < |store| && store[i] == r.value
                          && forall j :: 0 <= j < i ==> !Matches(store[j], email)
  {
    match FindFirst(store, email)
    case None => None
    case Some(i) => Some(store[i])
  }

  /** Every stored record carries the three fields `/register` demands. */
  ghost predicate WellFormed(store: Store) {
    forall i :: 0 <= i < |store| ==> HasRegisterFields(store[i])
  }

  /** No two stored records share an email. */
  ghost predicate DistinctEmails(store: Store) {
    forall i, j :: 0 <= i < j < |store| && "email" in store[i] ==> !Matches(store[j], store[i]["email"])
  }

  // ---------------------------------------------------------------------
  // POST /register

  predicate HasRegisterFields(data: Object) {
    "email" in data && "password" in data && "name" in data
  }

  /**
   `response.json().get('message')`, or the fixed greeting when the call
   raised a `RequestException` (which includes the JSON decode error).
   None stands for the AttributeError raised when the body is not a dict.
   */
  function WelcomeMessage(reply: WelcomeReply): (r: Option<Value>)
    ensures reply.RequestFailed? || reply.NotJson? ==> r == Some(Str(WelcomeFallback))
    ensures reply.JsonBody? ==> (r.Some? <==> reply.body.Obj?)
    ensures reply.JsonBody? && reply.body.Obj? && "message" in reply.body.fields ==> r == Some(reply.body.fields["message"])
    ensures reply.JsonBody? && reply.body.Obj? && "message" !in reply.body.fields ==> r == Some(Null)
  {
    match reply
    case RequestFailed => Some(Str(WelcomeFallback))
    case NotJson => Some(Str(WelcomeFallback))
    case JsonBody(body) =>
      if body.Obj? then Some(if "message" in body.fields then body.fields["message"] else Null)
      else None
  }

  function RegisteredBody(welcome: Value): Value {
    Obj(map["message" := Str("Registration successful"), "welcome_message" := welcome])
  }

  /**
   `register`: validate the keys, refuse a taken email, insert the body
   unchanged, then ask the message service for a greeting. The greeting
   never undoes the insert.
   */
  function Register(store: Store, data: Object, reply: WelcomeReply): (r: RegisterStep)
    // validation comes first: a body missing a key is refused whatever the store holds
    ensures !HasRegisterFields(data) ==>
              r == RegisterStep(store, Respond(400, ErrorBody("Missing required fields")), [])
    ensures HasRegisterFields(data) && EmailTaken(store, data["email"]) ==>
              r == RegisterStep(store, Respond(409, ErrorBody("User already exists")), [])
    // the store changes exactly when a new email is registered, and then only by appending the body
    ensures r.store == store || r.store == store + [data]
    ensures r.store == store + [data] <==> HasRegisterFields(data) && !EmailTaken(store, data["email"])
    // the message service is called once, after the insert, with the submitted name
    ensures r.calls != [] <==> r.store == store + [data]
    ensures r.calls != [] ==> r.calls == [Call(GenerateMessage, map["name" := data["name"]])]
    // after an insert the reply is 201 whatever the message service says, unless its body is not a JSON object
    ensures r.store == store + [data] ==>
              match WelcomeMessage(reply)
              case Some(w) => r.response == Respond(201, RegisteredBody(w))
              case None => r.response == InternalError
  {
    if !HasRegisterFields(data) then
      RegisterStep(store, Respond(400, ErrorBody("Missing required fields")), [])
    else if GetUser(store, data["email"]).Some? then
      RegisterStep(store, Respond(409, ErrorBody("User already exists")), [])
    else
      var stored := store + [data];
      var calls := [Call(GenerateMessage, map["name" := data["name"]])];
      match WelcomeMessage(reply)
      case Some(w) => RegisterStep(stored, Respond(201, RegisteredBody(w)), calls)
      case None => RegisterStep(stored, InternalError, calls)
  }

  // ---------------------------------------------------------------------
  // POST /login

  function LoginBody(email: Value, name: Value): Value {
    Obj(map["message" := Str("Login successful"),
            "user" := Obj(map["email" := email, "name" := name])])
  }

  /**
   `login`: validate the keys, look the email up, compare passwords. An
   unknown email and a wrong password get the same 401. Login takes the
   store but returns none: it never changes it.
   */
  function Login(store: Store, data: Object): (r: Response)
    ensures !("email" in data && "password" in data) ==>
              r == Respond(400, ErrorBody("Missing email or password"))
    ensures "email" in data && "password" in data && !EmailTaken(store, data["email"]) ==>
              r == Respond(401, ErrorBody("Invalid email or password"))
    ensures r.Respond? ==> r.status in {200, 400, 401}
    ensures r.Respond? && r.status == 401 ==> r.body == ErrorBody("Invalid email or password")
    // with both keys, every answer other than success is the same 401, for an unknown email and a wrong password alike
    ensures "email" in data && "password" in data && r.Respond? && r.status != 200 ==>
              r == Respond(401, ErrorBody("Invalid email or password"))
    // only the first record with that email is compared: a different stored password gives 401
    ensures "email" in data && "password" in data && GetUser(store, data["email"]).Some? ==>
              var user := GetUser(store, data["email"]).value;
              "password" in user && user["password"] != data["password"] ==>
                r == Respond(401, ErrorBody("Invalid email or password"))
    // success exactly for the first record with this email when its password is the supplied one;
    // the reply carries that record's email and name, never its password
    ensures r.Respond? && r.status == 200 <==>
              "email" in data && "password" in data && GetUser(store, data["email"]).Some? &&
              var user := GetUser(store, data["email"]).value;
              "password" in user && user["password"] == data["password"] && "name" in user
    ensures r.Respond? && r.status == 200 ==>
              var user := GetUser(store, data["email"]).value;
              r.body == LoginBody(user["email"], user["name"])
    // the handler crashes only on a matched record that lacks the password, or the name after a matching password
    ensures r.InternalError? <==>
              "email" in data && "password" in data && GetUser(store, data["email"]).Some? &&
              var user := GetUser(store, data["email"]).value;
              "password" !in user || (user["password"] == data["password"] && "name" !in user)
    ensures r.Respond? && r.status == 200 ==>
              exists i :: 0 <= i < |store| && Matches(store[i], data["email"]) &&
                          "password" in store[i] && store[i]["password"] == data["password"] &&
                          "name" in store[i] && r.body == LoginBody(store[i]["email"], store[i]["name"])
  {
    if !("email" in data && "password" in data) then
      Respond(400, ErrorBody("Missing email or password"))
    else
      match GetUser(store, data["email"])
      case None => Respond(401, ErrorBody("Invalid email or password"))
      case Some(user) =>
        if "password" !in user then InternalError
        else if user["password"] != data["password"] then Respond(401, ErrorBody("Invalid email or password"))
        else if "name" !in user then InternalError
        else Respond(200, LoginBody(user["email"], user["name"]))
  }

  // ---------------------------------------------------------------------
  // Properties

  /** The store invariant the handlers keep under sequential execution. */
  ghost predicate Valid(store: Store) {
    WellFormed(store) && DistinctEmails(store)
  }

  /** Registering keeps every stored record well formed and all emails distinct. */
  lemma RegisterPreservesValid(store: Store, data: Object, reply: WelcomeReply)
    requires Valid(store)
    ensures Valid(Register(store, data, reply).store)
  {
  }

  /** On a valid store, a login with both keys succeeds exactly when some user has that email and that password. */
  lemma LoginSucceedsIff(store: Store, data: Object)
    requires Valid(store)
    requires "email" in data && "password" in data
    ensures Login(store, data).Respond? && Login(store, data).status == 200
            <==> exists i :: 0 <= i < |store| && Matches(store[i], data["email"]) && store[i]["password"] == data["password"]
    ensures Login(store, data) != InternalError
  {
  }

  /** On a valid store, a known email with any other password is refused with the same 401 as an unknown email. */
  lemma LoginWrongPasswordRefused(store: Store, data: Object)
    requires Valid(store)
    requires "email" in data && "password" in data
    requires forall i :: 0 <= i < |store| && Matches(store[i], data["email"]) ==> store[i]["password"] != data["password"]
    ensures Login(store, data) == Respond(401, ErrorBody("Invalid email or password"))
  {
  }

  /** What was registered can be logged into: the new record is the one the lookup finds. */
  lemma RegisterThenLogin(store: Store, data: Object, reply: WelcomeReply, credentials: Object)
    requires HasRegisterFields(data) && !EmailTaken(store, data["email"])
    requires "email" in credentials && credentials["email"] == data["email"]
    requires "password" in credentials && credentials["password"] == data["password"]
    ensures Login(Register(store, data, reply).store, credentials) == Respond(200, LoginBody(data["email"], data["name"]))
  {
    var s' := Register(store, data, reply).store;
    assert s' == store + [data];
    assert s'[|store|] == data;
  }

  // ---------------------------------------------------------------------
  // Sequential execution

  /** A request to one of the two routes, with the oracle answer for the message call a registration makes. */
  datatype Request = RegisterRequest(data: Object, reply: WelcomeReply) | LoginRequest(credentials: Object)

  /** The store after handling the requests one at a time, in order. */
  function Serve(store: Store, requests: seq<Request>): (r: Store)
    ensures |store| <= |r| <= |store| + |requests|
    ensures r[..|store|] == store
    decreases |requests|
  {
    if |requests| == 0 then store
    else
      var next := match requests[0]
        case RegisterRequest(data, reply) => Register(store, data, reply).store
        case LoginRequest(_) => store;
      Serve(next, requests[1..])
  }

  /** Handled one after another, any sequence of requests keeps emails distinct and records well formed. */
  lemma {:induction false} ServePreservesValid(store: Store, requests: seq<Request>)
    requires Valid(store)
    ensures Valid(Serve(store, requests))
    decreases |requests|
  {
    if |requests| > 0 {
      var next := store;
      if requests[0].RegisterRequest? {
        RegisterPreservesValid(store, requests[0].data, requests[0].reply);
        next := Register(store, requests[0].data, requests[0].reply).store;
      }
      ServePreservesValid(next, requests[1..]);
    }
  }
}
