/**
 The web client's service calls: `register` (account call, then the
 welcome-message call, then the merge) and `login`. Each HTTP exchange is
 an oracle outcome given as a parameter; the result records the calls
 that were actually made.
 */
module WebApi {
  import opened Values
  import opened Http

  const RegisterFallback := "Registration failed"
  const LoginFallback := "Login failed"

  /** The requests one client operation made, in order, and what it resolved to or the message it threw. */
  datatype Run<T> = Run(calls: seq<Call>, result: Result<T, string>)

  /** The body sent to `/register`: the form's username travels as `name`. */
  function AccountRequest(userData: Object): (body: Object)
    ensures body.Keys <= {"email", "password", "name"}
    ensures "name" in body <==> Field(userData, "username") != Undefined
    ensures "name" in body ==> body["name"] == userData["username"]
    ensures "email" in body <==> Field(userData, "email") != Undefined
    ensures "email" in body ==> body["email"] == userData["email"]
    ensures "password" in body <==> Field(userData, "password") != Undefined
    ensures "password" in body ==> body["password"] == userData["password"]
  {
    Defined(map["email" := Field(userData, "email"),
                "password" := Field(userData, "password"),
                "name" := Field(userData, "username")])
  }

  /** The body sent to `/generate-message`. */
  function MessageRequest(userData: Object): (body: Object)
    ensures body.Keys <= {"name"}
    ensures "name" in body <==> Field(userData, "username") != Undefined
    ensures "name" in body ==> body["name"] == userData["username"]
  {
    Defined(map["name" := Field(userData, "username")])
  }

  /**
   The message of the Error the catch block throws:
   `error.response?.data?.error || fallback`. Only an HTTP error carries a
   response; a transport failure or a TypeError does not.
   */
  function FailureText(o: Outcome, fallback: string): (text: string)
    ensures o.NoResponse? ==> text == fallback
    ensures o.Reply? ==> text == ErrorText(OptionalProperty(o.body, "error"), fallback)
  {
    match o
    case NoResponse => fallback
    case Reply(_, body) => ErrorText(OptionalProperty(body, "error"), fallback)
  }

  /** `{...account, welcomeMessage: welcome}`. */
  function Merge(account: Value, welcome: Value): (r: Object)
    ensures r.Keys == Spread(account).Keys + {"welcomeMessage"}
    ensures r["welcomeMessage"] == welcome
    ensures forall k :: k in Spread(account) && k != "welcomeMessage" ==> r[k] == Spread(account)[k]
  {
    Spread(account)["welcomeMessage" := welcome]
  }

  /**
   `register(userData)`. The message call is made only once the account
   call has succeeded; a failure of either call throws, and nothing undoes
   an account that was created.
   */
  function Register(userData: Object, account: Outcome, message: Outcome): (run: Run<Object>)
    // the account call always comes first, with the renamed fields
    ensures 1 <= |run.calls| <= 2
    ensures run.calls[0] == Call(AccountRegister, AccountRequest(userData))
    // the message call is made exactly when the account call succeeded
    ensures |run.calls| == 2 <==> Succeeded(account)
    ensures |run.calls| == 2 ==> run.calls[1] == Call(GenerateMessage, MessageRequest(userData))
    // failures: the failing reply's error field, or the fallback
    ensures !Succeeded(account) ==> run.result == Err(FailureText(account, RegisterFallback))
    ensures Succeeded(account) && !Succeeded(message) ==> run.result == Err(FailureText(message, RegisterFallback))
    ensures Succeeded(account) && Succeeded(message) && (message.body.Null? || message.body.Undefined?) ==>
              run.result == Err(RegisterFallback)
    // success: both calls succeeded, and the account reply is merged with the greeting
    ensures run.result.Ok? <==>
              Succeeded(account) && Succeeded(message) && !(message.body.Null? || message.body.Undefined?)
    ensures run.result.Ok? ==> run.result.value == Merge(account.body, OptionalProperty(message.body, "message"))
  {
    var first := Call(AccountRegister, AccountRequest(userData));
    if !Succeeded(account) then
      Run([first], Err(FailureText(account, RegisterFallback)))
    else
      var calls := [first, Call(GenerateMessage, MessageRequest(userData))];
      if !Succeeded(message) then
        Run(calls, Err(FailureText(message, RegisterFallback)))
      else
        match Property(message.body, "message")
        case None => Run(calls, Err(RegisterFallback))
        case Some(welcome) => Run(calls, Ok(Merge(account.body, welcome)))
  }

  /** `login(credentials)`: the credentials are posted as they are and a 2xx body is returned verbatim. */
  function Login(credentials: Object, reply: Outcome): (run: Run<Value>)
    ensures run.calls == [Call(AccountLogin, Defined(credentials))]
    ensures Succeeded(reply) ==> run.result == Ok(reply.body)
    ensures !Succeeded(reply) ==> run.result == Err(FailureText(reply, LoginFallback))
  {
    var calls := [Call(AccountLogin, Defined(credentials))];
    if Succeeded(reply) then Run(calls, Ok(reply.body))
    else Run(calls, Err(FailureText(reply, LoginFallback)))
  }

  // ---------------------------------------------------------------------
  // Properties

  /** The account request never carries the form's `username` key, and forwards empty strings as they are. */
  lemma AccountRequestForwardsFields(username: string, email: string, password: string, extra: Object)
    ensures AccountRequest(extra["username" := Str(username)]["email" := Str(email)]["password" := Str(password)])
            == map["email" := Str(email), "password" := Str(password), "name" := Str(username)]
  {
  }

  /** When the account call fails, no message call is made and the message outcome is irrelevant. */
  lemma AccountFailureSkipsMessage(userData: Object, account: Outcome, m1: Outcome, m2: Outcome)
    requires !Succeeded(account)
    ensures Register(userData, account, m1) == Register(userData, account, m2)
    ensures forall i :: 0 <= i < |Register(userData, account, m1).calls| ==>
              Register(userData, account, m1).calls[i].endpoint != GenerateMessage
  {
  }

  /** The caller cannot tell which step failed: the same failing reply gives the same text at either step. */
  lemma FailingStepIndistinguishable(userData: Object, failing: Outcome, okAccount: Outcome)
    requires !Succeeded(failing) && Succeeded(okAccount)
    ensures Register(userData, failing, okAccount).result == Register(userData, okAccount, failing).result
  {
  }

  /** A failing message call fails the whole registration even though the account call succeeded; nothing follows it. */
  lemma MessageFailureNotCompensated(userData: Object, account: Outcome, message: Outcome)
    requires Succeeded(account) && !Succeeded(message)
    ensures Register(userData, account, message).result.Err?
    ensures Register(userData, account, message).calls
            == [Call(AccountRegister, AccountRequest(userData)), Call(GenerateMessage, MessageRequest(userData))]
  {
  }

  /** The worked example: account reply `{id: 1, name: "Ana"}` and a generated greeting. */
  lemma RegistrationExample()
    ensures Register(map["username" := Str("Ana"), "email" := Str("ana@x.com"), "password" := Str("secret1")],
                     Reply(201, Obj(map["id" := Num(1), "name" := Str("Ana")])),
                     Reply(200, Obj(map["message" := Str("Welcome, Ana! Glad to have you.")]))).result
            == Ok(map["id" := Num(1), "name" := Str("Ana"), "welcomeMessage" := Str("Welcome, Ana! Glad to have you.")])
  {
  }
}
