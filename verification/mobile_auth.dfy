/**
 The mobile client's `authService`: one `fetch` per operation, the body
 parsed before the status is looked at, and a non-2xx reply turned into
 an Error carrying the body's `error` text or a fixed fallback.
 */
module MobileAuth {
  import opened Values
  import opened Http

  /** How `response.json()` ended: a decoded value, or the parse error it threw. */
  datatype Parsed = Decoded(value: Value) | Malformed(cause: string)

  /** One `fetch`: it rejected (network failure), or a response arrived with a status and a body. */
  datatype FetchOutcome = NetworkError(cause: string) | Fetched(status: int, body: Parsed)

  /**
   What an operation throws: its own Error with a message; an error thrown
   by `fetch` or `response.json()` rethrown unchanged; or the TypeError of
   reading `.error` from a body that decoded to null.
   */
  datatype Failure = Raised(message: string) | Propagated(cause: string) | NullBody

  /** The one request an operation made, and what it resolved to or threw. */
  datatype Attempt = Attempt(call: Call, result: Result<Value, Failure>)

  /** The shared tail of both operations: parse, then inspect `response.ok`. */
  function Settle(outcome: FetchOutcome, fallback: string): (r: Result<Value, Failure>)
    ensures outcome.NetworkError? ==> r == Err(Propagated(outcome.cause))
    ensures outcome.Fetched? && outcome.body.Malformed? ==> r == Err(Propagated(outcome.body.cause))
    ensures outcome.Fetched? && outcome.body.Decoded? && IsOk(outcome.status) ==> r == Ok(outcome.body.value)
    ensures outcome.Fetched? && outcome.body.Decoded? && !IsOk(outcome.status) ==>
              match Property(outcome.body.value, "error")
              case None => r == Err(NullBody)
              case Some(e) => r == Err(Raised(ErrorText(e, fallback)))
    ensures r.Ok? <==> outcome.Fetched? && outcome.body.Decoded? && IsOk(outcome.status)
  {
    match outcome
    case NetworkError(cause) => Err(Propagated(cause))
    case Fetched(status, Malformed(cause)) => Err(Propagated(cause))
    case Fetched(status, Decoded(data)) =>
      if IsOk(status) then Ok(data)
      else
        match Property(data, "error")
        case None => Err(NullBody)
        case Some(e) => Err(Raised(ErrorText(e, fallback)))
  }

  /** `authService.login(email, password)`. */
  function Login(email: Value, password: Value, outcome: FetchOutcome): (a: Attempt)
    ensures a.call == Call(AccountLogin, Defined(map["email" := email, "password" := password]))
    ensures a.result.Ok? <==> outcome.Fetched? && outcome.body.Decoded? && IsOk(outcome.status)
    ensures a.result.Ok? ==> a.result.value == outcome.body.value
    ensures outcome.Fetched? && outcome.body.Decoded? && !IsOk(outcome.status) && outcome.body.value.Obj? ==>
              a.result == Err(Raised(ErrorText(Field(outcome.body.value.fields, "error"), "Login failed")))
    // transport and parse errors are rethrown unchanged; a non-2xx null body throws a TypeError
    ensures outcome.NetworkError? ==> a.result == Err(Propagated(outcome.cause))
    ensures outcome.Fetched? && outcome.body.Malformed? ==> a.result == Err(Propagated(outcome.body.cause))
    ensures outcome.Fetched? && outcome.body.Decoded? && !IsOk(outcome.status) && outcome.body.value.Null? ==>
              a.result == Err(NullBody)
    ensures a.result == Settle(outcome, "Login failed")
  {
    Attempt(Call(AccountLogin, Defined(map["email" := email, "password" := password])),
            Settle(outcome, "Login failed"))
  }

  /** `authService.register(email, password, name)`: one call to the account service, no greeting requested. */
  function Register(email: Value, password: Value, name: Value, outcome: FetchOutcome): (a: Attempt)
    ensures a.call.endpoint == AccountRegister
    ensures a.call.body == Defined(map["email" := email, "password" := password, "name" := name])
    ensures a.result.Ok? <==> outcome.Fetched? && outcome.body.Decoded? && IsOk(outcome.status)
    ensures a.result.Ok? ==> a.result.value == outcome.body.value
    ensures outcome.Fetched? && outcome.body.Decoded? && !IsOk(outcome.status) && outcome.body.value.Obj? ==>
              a.result == Err(Raised(ErrorText(Field(outcome.body.value.fields, "error"), "Registration failed")))
    // transport and parse errors are rethrown unchanged; a non-2xx null body throws a TypeError
    ensures outcome.NetworkError? ==> a.result == Err(Propagated(outcome.cause))
    ensures outcome.Fetched? && outcome.body.Malformed? ==> a.result == Err(Propagated(outcome.body.cause))
    ensures outcome.Fetched? && outcome.body.Decoded? && !IsOk(outcome.status) && outcome.body.value.Null? ==>
              a.result == Err(NullBody)
    ensures a.result == Settle(outcome, "Registration failed")
  {
    Attempt(Call(AccountRegister, Defined(map["email" := email, "password" := password, "name" := name])),
            Settle(outcome, "Registration failed"))
  }

  // ---------------------------------------------------------------------
  // Properties

  /** With string arguments the register body is exactly `{email, password, name}`, empty strings included. */
  lemma RegisterSendsArguments(email: string, password: string, name: string, outcome: FetchOutcome)
    ensures Register(Str(email), Str(password), Str(name), outcome).call.body
            == map["email" := Str(email), "password" := Str(password), "name" := Str(name)]
  {
  }

  /** Parse and transport errors surface unchanged whatever the status was. */
  lemma ParseFailureIgnoresStatus(s1: int, s2: int, cause: string, fallback: string)
    ensures Settle(Fetched(s1, Malformed(cause)), fallback) == Settle(Fetched(s2, Malformed(cause)), fallback)
                                                          == Err(Propagated(cause))
  {
  }
}
