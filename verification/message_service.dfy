/**
 The message service's `/generate-message` handler. The text generator it
 calls is an oracle: its completion is a parameter, None when the call
 (or reading the first choice out of its answer) throws.
 */
module MessageService {
  import opened Values
  import opened Http

  const GenerationFailed := "Failed to generate message"

  /**
   The reply to one request. Any exception inside the handler gives the
   same 500 body; that includes destructuring a request body the JSON
   parser left undefined (a request without a JSON body, with the parser
   of Express 5). The generated text is passed on without trimming or
   length check.
   */
  function GenerateMessage(request: Value, completion: Option<Value>): (r: Outcome)
    ensures r.Reply? && r.body.Obj?
    ensures r.status == 200 || r == Reply(500, Obj(map["error" := Str(GenerationFailed)]))
    ensures r.status == 200 <==> completion.Some? && !(request.Null? || request.Undefined?)
    ensures r.status == 200 && completion.value != Undefined ==> r.body.fields == map["message" := completion.value]
    ensures r.status == 200 && completion.value == Undefined ==> r.body.fields == map[]
  {
    match Property(request, "name")
    case None => Reply(500, Obj(map["error" := Str(GenerationFailed)]))
    case Some(_) =>
      match completion
      case None => Reply(500, Obj(map["error" := Str(GenerationFailed)]))
      case Some(content) => Reply(200, Obj(Defined(map["message" := content])))
  }
}
