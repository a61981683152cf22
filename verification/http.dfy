/**
 The HTTP calls the system makes, as the callers see them: which endpoint
 was posted to with which JSON body, and what came back.
 */
module Http {
  import opened Values

  /** The account service's two routes and the message service's one. */
  datatype Endpoint = AccountRegister | AccountLogin | GenerateMessage

  /** One POST request with a JSON object body. */
  datatype Call = Call(endpoint: Endpoint, body: Object)

  /**
   What one exchange yields to a caller: no response at all (network
   failure, refused connection), or a status with its decoded body.
   */
  datatype Outcome = NoResponse | Reply(status: int, body: Value)

  /** The 2xx range that both axios and `fetch`'s `response.ok` treat as success. */
  predicate IsOk(status: int) {
    200 <= status < 300
  }

  predicate Succeeded(o: Outcome) {
    o.Reply? && IsOk(o.status)
  }
}
