/** What a service sees of another service over HTTP: the requests it sends,
    recorded in order, and the reply each one gets, which the model takes as
    a parameter. */
module Http {
  import opened Documents

  datatype Verb = Get | Post

  /** One outbound request: verb, URL and JSON body (`VNone` for a GET). */
  datatype Call = Call(verb: Verb, url: string, body: Value)

  /** How a request ends: a reply with its status code and decoded JSON body,
      or one of the `httpx` transport errors the services tell apart.
      `ConnectTimeout` is not a `ConnectError`; `OtherError` stands for every
      other transport failure. */
  datatype HttpReply =
    | Reply(code: int, body: Value)
    | ConnectTimeout
    | ConnectError
    | OtherError

  /** Whether `response.json()['detail']` yields a value rather than raising. */
  predicate HasDetail(body: Value) {
    body.VDict? && "detail" in body.fields
  }

  /** The answer of a web API call: a value, or the HTTP error code it fails
      with. An `HTTPException` gives its own code and any exception the
      handler does not catch gives 500. */
  datatype Answer<T> = Done(value: T) | Fail(code: int)

  /** The code a service gets from the error-message path of a refused
      request, `response.json()['detail']` inside a `RuntimeError` or
      `HTTPException(400)`: the refusal itself when the body has a `detail`,
      the `KeyError`/`TypeError` of the lookup otherwise. */
  function RefusalCode(body: Value): (code: int)
    ensures code == 400 <==> HasDetail(body)
    ensures code == 400 || code == 500
  {
    if HasDetail(body) then 400 else 500
  }
}
