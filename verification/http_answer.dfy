/** What both request classes share: the GET they hand to the HTTP client and
    the parse of the answer's body, kept in a memo once it is truthy. The HTTP
    client and the JSON parser are not modelled: the answer arrives as a
    `Body` that is either a parsed JSON value or text that does not parse. */
module HttpAnswer {
  import opened Wrappers
  import opened RubyValues

  /** What the HTTP client is asked for: a GET of `url` with `params`. */
  datatype HttpGet = HttpGet(url: string, params: map<Value, Value>)

  /** The parsed body `json_response` yields from its memo and the stored
      answer: the memo while it is truthy, otherwise the answer's body parsed
      (no answer yet means nil has no `body`). */
  function JsonOf(memo: Value, response: Option<Body>): (r: Result<Value, Error>)
    ensures Truthy(memo) ==> r == Success(memo)
    ensures !Truthy(memo) && response.None? ==> r == Failure(NoMethodError("body"))
    ensures !Truthy(memo) && response.Some? ==> (r.Success? <==> response.value.Json?)
  {
    if Truthy(memo) then Success(memo)
    else if response.None? then Failure(NoMethodError("body"))
    else ParseJson(response.value)
  }
}
