/** `RaiseHttpException`: the Faraday middleware that turns an error status
    into an exception once the answer is complete. 400 is split by the
    `error` tag of the parsed body, 403 and 500 each have one class, and any
    other status passes through. The parsed body is memoised in the
    middleware object, which the connection reuses for every request. */
module HttpStatus {
  import opened Wrappers
  import opened RubyValues

  /** The parts of Faraday's response env the middleware reads: the request
      method's text (`:get` gives "get"), the URL's text, the status and the
      body. */
  datatype Env = Env(verb: string, url: string, status: int, body: Body)

  /** The classes the middleware raises. */
  datatype ErrorClass = InvalidFieldError | UnknownApiError | ApiKeyInvalidError | InternalServerError

  /** What completing a response raises: an API error built from a message
      and the response, or a Ruby error met while building the message. */
  datatype Raised = ApiError(errorClass: ErrorClass, message: string, response: Env) | RubyError(error: Error)

  /** The outcome of completing one response and the memo left behind. */
  datatype Step = Step(outcome: Outcome<Raised>, memo: Value)

  const FALLBACK_500 := "The server returned an invalid or incomplete response."
  const INVALID_FIELD_VALUE := "InvalidFieldValueError"
  const UNKNOWN_ERROR := "UnknownError"

  // ---------------------------------------------------------------------------
  // The memoised parse

  /** What `parsed_response` yields: the memo while it is truthy, otherwise
      the body parsed. */
  function ParsedBody(memo: Value, body: Body): Result<Value, Error> {
    if Truthy(memo) then Success(memo) else ParseJson(body)
  }

  /** The memo after `parsed_response`: a truthy memo stays; otherwise a
      successful parse replaces it, falsy or not, and a failed one leaves it. */
  function NextMemo(memo: Value, body: Body): (m: Value)
    ensures Truthy(memo) ==> m == memo
    ensures ParsedBody(memo, body).Success? ==> m == ParsedBody(memo, body).value
    ensures ParsedBody(memo, body).Failure? ==> m == memo
  {
    if Truthy(memo) then memo else if body.Json? then body.value else memo
  }

  // ---------------------------------------------------------------------------
  // Messages

  /** `error_message400`: upper-cased method, URL, status and the body's
      `description` as text (empty when missing); only a Hash answers
      `[:description]`. */
  function Message400(env: Env, parsed: Value): (r: Result<string, Error>)
    ensures r.Success? <==> parsed.Hash?
    ensures r.Failure? ==> r.error == Fetch(parsed, "description").error
  {
    var description :- Fetch(parsed, "description");
    Success(Upcase(env.verb) + " " + env.url + ": " + IntToDecimal(env.status) + " " + ToS(description))
  }

  /** `error_message500`: upper-cased method and URL, then the status with a
      colon and the detail joined by a space, a nil detail being dropped. */
  function Message500(env: Env, detail: Value): string {
    Upcase(env.verb) + " " + env.url + ": " + Join(Compact([Str(IntToDecimal(env.status) + ":"), detail]), " ")
  }

  /** A 400 or 403 message is the method in capitals, the URL, the status and
      the description's text, in that order. */
  lemma Message400Layout(env: Env, parsed: Value)
    requires parsed.Hash?
    ensures var text := Message400(env, parsed).value;
            var head := Upcase(env.verb);
            && text == head + " " + env.url + ": " + IntToDecimal(env.status) + " "
                       + ToS(Get(parsed.m, Sym("description")))
            && |head| == |env.verb|
            && forall k :: 0 <= k < |head| ==> !('a' <= head[k] <= 'z')
  {
  }

  /** A 500 message with a String detail ends in the status, a colon, a space
      and the detail. */
  lemma {:induction false} Message500WithDetail(env: Env, detail: string)
    ensures Message500(env, Str(detail)) ==
              Upcase(env.verb) + " " + env.url + ": " + IntToDecimal(env.status) + ": " + detail
  {
    var status := Str(IntToDecimal(env.status) + ":");
    assert Compact([Str(detail)]) == [Str(detail)] by {
      assert [Str(detail)][1..] == [];
    }
    assert Compact([status, Str(detail)]) == [status, Str(detail)] by {
      assert [status, Str(detail)][1..] == [Str(detail)];
    }
    assert [status, Str(detail)][1..] == [Str(detail)];
    assert Join([Str(detail)], " ") == detail;
    assert Join([status, Str(detail)], " ") == status.s + " " + detail;
  }

  /** Without a detail the nil is compacted away and the message ends in the
      status and its colon. */
  lemma {:induction false} Message500WithoutDetail(env: Env)
    ensures Message500(env, Nil) == Upcase(env.verb) + " " + env.url + ": " + IntToDecimal(env.status) + ":"
  {
    var status := Str(IntToDecimal(env.status) + ":");
    assert [status, Nil][1..] == [Nil];
    assert Compact([Nil]) == [] by {
      assert [Nil][1..] == [];
    }
    assert Compact([status, Nil]) == [status];
    assert Join([status], " ") == status.s;
  }

  // ---------------------------------------------------------------------------
  // Classification

  /** `error_handler400`: the `error` tag, or "UnknownError" when it is nil or
      false, chooses between the two 400 classes; both carry the 400 message. */
  function Handle400(env: Env, memo: Value): (r: Step)
    ensures r.memo == NextMemo(memo, env.body)
    ensures r.outcome.Fail?
  {
    var next := NextMemo(memo, env.body);
    match ParsedBody(memo, env.body)
    case Failure(e) => Step(Fail(RubyError(e)), next)
    case Success(parsed) =>
      match Fetch(parsed, "error")
      case Failure(e) => Step(Fail(RubyError(e)), next)
      case Success(tag) =>
        var error := if Truthy(tag) then tag else Str(UNKNOWN_ERROR);
        var message := Message400(env, parsed).value;
        if error == Str(INVALID_FIELD_VALUE) then Step(Fail(ApiError(InvalidFieldError, message, env)), next)
        else Step(Fail(ApiError(UnknownApiError, message, env)), next)
  }

  /** The status `case` of `call`. Only 400, 403 and 500 raise; the API
      errors carry the response; 403 always gives `ApiKeyInvalidError` and
      500 always `InternalServerError` with the fixed detail, never looking at
      the body or the memo. */
  function Classify(env: Env, memo: Value): (r: Step)
    ensures r.outcome.Pass? <==> env.status !in {400, 403, 500}
    ensures r.outcome.Fail? && r.outcome.error.ApiError? ==> r.outcome.error.response == env
    ensures r.outcome.Fail? && r.outcome.error.ApiError? ==>
              (r.outcome.error.errorClass in {InvalidFieldError, UnknownApiError} <==> env.status == 400)
    ensures env.status == 403 && r.outcome.error.ApiError? ==> r.outcome.error.errorClass == ApiKeyInvalidError
    ensures env.status == 500 ==>
              r == Step(Fail(ApiError(InternalServerError, Message500(env, Str(FALLBACK_500)), env)), memo)
    ensures env.status in {400, 403} ==> r.memo == NextMemo(memo, env.body)
    ensures env.status !in {400, 403} ==> r.memo == memo
  {
    if env.status == 400 then Handle400(env, memo)
    else if env.status == 403 then
      var next := NextMemo(memo, env.body);
      match ParsedBody(memo, env.body)
      case Failure(e) => Step(Fail(RubyError(e)), next)
      case Success(parsed) =>
        match Message400(env, parsed)
        case Failure(e) => Step(Fail(RubyError(e)), next)
        case Success(message) => Step(Fail(ApiError(ApiKeyInvalidError, message, env)), next)
    else if env.status == 500 then
      Step(Fail(ApiError(InternalServerError, Message500(env, Str(FALLBACK_500)), env)), memo)
    else Step(Pass, memo)
  }

  /** Two outcomes that raise the same: both pass, or both raise the same
      Ruby error, or both raise an API error of the same class with the same
      message (the response each carries aside). */
  predicate SameError(a: Outcome<Raised>, b: Outcome<Raised>) {
    match a
    case Pass => b.Pass?
    case Fail(RubyError(e)) => b == Fail(RubyError(e))
    case Fail(ApiError(cls, message, _)) =>
      b.Fail? && b.error.ApiError? && b.error.errorClass == cls && b.error.message == message
  }

  /** A 400 whose parsed body is a Hash raises `InvalidFieldError` exactly
      when its `error` is "InvalidFieldValueError", `UnknownApiError`
      otherwise (a missing tag included), always with the 400 message, and
      the parsed body becomes the memo. */
  lemma Status400Classes(env: Env, memo: Value)
    requires env.status == 400
    requires ParsedBody(memo, env.body).Success? && ParsedBody(memo, env.body).value.Hash?
    ensures var parsed := ParsedBody(memo, env.body).value;
            var cls := if Get(parsed.m, Sym("error")) == Str(INVALID_FIELD_VALUE) then InvalidFieldError
                       else UnknownApiError;
            Classify(env, memo) == Step(Fail(ApiError(cls, Message400(env, parsed).value, env)), parsed)
  {
  }

  /** A 403 ignores the body's `error` tag: two bodies with the same
      description raise the same error. */
  lemma Status403IgnoresTag(env: Env, tag: Value, otherTag: Value, m: map<Value, Value>)
    requires env.status == 403 && env.body == Json(Hash(m[Sym("error") := tag]))
    ensures var other := env.(body := Json(Hash(m[Sym("error") := otherTag])));
            Classify(env, Nil).outcome == Fail(ApiError(ApiKeyInvalidError, Message400(env, Hash(m[Sym("error") := tag])).value, env))
            && Classify(other, Nil).outcome.error.message == Classify(env, Nil).outcome.error.message
  {
    var other := env.(body := Json(Hash(m[Sym("error") := otherTag])));
    assert Get(m[Sym("error") := tag], Sym("description")) == Get(m[Sym("error") := otherTag], Sym("description"));
  }

  /** A 500 is classified the same whatever its body, and leaves the memo. */
  lemma Status500NeverParses(env: Env, body: Body, memo: Value)
    requires env.status == 500
    ensures SameError(Classify(env, memo).outcome, Classify(env.(body := body), memo).outcome)
    ensures Classify(env, memo).memo == memo
    ensures Classify(env, memo).outcome.error.message ==
              Upcase(env.verb) + " " + env.url + ": " + IntToDecimal(env.status) + ": " + FALLBACK_500
  {
    Message500WithDetail(env, FALLBACK_500);
  }

  /** With no memo, a 400 or 403 body that does not parse raises the parser's
      error instead of an API error, and the memo stays empty. */
  lemma UnparseableBodyRaisesParseError(env: Env)
    requires env.status in {400, 403} && env.body == NotJson
    ensures Classify(env, Nil) == Step(Fail(RubyError(ParseError)), Nil)
  {
  }

  /** The memo outlives the response: once a 400 or 403 body parsed to a
      truthy value, a later 400 or 403 on the same middleware object is
      classified as if it had carried that first body. */
  lemma SecondResponseReusesFirstBody(first: Env, second: Env, memo: Value)
    requires !Truthy(memo)
    requires first.status in {400, 403} && first.body.Json? && Truthy(first.body.value)
    ensures SameError(Classify(second, Classify(first, memo).memo).outcome,
                      Classify(second.(body := first.body), memo).outcome)
  {
    assert Classify(first, memo).memo == first.body.value;
    assert ParsedBody(first.body.value, second.body) == ParsedBody(memo, first.body);
  }

  // ---------------------------------------------------------------------------
  // The middleware object

  class RaiseHttpException {
    /** `@parsed_response`, nil until a 400 or 403 body is parsed. */
    var parsedMemo: Value

    /** `initialize`: nothing parsed yet. */
    constructor ()
      ensures parsedMemo == Nil
    {
      parsedMemo := Nil;
    }

    /** `parsed_response(response)`: parse once, keeping a truthy result. */
    method ParsedResponse(env: Env) returns (r: Result<Value, Error>)
      modifies this
      ensures r == ParsedBody(old(parsedMemo), env.body)
      ensures parsedMemo == NextMemo(old(parsedMemo), env.body)
    {
      if Truthy(parsedMemo) {
        return Success(parsedMemo);
      }
      r := ParseJson(env.body);
      if r.Success? {
        parsedMemo := r.value;
      }
    }

    /** `error_message400(response)`. */
    method ErrorMessage400(env: Env) returns (r: Result<string, Error>)
      modifies this
      ensures var parsed := ParsedBody(old(parsedMemo), env.body);
              r == (if parsed.Failure? then Failure(parsed.error) else Message400(env, parsed.value))
      ensures parsedMemo == NextMemo(old(parsedMemo), env.body)
    {
      var parsed := ParsedResponse(env);
      if parsed.Failure? {
        return Failure(parsed.error);
      }
      r := Message400(env, parsed.value);
    }

    /** `error_handler400(response)`: the tag is read from one
        `parsed_response` call and the message from a second, which finds the
        memo the first one set. */
    method ErrorHandler400(env: Env) returns (o: Outcome<Raised>)
      modifies this
      ensures Step(o, parsedMemo) == Handle400(env, old(parsedMemo))
    {
      var parsed := ParsedResponse(env);
      if parsed.Failure? {
        return Fail(RubyError(parsed.error));
      }
      var tag := Fetch(parsed.value, "error");
      if tag.Failure? {
        return Fail(RubyError(tag.error));
      }
      var error := if Truthy(tag.value) then tag.value else Str(UNKNOWN_ERROR);
      var message := ErrorMessage400(env);
      // the second parse returns the Hash the first one kept
      assert message.Success?;
      if error == Str(INVALID_FIELD_VALUE) {
        return Fail(ApiError(InvalidFieldError, message.value, env));
      }
      o := Fail(ApiError(UnknownApiError, message.value, env));
    }

    /** `call(env)` once the answer is complete. */
    method Call(env: Env) returns (o: Outcome<Raised>)
      modifies this
      ensures Step(o, parsedMemo) == Classify(env, old(parsedMemo))
    {
      if env.status == 400 {
        o := ErrorHandler400(env);
      } else if env.status == 403 {
        var message := ErrorMessage400(env);
        match message
        case Failure(e) =>
          o := Fail(RubyError(e));
        case Success(text) =>
          o := Fail(ApiError(ApiKeyInvalidError, text, env));
      } else if env.status == 500 {
        o := Fail(ApiError(InternalServerError, Message500(env, Str(FALLBACK_500)), env));
      } else {
        o := Pass;
      }
    }
  }
}
