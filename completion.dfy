/** The chat-completion exchange every route performs: the request it sends,
    how a non-OK answer becomes an error response carrying the provider's
    message, how the reply text is dug out of an OK answer, and how the
    route's `catch` block turns a thrown value into a 500 response. */
module Completion {
  import opened Text
  import opened Js

  /** One `POST` to the provider's completion endpoint: a bearer token, the
      model name, a single user message holding the prompt, and the route's
      sampling settings. */
  datatype ChatRequest = ChatRequest(
    endpoint: JsValue,
    authorization: string,
    model: JsValue,
    prompt: string,
    temperature: real,
    maxTokens: nat)

  /** What the awaited `fetch` yields: a response with its `ok` flag, status
      and body text, or a rejection. */
  datatype Reply = Answered(ok: bool, status: nat, body: string) | Rejected(thrown: Thrown)

  /** How far a route's evaluation got: it goes on with a value, it has
      decided on an error response, or it is unwinding with a thrown value. */
  datatype Outcome<+T> = Proceed(value: T) | Respond(status: nat, error: JsValue) | Raise(thrown: Thrown)

  /** The response a route sends: `{ error }` with a status, or its success
      payload with status 200. */
  datatype Response<+T> = Fail(status: nat, error: JsValue) | Done(payload: T)

  const NoApiKey := "请先配置 API Key"
  const NoContent := "AI 未返回有效内容"

  /** The request a route sends for `prompt`; the header is built by a
      template literal from whatever `apiKey` holds. */
  function Chat(endpoint: JsValue, apiKey: JsValue, model: JsValue, prompt: string,
                temperature: real, maxTokens: nat): (r: ChatRequest)
    ensures |r.authorization| >= 7 && r.authorization[..7] == "Bearer "
    ensures apiKey.Str? ==> r.authorization[7..] == apiKey.s
  {
    ChatRequest(endpoint, "Bearer " + ToString(apiKey), model, prompt, temperature, maxTokens)
  }

  /** The default message for a provider failure with `status`. */
  function RequestFailed(status: nat): string
  {
    "API 请求失败 (" + NatToString(status) + ")"
  }

  /** The error a route forwards for a non-OK answer: the body's
      `error.message` when the body is JSON and that member is truthy, the
      default message otherwise (a body that is not JSON, or is JSON `null`,
      makes the inner `try` fall back silently). */
  function ProviderMessage(parse: string -> ParseResult, status: nat, body: string): (m: JsValue)
    ensures if parse(body).Parsed? && !parse(body).value.Nullish()
               && Truthy(OptGet(Member(parse(body).value, "error"), "message"))
            then m == OptGet(Member(parse(body).value, "error"), "message")
            else m == Str(RequestFailed(status))
  {
    match parse(body)
    case SyntaxError(_) => Str(RequestFailed(status))
    case Parsed(errJson) =>
      if errJson.Nullish() then Str(RequestFailed(status))
      else
        var m := OptGet(Member(errJson, "error"), "message");
        if Truthy(m) then m else Str(RequestFailed(status))
  }

  /** What reaches the client for a non-OK answer is never falsy, and it is
      either the default message naming the status or the `error.message` of
      the body parsed as JSON. */
  lemma ProviderMessageCases(parse: string -> ParseResult, status: nat, body: string)
    ensures Truthy(ProviderMessage(parse, status, body))
    ensures var m := ProviderMessage(parse, status, body);
            || m == Str(RequestFailed(status))
            || (parse(body).Parsed? && !parse(body).value.Nullish()
                && m == OptGet(Member(parse(body).value, "error"), "message"))
  {
    assert |RequestFailed(status)| > 0;
  }

  /** A 429 whose JSON body says `{"error":{"message":"rate limited"}}` reaches
      the client as that message with status 429; a 429 with a body that is
      not JSON reaches it as the default message. */
  lemma RateLimited(parse: string -> ParseResult, body: string)
    ensures parse(body) == Parsed(Object([("error", Object([("message", Str("rate limited"))]))]))
            ==> Complete(parse, Answered(false, 429, body)) == Respond(429, Str("rate limited"))
    ensures parse(body).SyntaxError?
            ==> Complete(parse, Answered(false, 429, body)) == Respond(429, Str("API 请求失败 (429)"))
  {
    assert DigitChar(4) == '4' && DigitChar(2) == '2' && DigitChar(9) == '9';
    assert NatToString(42) == "42";
    assert NatToString(429) == "429";
    assert RequestFailed(429) == "API 请求失败 (429)";
    if parse(body).SyntaxError? {
      assert ProviderMessage(parse, 429, body) == Str(RequestFailed(429));
    }
  }

  /** `data.choices?.[0]?.message?.content` for a parsed body `data` that is
      neither `null` nor `undefined`. */
  function ReplyContent(data: JsValue): JsValue
    requires !data.Nullish()
  {
    OptGet(OptGet(OptGet(Member(data, "choices"), "0"), "message"), "content")
  }

  /** The reply text from an answer: a rejection unwinds; a non-OK answer is
      an error response with the same status; an OK body is parsed (a body
      that is not JSON throws) and `data.choices?.[0]?.message?.content` is
      taken, a falsy one becoming a 500. */
  function Complete(parse: string -> ParseResult, reply: Reply): (o: Outcome<JsValue>)
    ensures reply.Rejected? ==> o == Raise(reply.thrown)
    ensures reply.Answered? && !reply.ok ==> o == Respond(reply.status, ProviderMessage(parse, reply.status, reply.body))
    ensures reply.Answered? && reply.ok && o.Respond? ==> o == Respond(500, Str(NoContent))
    ensures o.Proceed? ==> reply.Answered? && reply.ok && Truthy(o.value)
    ensures reply.Answered? && reply.ok && parse(reply.body).SyntaxError?
            ==> o == Raise(ErrorObject(parse(reply.body).message))
    ensures reply.Answered? && reply.ok && parse(reply.body).Parsed? && parse(reply.body).value.Nullish()
            ==> o.Raise?
    ensures reply.Answered? && reply.ok && parse(reply.body).Parsed? && !parse(reply.body).value.Nullish()
            ==> o == (if Truthy(ReplyContent(parse(reply.body).value)) then Proceed(ReplyContent(parse(reply.body).value))
                      else Respond(500, Str(NoContent)))
  {
    match reply
    case Rejected(t) => Raise(t)
    case Answered(ok, status, body) =>
      if !ok then Respond(status, ProviderMessage(parse, status, body))
      else
        match parse(body)
        case SyntaxError(m) => Raise(ErrorObject(m))
        case Parsed(data) =>
          match Get(data, "choices")
          case Raises(t) => Raise(t)
          case Returns(choices) =>
            var content := ReplyContent(data);
            if Truthy(content) then Proceed(content) else Respond(500, Str(NoContent))
  }

  /** An OpenAI-style answer `{"choices":[{"message":{"content":c}}]}` yields
      `c` whenever `c` is truthy. */
  lemma CompleteReadsFirstChoice(parse: string -> ParseResult, status: nat, body: string, c: JsValue)
    requires parse(body) == Parsed(Object([("choices", Array([Object([("message", Object([("content", c)]))])]))]))
    requires Truthy(c)
    ensures Complete(parse, Answered(true, status, body)) == Proceed(c)
  {
    MemberIndex([Object([("message", Object([("content", c)]))])], 0);
  }

  /** The route's `catch`: an `Error` becomes a 500 with its message, any
      other thrown value a 500 with the route's fallback wording; responses
      decided before are sent as they are. */
  function Catch<T>(o: Outcome<T>, fallback: string): (r: Response<T>)
    ensures o.Proceed? <==> r.Done?
    ensures o.Proceed? ==> r.payload == o.value
    ensures o.Respond? ==> r == Fail(o.status, o.error)
    ensures o.Raise? && o.thrown.ErrorObject? ==> r == Fail(500, Str(o.thrown.message))
    ensures o.Raise? && o.thrown.OtherThrown? ==> r == Fail(500, Str(fallback))
  {
    match o
    case Proceed(v) => Done(v)
    case Respond(status, error) => Fail(status, error)
    case Raise(ErrorObject(m)) => Fail(500, Str(m))
    case Raise(OtherThrown(_)) => Fail(500, Str(fallback))
  }
}
