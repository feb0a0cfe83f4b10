/** `POST /api/parse`: free-form parameter text in, the provider's structured
    reading of it (a JSON value) out. */
module ParseRoute {
  import opened Text
  import opened Js
  import opened Registry
  import opened Completion
  import opened ExtractJson

  /** The fields the handler destructures from the request body; a field the
      body lacks is `Undefined`. */
  datatype ParseRequest = ParseRequest(text: JsValue, apiKey: JsValue, endpoint: JsValue, model: JsValue)

  const NoText := "请输入参数文本"
  const Fallback := "参数解析失败，请重试"

  /** The guards and the request to the provider: a falsy `apiKey`, then a
      `text` that is absent or blank, are answered with a 400; a `text` with
      no `trim` method throws. */
  function Prepare(cat: Catalog, req: ParseRequest): Outcome<ChatRequest>
  {
    if !Truthy(req.apiKey) then Respond(400, Str(NoApiKey))
    else
      match OptionalTrim(req.text, "text?.trim")
      case Raises(t) => Raise(t)
      case Returns(trimmed) =>
        if !Truthy(trimmed) then Respond(400, Str(NoText))
        else Proceed(Chat(req.endpoint, req.apiKey, req.model, cat.parsePrompt + ToString(req.text), 0.1, 1000))
  }

  /** The provider's answer to the parsed parameters: the reply text through
      `extractJSON`. */
  function Conclude(rt: Runtime, reply: Reply): Outcome<JsValue>
  {
    match Complete(rt.parse, reply)
    case Respond(status, error) => Respond(status, error)
    case Raise(t) => Raise(t)
    case Proceed(content) =>
      match ExtractJSON(rt.parse, content)
      case Raises(t) => Raise(t)
      case Returns(params) => Proceed(params)
  }

  /** The handler; `provider` is the HTTP exchange `fetch` performs. The
      payload is the `params` member of the 200 response. */
  function Post(cat: Catalog, rt: Runtime, req: ParseRequest, provider: ChatRequest -> Reply): Response<JsValue>
  {
    var o := match Prepare(cat, req)
      case Proceed(chat) => Conclude(rt, provider(chat))
      case Respond(status, error) => Respond(status, error)
      case Raise(t) => Raise(t);
    Catch(o, Fallback)
  }

  /** The guards answer in order, before any request is sent: a missing API
      key first, then missing or blank text; anything but a string or a
      missing value in `text` makes a 500 with V8's TypeError message. */
  lemma Guards(cat: Catalog, rt: Runtime, req: ParseRequest, provider: ChatRequest -> Reply)
    ensures !Truthy(req.apiKey) ==> Post(cat, rt, req, provider) == Fail(400, Str(NoApiKey))
    ensures Truthy(req.apiKey) && (req.text.Nullish() || (req.text.Str? && AllSpace(req.text.s)))
            ==> Post(cat, rt, req, provider) == Fail(400, Str(NoText))
    ensures Truthy(req.apiKey) && !req.text.Nullish() && !req.text.Str?
            ==> Post(cat, rt, req, provider) == Fail(500, Str(NotAFunction("text?.trim")))
  {
    if req.text.Str? { TrimEmptyIff(req.text.s); }
  }

  /** A request reaches the provider exactly when there is an API key and a
      non-blank text; the prompt is the parse instructions followed by the
      text as sent, untrimmed, at temperature 0.1 with at most 1000 tokens. */
  lemma Request(cat: Catalog, req: ParseRequest)
    ensures Prepare(cat, req).Proceed? <==> Truthy(req.apiKey) && req.text.Str? && !AllSpace(req.text.s)
    ensures Prepare(cat, req).Proceed? ==>
              var chat := Prepare(cat, req).value;
              && chat.prompt == cat.parsePrompt + req.text.s
              && chat.temperature == 0.1 && chat.maxTokens == 1000
              && chat.authorization == "Bearer " + ToString(req.apiKey)
              && chat.endpoint == req.endpoint && chat.model == req.model
  {
    if req.text.Str? { TrimEmptyIff(req.text.s); }
  }

  /** Once the request is sent: a non-OK answer is forwarded with its status;
      reply text that `extractJSON` reads is the payload, as it is; reply
      text it cannot read makes a 500 saying so, and an OK answer without
      content makes the 500 "AI 未返回有效内容". */
  lemma Answers(cat: Catalog, rt: Runtime, req: ParseRequest, provider: ChatRequest -> Reply)
    requires Prepare(cat, req).Proceed?
    ensures var reply := provider(Prepare(cat, req).value);
            reply.Answered? && !reply.ok ==>
              Post(cat, rt, req, provider) == Fail(reply.status, ProviderMessage(rt.parse, reply.status, reply.body))
    ensures var c := Complete(rt.parse, provider(Prepare(cat, req).value));
            c.Proceed? && ExtractJSON(rt.parse, c.value).Returns? ==>
              Post(cat, rt, req, provider) == Done(ExtractJSON(rt.parse, c.value).value)
    ensures var c := Complete(rt.parse, provider(Prepare(cat, req).value));
            c.Proceed? && c.value.Str? && Extract(rt.parse, c.value.s).Raises? ==>
              Post(cat, rt, req, provider) == Fail(500, Str(Unparsable))
    ensures var reply := provider(Prepare(cat, req).value);
            reply.Answered? && reply.ok && rt.parse(reply.body).Parsed? && !rt.parse(reply.body).value.Nullish()
            && !Truthy(ReplyContent(rt.parse(reply.body).value)) ==>
              Post(cat, rt, req, provider) == Fail(500, Str(NoContent))
  {
    var c := Complete(rt.parse, provider(Prepare(cat, req).value));
    if c.Proceed? && c.value.Str? {
      ExtractFailsIff(rt.parse, c.value.s);
    }
  }

  /** Nothing the provider can say makes the route respond 200 with anything
      but a value one of the three extraction attempts parsed. */
  lemma SuccessIsExtracted(cat: Catalog, rt: Runtime, req: ParseRequest, provider: ChatRequest -> Reply)
    requires Post(cat, rt, req, provider).Done?
    ensures Prepare(cat, req).Proceed?
    ensures var c := Complete(rt.parse, provider(Prepare(cat, req).value));
            && c.Proceed? && c.value.Str?
            && exists cand :: cand in Candidates(Trim(c.value.s))
                 && rt.parse(cand) == Parsed(Post(cat, rt, req, provider).payload)
  {
    var c := Complete(rt.parse, provider(Prepare(cat, req).value));
    assert c.Proceed?;
    assert c.value.Str?;
    ExtractSound(rt.parse, c.value.s, Post(cat, rt, req, provider).payload);
  }
}
