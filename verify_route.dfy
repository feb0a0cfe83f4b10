/** `POST /api/verify`: copy (a title and a body) checked against the
    product parameters, or merely polished when there are none; the
    provider's JSON verdict is passed through as it is. */
module VerifyRoute {
  import opened Text
  import opened Js
  import opened Registry
  import opened Prompt
  import opened Completion
  import opened ExtractJson

  datatype VerifyRequest = VerifyRequest(
    params: JsValue, title: JsValue, content: JsValue,
    apiKey: JsValue, endpoint: JsValue, model: JsValue)

  const NoCopy := "请输入标题或正文"
  const Fallback := "校核失败，请重试"

  /** A title or body the blank check lets through neither: absent, or only
      white space. */
  predicate Blank(v: JsValue)
  {
    v.Nullish() || (v.Str? && AllSpace(v.s))
  }

  /** The `{{TITLE}}` and `{{CONTENT}}` slots with their fallback wordings. */
  function CopySlots(title: JsValue, content: JsValue): seq<(string, string)>
  {
    [("{{TITLE}}", TextSlot(title, UntitledText)), ("{{CONTENT}}", TextSlot(content, EmptyBodyText))]
  }

  /** The prompt: with parameters, the verification template with the
      parameters pretty-printed as JSON; without, the plain polish template. */
  function VerifyPrompt(cat: Catalog, rt: Runtime, req: VerifyRequest): string
  {
    if HasParams(req.params) then
      FillSlots(cat.verifyPrompt, [("{{PARAMS}}", rt.stringify(req.params))] + CopySlots(req.title, req.content))
    else
      FillSlots(cat.simplePolishPrompt, CopySlots(req.title, req.content))
  }

  /** The guards and the request: a falsy `apiKey`, then a title and a body
      that are both blank, are answered with a 400. The body is only trimmed
      when the title is blank, and a value with no `trim` method throws. */
  function Prepare(cat: Catalog, rt: Runtime, req: VerifyRequest): Outcome<ChatRequest>
  {
    if !Truthy(req.apiKey) then Respond(400, Str(NoApiKey))
    else
      match OptionalTrim(req.title, "title?.trim")
      case Raises(t) => Raise(t)
      case Returns(title) =>
        var go := Proceed(Chat(req.endpoint, req.apiKey, req.model, VerifyPrompt(cat, rt, req), 0.1, 2000));
        if Truthy(title) then go
        else
          match OptionalTrim(req.content, "content?.trim")
          case Raises(t) => Raise(t)
          case Returns(content) => if Truthy(content) then go else Respond(400, Str(NoCopy))
  }

  /** The verdict: the reply text through `extractJSON`, unvalidated. */
  function Conclude(rt: Runtime, reply: Reply): Outcome<JsValue>
  {
    match Complete(rt.parse, reply)
    case Respond(status, error) => Respond(status, error)
    case Raise(t) => Raise(t)
    case Proceed(content) =>
      match ExtractJSON(rt.parse, content)
      case Raises(t) => Raise(t)
      case Returns(result) => Proceed(result)
  }

  /** The handler; the payload is the `result` member of the 200 response. */
  function Post(cat: Catalog, rt: Runtime, req: VerifyRequest, provider: ChatRequest -> Reply): Response<JsValue>
  {
    var o := match Prepare(cat, rt, req)
      case Proceed(chat) => Conclude(rt, provider(chat))
      case Respond(status, error) => Respond(status, error)
      case Raise(t) => Raise(t);
    Catch(o, Fallback)
  }

  /** Which requests reach the provider: one with an API key whose title is
      a non-blank string, or whose title is blank and body a non-blank
      string. An API key missing, or both fields blank, gets a 400 whatever
      the provider would have said. */
  lemma Guards(cat: Catalog, rt: Runtime, req: VerifyRequest, provider: ChatRequest -> Reply)
    ensures Prepare(cat, rt, req).Proceed? <==>
              && Truthy(req.apiKey)
              && ((req.title.Str? && !AllSpace(req.title.s))
                  || (Blank(req.title) && req.content.Str? && !AllSpace(req.content.s)))
    ensures !Truthy(req.apiKey) ==> Post(cat, rt, req, provider) == Fail(400, Str(NoApiKey))
    ensures Truthy(req.apiKey) && Blank(req.title) && Blank(req.content)
            ==> Post(cat, rt, req, provider) == Fail(400, Str(NoCopy))
  {
    if req.title.Str? { TrimEmptyIff(req.title.s); }
    if req.content.Str? { TrimEmptyIff(req.content.s); }
  }

  /** The template follows the parameters: an object with properties selects
      verification with those parameters in the prompt; no parameters, or an
      empty object, selects plain polishing. Settings are 0.1 and 2000; the
      request goes to the configured endpoint and model with the key as a
      bearer token. */
  lemma TemplateChoice(cat: Catalog, rt: Runtime, req: VerifyRequest)
    requires Prepare(cat, rt, req).Proceed?
    ensures var chat := Prepare(cat, rt, req).value;
            && chat.temperature == 0.1 && chat.maxTokens == 2000
            && chat.authorization == "Bearer " + ToString(req.apiKey)
            && chat.endpoint == req.endpoint && chat.model == req.model
    ensures req.params.Object? && |req.params.props| > 0 ==>
              Prepare(cat, rt, req).value.prompt
              == FillSlots(cat.verifyPrompt, [("{{PARAMS}}", rt.stringify(req.params))] + CopySlots(req.title, req.content))
    ensures req.params.Nullish() || req.params == Object([]) ==>
              Prepare(cat, rt, req).value.prompt == FillSlots(cat.simplePolishPrompt, CopySlots(req.title, req.content))
  {
    HasParamsIff(req.params);
  }

  /** Whatever JSON value the provider's reply yields is the verdict, as it
      is; a non-OK answer is forwarded with its status; reply text that
      `extractJSON` cannot read makes a 500 saying so, and an OK answer
      without content makes the 500 "AI 未返回有效内容". */
  lemma Answers(cat: Catalog, rt: Runtime, req: VerifyRequest, provider: ChatRequest -> Reply)
    requires Prepare(cat, rt, req).Proceed?
    ensures var reply := provider(Prepare(cat, rt, req).value);
            reply.Answered? && !reply.ok ==>
              Post(cat, rt, req, provider) == Fail(reply.status, ProviderMessage(rt.parse, reply.status, reply.body))
    ensures var c := Complete(rt.parse, provider(Prepare(cat, rt, req).value));
            c.Proceed? && ExtractJSON(rt.parse, c.value).Returns? ==>
              Post(cat, rt, req, provider) == Done(ExtractJSON(rt.parse, c.value).value)
    ensures var c := Complete(rt.parse, provider(Prepare(cat, rt, req).value));
            c.Proceed? && c.value.Str? && Extract(rt.parse, c.value.s).Raises? ==>
              Post(cat, rt, req, provider) == Fail(500, Str(Unparsable))
    ensures var reply := provider(Prepare(cat, rt, req).value);
            reply.Answered? && reply.ok && rt.parse(reply.body).Parsed? && !rt.parse(reply.body).value.Nullish()
            && !Truthy(ReplyContent(rt.parse(reply.body).value)) ==>
              Post(cat, rt, req, provider) == Fail(500, Str(NoContent))
  {
    var c := Complete(rt.parse, provider(Prepare(cat, rt, req).value));
    if c.Proceed? && c.value.Str? {
      ExtractFailsIff(rt.parse, c.value.s);
    }
  }
}
