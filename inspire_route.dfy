/** `POST /api/inspire`: a handful of angle ideas ("inspirations") for
    rewriting the copy in a chosen polish direction. */
module InspireRoute {
  import opened Text
  import opened Js
  import opened Registry
  import opened Prompt
  import opened Completion
  import opened ExtractJson

  datatype InspireRequest = InspireRequest(
    params: JsValue, title: JsValue, content: JsValue, direction: JsValue,
    apiKey: JsValue, endpoint: JsValue, model: JsValue)

  const NoDirection := "请选择润色方向"
  const UnknownDirection := "无效的润色方向"
  const NoIdeas := "AI 未能生成有效灵感"
  const Fallback := "灵感生成失败，请重试"

  /** The guards and the request: a falsy `apiKey`, a falsy `direction`, then
      a direction the registry does not know, are answered with a 400. The
      full template is used when parameters were supplied. */
  function Prepare(cat: Catalog, rt: Runtime, req: InspireRequest): Outcome<ChatRequest>
  {
    if !Truthy(req.apiKey) then Respond(400, Str(NoApiKey))
    else if !Truthy(req.direction) then Respond(400, Str(NoDirection))
    else
      match cat.directionByKey(req.direction)
      case None => Respond(400, Str(UnknownDirection))
      case Some(d) =>
        var template := if HasParams(req.params) then cat.inspirePrompt else cat.simpleInspirePrompt;
        var prompt := FillSlots(template, DirectionSlots(rt, req.params, req.title, req.content, d));
        Proceed(Chat(req.endpoint, req.apiKey, req.model, prompt, 0.8, 1500))
  }

  /** The ideas from an extracted result: its `inspirations` member when that
      is a non-empty array, a 500 otherwise; a `null` result throws. */
  function Ideas(result: JsValue): (o: Outcome<JsValue>)
  {
    match Get(result, "inspirations")
    case Raises(t) => Raise(t)
    case Returns(ideas) =>
      if !Truthy(ideas) || !ideas.Array? || Member(ideas, "length") == Number("0") then Respond(500, Str(NoIdeas))
      else Proceed(ideas)
  }

  /** `Ideas` accepts exactly a non-empty array under `inspirations`, and
      hands it on unchanged; everything else short of `null` and `undefined`
      gets the 500. */
  lemma IdeasIff(result: JsValue)
    ensures result.Nullish() <==> Ideas(result).Raise?
    ensures !result.Nullish() ==>
              (Ideas(result).Proceed? <==> Member(result, "inspirations").Array? && |Member(result, "inspirations").elems| > 0)
    ensures Ideas(result).Proceed? ==> Ideas(result).value == Member(result, "inspirations")
    ensures !result.Nullish() && !Ideas(result).Proceed? ==> Ideas(result) == Respond(500, Str(NoIdeas))
  {
    if !result.Nullish() {
      var ideas := Member(result, "inspirations");
      if ideas.Array? {
        LengthTruthy(|ideas.elems|);
      }
    }
  }

  function Conclude(rt: Runtime, reply: Reply): Outcome<JsValue>
  {
    match Complete(rt.parse, reply)
    case Respond(status, error) => Respond(status, error)
    case Raise(t) => Raise(t)
    case Proceed(content) =>
      match ExtractJSON(rt.parse, content)
      case Raises(t) => Raise(t)
      case Returns(result) => Ideas(result)
  }

  /** The handler; the payload is the `inspirations` member of the 200
      response. */
  function Post(cat: Catalog, rt: Runtime, req: InspireRequest, provider: ChatRequest -> Reply): Response<JsValue>
  {
    var o := match Prepare(cat, rt, req)
      case Proceed(chat) => Conclude(rt, provider(chat))
      case Respond(status, error) => Respond(status, error)
      case Raise(t) => Raise(t);
    Catch(o, Fallback)
  }

  /** The guards answer in order and before any request is sent: API key,
      then a chosen direction, then a known one. */
  lemma Guards(cat: Catalog, rt: Runtime, req: InspireRequest, provider: ChatRequest -> Reply)
    ensures Prepare(cat, rt, req).Proceed? <==>
              Truthy(req.apiKey) && Truthy(req.direction) && cat.directionByKey(req.direction).Some?
    ensures !Truthy(req.apiKey) ==> Post(cat, rt, req, provider) == Fail(400, Str(NoApiKey))
    ensures Truthy(req.apiKey) && !Truthy(req.direction) ==> Post(cat, rt, req, provider) == Fail(400, Str(NoDirection))
    ensures Truthy(req.apiKey) && Truthy(req.direction) && cat.directionByKey(req.direction).None?
            ==> Post(cat, rt, req, provider) == Fail(400, Str(UnknownDirection))
  {
  }

  /** The request sent for a known direction: the full template exactly when
      parameters were supplied, with `{}` standing in for absent ones, the
      direction's own label and description, at 0.8 and 1500 tokens, to the
      configured endpoint and model with the key as a bearer token. */
  lemma Request(cat: Catalog, rt: Runtime, req: InspireRequest)
    requires Prepare(cat, rt, req).Proceed?
    ensures var chat := Prepare(cat, rt, req).value;
            var d := cat.directionByKey(req.direction).value;
            && chat.temperature == 0.8 && chat.maxTokens == 1500
            && chat.authorization == "Bearer " + ToString(req.apiKey)
            && chat.endpoint == req.endpoint && chat.model == req.model
            && (HasParams(req.params) ==> chat.prompt == FillSlots(cat.inspirePrompt, DirectionSlots(rt, req.params, req.title, req.content, d)))
            && (!HasParams(req.params) ==> chat.prompt == FillSlots(cat.simpleInspirePrompt, DirectionSlots(rt, req.params, req.title, req.content, d)))
    ensures req.params.Nullish() || req.params == Object([]) ==>
              Prepare(cat, rt, req).value.prompt
              == FillSlots(cat.simpleInspirePrompt, DirectionSlots(rt, req.params, req.title, req.content, cat.directionByKey(req.direction).value))
  {
    HasParamsIff(req.params);
  }

  /** How the route fails once the request is sent: a non-OK answer is
      forwarded with its status and message, an OK answer without content
      makes the 500 "AI 未返回有效内容", reply text that `extractJSON` cannot
      read makes a 500 saying so, and an extracted object without a
      non-empty `inspirations` array makes the 500 "AI 未能生成有效灵感". */
  lemma Answers(cat: Catalog, rt: Runtime, req: InspireRequest, provider: ChatRequest -> Reply)
    requires Prepare(cat, rt, req).Proceed?
    ensures var reply := provider(Prepare(cat, rt, req).value);
            reply.Answered? && !reply.ok ==>
              Post(cat, rt, req, provider) == Fail(reply.status, ProviderMessage(rt.parse, reply.status, reply.body))
    ensures var reply := provider(Prepare(cat, rt, req).value);
            reply.Answered? && reply.ok && rt.parse(reply.body).Parsed? && !rt.parse(reply.body).value.Nullish()
            && !Truthy(ReplyContent(rt.parse(reply.body).value)) ==>
              Post(cat, rt, req, provider) == Fail(500, Str(NoContent))
    ensures var c := Complete(rt.parse, provider(Prepare(cat, rt, req).value));
            c.Proceed? && c.value.Str? && Extract(rt.parse, c.value.s).Raises? ==>
              Post(cat, rt, req, provider) == Fail(500, Str(Unparsable))
    ensures var c := Complete(rt.parse, provider(Prepare(cat, rt, req).value));
            c.Proceed? && ExtractJSON(rt.parse, c.value).Returns? && !ExtractJSON(rt.parse, c.value).value.Nullish()
            && !(Member(ExtractJSON(rt.parse, c.value).value, "inspirations").Array?
                 && |Member(ExtractJSON(rt.parse, c.value).value, "inspirations").elems| > 0) ==>
              Post(cat, rt, req, provider) == Fail(500, Str(NoIdeas))
  {
    var c := Complete(rt.parse, provider(Prepare(cat, rt, req).value));
    if c.Proceed? && c.value.Str? {
      ExtractFailsIff(rt.parse, c.value.s);
    }
    if c.Proceed? && ExtractJSON(rt.parse, c.value).Returns? {
      IdeasIff(ExtractJSON(rt.parse, c.value).value);
    }
  }

  /** The route answers 200 exactly when the provider's reply text yields a
      result whose `inspirations` is a non-empty array, and that array is
      the payload. */
  lemma SuccessIff(cat: Catalog, rt: Runtime, req: InspireRequest, provider: ChatRequest -> Reply)
    requires Prepare(cat, rt, req).Proceed?
    ensures var c := Complete(rt.parse, provider(Prepare(cat, rt, req).value));
            Post(cat, rt, req, provider).Done? <==>
              && c.Proceed? && ExtractJSON(rt.parse, c.value).Returns?
              && !ExtractJSON(rt.parse, c.value).value.Nullish()
              && Member(ExtractJSON(rt.parse, c.value).value, "inspirations").Array?
              && |Member(ExtractJSON(rt.parse, c.value).value, "inspirations").elems| > 0
    ensures Post(cat, rt, req, provider).Done? ==>
              var c := Complete(rt.parse, provider(Prepare(cat, rt, req).value));
              Post(cat, rt, req, provider).payload == Member(ExtractJSON(rt.parse, c.value).value, "inspirations")
  {
    var c := Complete(rt.parse, provider(Prepare(cat, rt, req).value));
    if c.Proceed? && ExtractJSON(rt.parse, c.value).Returns? {
      IdeasIff(ExtractJSON(rt.parse, c.value).value);
    }
  }
}
