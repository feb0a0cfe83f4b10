/** `POST /api/polish`: the copy rewritten along one chosen inspiration,
    following the direction's structure template; the reply is normalised
    from either of the two shapes the provider may answer in. */
module PolishRoute {
  import opened Text
  import opened Js
  import opened Registry
  import opened Prompt
  import opened Completion
  import opened ExtractJson

  datatype PolishRequest = PolishRequest(
    params: JsValue, title: JsValue, content: JsValue, direction: JsValue, inspiration: JsValue,
    apiKey: JsValue, endpoint: JsValue, model: JsValue)

  const NoDirection := "请选择润色方向"
  const NoInspiration := "请选择一条灵感"
  const UnknownDirection := "无效的润色方向"
  const NoPolish := "AI 未能生成有效润色文案"
  const Fallback := "润色生成失败，请重试"

  const OutlineHeader := "你必须按照以下结构组织文案：\n\n"
  const ExampleHeader := "\n## 参考示例\n"

  // ---------------------------------------------------------------------
  // The structure outline
  // ---------------------------------------------------------------------

  /** The guidance for section `i`; a guidance list shorter than the section
      list reads as `undefined`, which the template literal renders. */
  function Guidance(tpl: StructureTemplate, i: nat): string
  {
    if i < |tpl.structureDesc| then tpl.structureDesc[i] else "undefined"
  }

  /** The numbered heading of section `i`, counting from 1. */
  function Heading(tpl: StructureTemplate, i: nat): string
    requires i < |tpl.structure|
  {
    "### " + NatToString(i + 1) + ". " + tpl.structure[i] + "\n"
  }

  function Section(tpl: StructureTemplate, i: nat): string
    requires i < |tpl.structure|
  {
    Heading(tpl, i) + Guidance(tpl, i) + "\n\n"
  }

  /** The first `n` sections, in order. */
  function Sections(tpl: StructureTemplate, n: nat): string
    requires n <= |tpl.structure|
  {
    if n == 0 then "" else Sections(tpl, n - 1) + Section(tpl, n - 1)
  }

  /** What `buildStructureTemplate` produces for a direction key: nothing for
      a key without a template, otherwise the instruction line, every section
      and the example. */
  function StructureText(templateByKey: JsValue -> Option<StructureTemplate>, key: JsValue): string
  {
    match templateByKey(key)
    case None => ""
    case Some(tpl) => OutlineHeader + Sections(tpl, |tpl.structure|) + ExampleHeader + tpl.example
  }

  /** `buildStructureTemplate`: the sections are appended one by one. */
  method BuildStructureTemplate(templateByKey: JsValue -> Option<StructureTemplate>, key: JsValue)
    returns (result: string)
    ensures result == StructureText(templateByKey, key)
  {
    var template := templateByKey(key);
    if template.None? {
      return "";
    }
    var tpl := template.value;
    result := OutlineHeader;
    var index := 0;
    while index < |tpl.structure|
      invariant index <= |tpl.structure|
      invariant result == OutlineHeader + Sections(tpl, index)
    {
      ghost var before := result;
      result := result + "### " + NatToString(index + 1) + ". " + tpl.structure[index] + "\n";
      assert result == before + Heading(tpl, index);
      result := result + Guidance(tpl, index) + "\n\n";
      assert result == before + Section(tpl, index);
      index := index + 1;
    }
    result := result + ExampleHeader + tpl.example;
  }

  /** The first `m` sections are a prefix of the first `n`. */
  lemma {:induction false} SectionsPrefix(tpl: StructureTemplate, m: nat, n: nat)
    requires m <= n <= |tpl.structure|
    ensures |Sections(tpl, m)| <= |Sections(tpl, n)|
    ensures Sections(tpl, n)[..|Sections(tpl, m)|] == Sections(tpl, m)
  {
    if m < n {
      SectionsPrefix(tpl, m, n - 1);
      var s := Sections(tpl, n - 1);
      assert Sections(tpl, n) == s + Section(tpl, n - 1);
      assert Sections(tpl, n)[..|s|] == s;
    }
  }

  /** Section `i`'s heading, with its number `i + 1` in decimal, begins right
      after the instruction line and the sections before it, so the headings
      come in order and each section appears once. */
  lemma OutlineHeadings(templateByKey: JsValue -> Option<StructureTemplate>, key: JsValue, i: nat)
    requires templateByKey(key).Some? && i < |templateByKey(key).value.structure|
    ensures var tpl := templateByKey(key).value;
            var o := StructureText(templateByKey, key);
            var at := |OutlineHeader| + |Sections(tpl, i)|;
            && at + |Heading(tpl, i)| <= |o|
            && o[at..at + |Heading(tpl, i)|] == Heading(tpl, i)
            && |Sections(tpl, i)| < |Sections(tpl, i + 1)|
    ensures ParseNat(NatToString(i + 1)) == i + 1
  {
    var tpl := templateByKey(key).value;
    var rest := SectionsSplit(tpl, i);
    var pre := OutlineHeader + Sections(tpl, i);
    var h := Heading(tpl, i);
    var tail := ExampleHeader + tpl.example;
    assert StructureText(templateByKey, key) == OutlineHeader + Sections(tpl, |tpl.structure|) + tail;
    Regroup(OutlineHeader, Sections(tpl, i), h, rest, tail);
    SliceBetween(pre, h, rest + tail);
    ParseNatToString(i + 1);
  }

  /** All sections are the ones before `i`, then the heading of `i`, then
      the rest, which is returned. */
  lemma SectionsSplit(tpl: StructureTemplate, i: nat) returns (rest: string)
    requires i < |tpl.structure|
    ensures Sections(tpl, |tpl.structure|) == Sections(tpl, i) + Heading(tpl, i) + rest
    ensures |Sections(tpl, i)| < |Sections(tpl, i + 1)|
  {
    var n := |tpl.structure|;
    SectionsPrefix(tpl, i + 1, n);
    var all := Sections(tpl, n);
    var upto := Sections(tpl, i + 1);
    PrefixSplit(all, upto);
    var later := all[|upto|..];
    var s, h := Sections(tpl, i), Heading(tpl, i);
    var g := Guidance(tpl, i) + "\n\n";
    assert Section(tpl, i) == h + g;
    assert upto == s + (h + g);
    Regroup3(s, h, g, later);
    rest := g + later;
  }

  lemma PrefixSplit(a: string, p: string)
    requires |p| <= |a| && a[..|p|] == p
    ensures a == p + a[|p|..]
  {
    assert a == a[..|p|] + a[|p|..];
  }

  lemma Regroup3(a: string, b: string, c: string, d: string)
    ensures a + (b + c) + d == a + b + (c + d)
  {
  }

  lemma Regroup(a: string, b: string, c: string, d: string, e: string)
    ensures a + (b + c + d) + e == (a + b) + c + (d + e)
  {
  }

  lemma SliceBetween(a: string, b: string, c: string)
    ensures (a + b + c)[|a|..|a| + |b|] == b
  {
  }

  /** The outline opens with the instruction line and closes with the
      example under its heading; a key without a template contributes
      nothing to the prompt. */
  lemma OutlineFrame(templateByKey: JsValue -> Option<StructureTemplate>, key: JsValue)
    ensures templateByKey(key).None? <==> StructureText(templateByKey, key) == ""
    ensures templateByKey(key).Some? ==>
              var o := StructureText(templateByKey, key);
              var tail := ExampleHeader + templateByKey(key).value.example;
              && |OutlineHeader| + |tail| <= |o|
              && o[..|OutlineHeader|] == OutlineHeader
              && o[|o| - |tail|..] == tail
  {
    if templateByKey(key).Some? {
      var tpl := templateByKey(key).value;
      var o := StructureText(templateByKey, key);
      var mid := Sections(tpl, |tpl.structure|);
      var tail := ExampleHeader + tpl.example;
      assert o == OutlineHeader + mid + tail;
      assert o[..|OutlineHeader|] == OutlineHeader;
      assert o[|o| - |tail|..] == tail;
    }
  }

  // ---------------------------------------------------------------------
  // The handler
  // ---------------------------------------------------------------------

  /** The seven slots of the polish template, in the order they are filled. */
  function PolishSlots(cat: Catalog, rt: Runtime, req: PolishRequest, d: Direction): seq<(string, string)>
  {
    DirectionSlots(rt, req.params, req.title, req.content, d)
    + [("{{INSPIRATION}}", ToString(req.inspiration)),
       ("{{STRUCTURE_TEMPLATE}}", StructureText(cat.templateByKey, req.direction))]
  }

  /** The guards, in the source's order (API key, direction, inspiration,
      then a known direction), and the request. Without parameters the plain
      polish template is used, the same one the verify route falls back to. */
  function Prepare(cat: Catalog, rt: Runtime, req: PolishRequest): Outcome<ChatRequest>
  {
    if !Truthy(req.apiKey) then Respond(400, Str(NoApiKey))
    else if !Truthy(req.direction) then Respond(400, Str(NoDirection))
    else if !Truthy(req.inspiration) then Respond(400, Str(NoInspiration))
    else
      match cat.directionByKey(req.direction)
      case None => Respond(400, Str(UnknownDirection))
      case Some(d) =>
        var template := if HasParams(req.params) then cat.polishPrompt else cat.simplePolishPrompt;
        Proceed(Chat(req.endpoint, req.apiKey, req.model, FillSlots(template, PolishSlots(cat, rt, req, d)), 0.8, 3000))
  }

  /** The `result` of a successful polish. */
  datatype Polished = Polished(titles: JsValue, content: JsValue)

  /** The two reply shapes folded into one: `polished_titles` or else a
      one-element list of `corrected_title` (or else none), and
      `polished_content` or else `corrected_content` (or else ""); no title
      or no content makes a 500. A `null` result throws. */
  function Normalize(result: JsValue): Outcome<Polished>
  {
    match Get(result, "polished_titles")
    case Raises(t) => Raise(t)
    case Returns(polishedTitles) =>
      var correctedTitle := Member(result, "corrected_title");
      var titles :=
        if Truthy(polishedTitles) then polishedTitles
        else if Truthy(correctedTitle) then Array([correctedTitle])
        else Array([]);
      var polishedContent := Member(result, "polished_content");
      var correctedContent := Member(result, "corrected_content");
      var body :=
        if Truthy(polishedContent) then polishedContent
        else if Truthy(correctedContent) then correctedContent
        else Str("");
      if !Truthy(Member(titles, "length")) || !Truthy(body) then Respond(500, Str(NoPolish))
      else Proceed(Polished(titles, body))
  }

  /** The current shape, non-empty titles and a body, is taken as it is. */
  lemma NormalizePlural(result: JsValue, titles: seq<JsValue>, body: string)
    requires !result.Nullish()
    requires Member(result, "polished_titles") == Array(titles) && |titles| > 0
    requires Member(result, "polished_content") == Str(body) && body != ""
    ensures Normalize(result) == Proceed(Polished(Array(titles), Str(body)))
  {
    LengthTruthy(|titles|);
  }

  /** The legacy shape, one corrected title and a corrected body, is turned
      into the current one. */
  lemma NormalizeLegacy(result: JsValue, title: string, body: string)
    requires !result.Nullish()
    requires !Truthy(Member(result, "polished_titles")) && !Truthy(Member(result, "polished_content"))
    requires Member(result, "corrected_title") == Str(title) && title != ""
    requires Member(result, "corrected_content") == Str(body) && body != ""
    ensures Normalize(result) == Proceed(Polished(Array([Str(title)]), Str(body)))
  {
    LengthTruthy(1);
  }

  /** An empty `polished_titles` list is truthy, so it does not fall back to
      `corrected_title`: the result is a 500 whatever else it holds. With
      neither title field nor either body field it is a 500 as well. */
  lemma NormalizeRejects(result: JsValue)
    requires !result.Nullish()
    ensures Member(result, "polished_titles") == Array([]) ==> Normalize(result) == Respond(500, Str(NoPolish))
    ensures !Truthy(Member(result, "polished_titles")) && !Truthy(Member(result, "corrected_title"))
            ==> Normalize(result) == Respond(500, Str(NoPolish))
    ensures !Truthy(Member(result, "polished_content")) && !Truthy(Member(result, "corrected_content"))
            ==> Normalize(result) == Respond(500, Str(NoPolish))
  {
    LengthTruthy(0);
  }

  /** Whatever `Normalize` accepts has a non-zero title count and a truthy
      body, each taken from one of the two shapes. */
  lemma NormalizeSound(result: JsValue)
    requires Normalize(result).Proceed?
    ensures !result.Nullish()
    ensures var p := Normalize(result).value;
            && Truthy(p.content) && Truthy(Member(p.titles, "length"))
            && (p.content == Member(result, "polished_content") || p.content == Member(result, "corrected_content"))
            && (p.titles == Member(result, "polished_titles") || p.titles == Array([Member(result, "corrected_title")]))
  {
  }

  function Conclude(rt: Runtime, reply: Reply): Outcome<Polished>
  {
    match Complete(rt.parse, reply)
    case Respond(status, error) => Respond(status, error)
    case Raise(t) => Raise(t)
    case Proceed(content) =>
      match ExtractJSON(rt.parse, content)
      case Raises(t) => Raise(t)
      case Returns(result) => Normalize(result)
  }

  /** The handler; the payload is the `result` member of the 200 response. */
  function Post(cat: Catalog, rt: Runtime, req: PolishRequest, provider: ChatRequest -> Reply): Response<Polished>
  {
    var o := match Prepare(cat, rt, req)
      case Proceed(chat) => Conclude(rt, provider(chat))
      case Respond(status, error) => Respond(status, error)
      case Raise(t) => Raise(t);
    Catch(o, Fallback)
  }

  /** The guards answer in order and before any request is sent. */
  lemma Guards(cat: Catalog, rt: Runtime, req: PolishRequest, provider: ChatRequest -> Reply)
    ensures Prepare(cat, rt, req).Proceed? <==>
              Truthy(req.apiKey) && Truthy(req.direction) && Truthy(req.inspiration)
              && cat.directionByKey(req.direction).Some?
    ensures !Truthy(req.apiKey) ==> Post(cat, rt, req, provider) == Fail(400, Str(NoApiKey))
    ensures Truthy(req.apiKey) && !Truthy(req.direction) ==> Post(cat, rt, req, provider) == Fail(400, Str(NoDirection))
    ensures Truthy(req.apiKey) && Truthy(req.direction) && !Truthy(req.inspiration)
            ==> Post(cat, rt, req, provider) == Fail(400, Str(NoInspiration))
    ensures Truthy(req.apiKey) && Truthy(req.direction) && Truthy(req.inspiration)
            && cat.directionByKey(req.direction).None?
            ==> Post(cat, rt, req, provider) == Fail(400, Str(UnknownDirection))
  {
  }

  /** The request for an accepted body: the polish template exactly when
      parameters were supplied, the chosen inspiration and the direction's
      structure outline in their slots, at 0.8 and 3000 tokens, to the
      configured endpoint and model with the key as a bearer token. */
  lemma Request(cat: Catalog, rt: Runtime, req: PolishRequest)
    requires Prepare(cat, rt, req).Proceed?
    ensures var chat := Prepare(cat, rt, req).value;
            var d := cat.directionByKey(req.direction).value;
            var slots := PolishSlots(cat, rt, req, d);
            && chat.temperature == 0.8 && chat.maxTokens == 3000
            && chat.authorization == "Bearer " + ToString(req.apiKey)
            && chat.endpoint == req.endpoint && chat.model == req.model
            && |slots| == 7
            && slots[5] == ("{{INSPIRATION}}", ToString(req.inspiration))
            && slots[6] == ("{{STRUCTURE_TEMPLATE}}", StructureText(cat.templateByKey, req.direction))
            && (HasParams(req.params) ==> chat.prompt == FillSlots(cat.polishPrompt, slots))
            && (!HasParams(req.params) ==> chat.prompt == FillSlots(cat.simplePolishPrompt, slots))
    ensures req.params.Nullish() || req.params == Object([]) ==>
              Prepare(cat, rt, req).value.prompt
              == FillSlots(cat.simplePolishPrompt, PolishSlots(cat, rt, req, cat.directionByKey(req.direction).value))
  {
    HasParamsIff(req.params);
  }

  /** How the route fails once the request is sent: a non-OK answer is
      forwarded with its status and message, an OK answer without content
      makes the 500 "AI 未返回有效内容", reply text that `extractJSON` cannot
      read makes a 500 saying so, and an extracted object that does not
      normalise, an empty `polished_titles` list among them, makes the 500
      "AI 未能生成有效润色文案". */
  lemma Answers(cat: Catalog, rt: Runtime, req: PolishRequest, provider: ChatRequest -> Reply)
    requires Prepare(cat, rt, req).Proceed?
    ensures var reply := provider(Prepare(cat, rt, req).value);
            reply.Answered? && !reply.ok ==>
              Post(cat, rt, req, provider) == Fail(reply.status, ProviderMessage(rt.parse, reply.status, reply.body))
    ensures var reply := provider(Prepare(cat, rt, req).value);
            reply.Answered? && reply.ok && rt.parse(reply.body).Parsed? && !rt.parse(reply.body).value.Nullish()
            && !Truthy(ReplyContent(rt.parse(reply.body).value)) ==>
              Post(cat, rt, req, provider) == Fail(500, Str(NoContent))
    ensures var c := Complete(rt.parse, provider(Prepare(cat, rt, req).value));
            c.Proceed? && c.value.Str? && Extract(rt.parse, c.value.s).Raises? ==>
              Post(cat, rt, req, provider) == Fail(500, Str(Unparsable))
    ensures var c := Complete(rt.parse, provider(Prepare(cat, rt, req).value));
            c.Proceed? && ExtractJSON(rt.parse, c.value).Returns? && !ExtractJSON(rt.parse, c.value).value.Nullish()
            && !Normalize(ExtractJSON(rt.parse, c.value).value).Proceed? ==>
              Post(cat, rt, req, provider) == Fail(500, Str(NoPolish))
    ensures var c := Complete(rt.parse, provider(Prepare(cat, rt, req).value));
            c.Proceed? && ExtractJSON(rt.parse, c.value).Returns? && !ExtractJSON(rt.parse, c.value).value.Nullish()
            && Member(ExtractJSON(rt.parse, c.value).value, "polished_titles") == Array([]) ==>
              Post(cat, rt, req, provider) == Fail(500, Str(NoPolish))
  {
    var c := Complete(rt.parse, provider(Prepare(cat, rt, req).value));
    if c.Proceed? && c.value.Str? {
      ExtractFailsIff(rt.parse, c.value.s);
    }
    if c.Proceed? && ExtractJSON(rt.parse, c.value).Returns? && !ExtractJSON(rt.parse, c.value).value.Nullish() {
      NormalizeRejects(ExtractJSON(rt.parse, c.value).value);
    }
  }

  /** The route answers 200 exactly when the extracted result normalises, and
      the payload is the normalised result. */
  lemma SuccessIff(cat: Catalog, rt: Runtime, req: PolishRequest, provider: ChatRequest -> Reply)
    requires Prepare(cat, rt, req).Proceed?
    ensures var c := Complete(rt.parse, provider(Prepare(cat, rt, req).value));
            Post(cat, rt, req, provider).Done? <==>
              && c.Proceed? && ExtractJSON(rt.parse, c.value).Returns?
              && Normalize(ExtractJSON(rt.parse, c.value).value).Proceed?
    ensures Post(cat, rt, req, provider).Done? ==>
              var c := Complete(rt.parse, provider(Prepare(cat, rt, req).value));
              Post(cat, rt, req, provider).payload == Normalize(ExtractJSON(rt.parse, c.value).value).value
  {
  }
}
