# redbook-ai-checker, modelled in Dafny

The application checks and rewrites Xiaohongshu ("little red book") product
copy with a chat-completion model. A single page collects product
parameters, copy, a polish direction and an API configuration. Four
server routes turn these into prompts, call the provider and read its
reply:

- `parse`: free-form parameter text in, structured parameters out.
- `verify`: the copy checked against the parameters.
- `inspire`: angle ideas for one polish direction.
- `polish`: the copy rewritten along one chosen idea.

This project models the deterministic part of that pipeline and proves
what it does:

- the tolerant JSON extraction `extractJSON`;
- each route as a decision pipeline: its guards, template choice,
  placeholder substitution and provider-error mapping, plus the reply
  checks of `inspire` and `polish`;
- the structure outline `buildStructureTemplate`, as an imperative method
  with a loop;
- the page's parameter filter (a loop), its spreadsheet-rows-to-lines
  conversion, its button checks, and the tab-sync effect, over a `Home`
  class holding the component's state.

Modules, in dependency order:

| file | module | what |
|---|---|---|
| text.dfy | `Text` | JavaScript `trim`, `indexOf`, `lastIndexOf`, decimal text of numbers, `join`/`split` |
| js.dfy | `Js` | JavaScript values, truthiness, `String(v)`, property reads that throw, `Object.entries`, `?.trim()`; `JSON.parse`/`JSON.stringify` as given functions |
| extract_json.dfy | `ExtractJson` | `extractJSON` |
| registry.dfy | `Registry` | what `lib/constants` supplies, as an abstract catalog (prompt texts, direction and template lookups) |
| prompt.dfy | `Prompt` | the `or` defaults of the prompt slots, the `hasParams` test, `String.prototype.replace` and the replace chains |
| completion.dfy | `Completion` | the provider request, the non-OK / empty-content mapping, the `catch` |
| parse_route.dfy, verify_route.dfy, inspire_route.dfy, polish_route.dfy | `ParseRoute`, `VerifyRoute`, `InspireRoute`, `PolishRoute` | the four `POST` handlers |
| page.dfy | `Page` | the page's filter, sheet conversion, button checks and state |

Each handler is a function `Post(catalog, runtime, request, provider)`.
The `provider` function stands for the `fetch` to the chat endpoint. It
maps the request sent to either an answer (ok flag, status, body text) or
a rejection (the thrown value).

## Model

| member | source | states |
|---|---|---|
| Text.TrimIdempotent | lib/utils.ts:12 | trimming an already trimmed text changes nothing |
| Text.TrimEmptyIff | app/api/parse/route.ts:13 | `s.trim()` is empty exactly when every character of `s` is white space |
| Text.SplitJoin | app/page.tsx:270-273 | joining lines that hold no separator with `"\n"` and splitting at `"\n"` gives the lines back |
| Js.LengthTruthy | app/api/inspire/route.ts:81 | a `length` is truthy exactly when it is non-zero |
| Js.OptionalTrim | app/api/parse/route.ts:13 | `v?.trim()` trims a string, gives `undefined` for a missing value, and throws "… is not a function" for anything else |
| Js.ObjectEntries | app/page.tsx:233-235 | `Object.entries` throws exactly on `null`/`undefined` |
| ExtractJson.ExtractIsFirstParsed | lib/utils.ts:11-36 | `extractJSON` is "the first candidate that parses" over the trimmed text, the fenced interior and the brace span, in that order |
| ExtractJson.DirectParseWins | lib/utils.ts:12-17 | when the trimmed text parses, its value is returned and no other candidate matters |
| ExtractJson.ExtractOfTrimmed | lib/utils.ts:12 | the result depends on the trimmed text only |
| ExtractJson.FencedInteriorExists | lib/utils.ts:20-21 | the fenced candidate exists exactly when a second fence starts at least three characters after the first one |
| ExtractJson.InteriorStartSkips | lib/utils.ts:20 | the capture starts after the optional `json` tag and all the white space after it, at a character that is not white space or at the end |
| ExtractJson.FencedInteriorShape | lib/utils.ts:20-23 | the fenced interior starts after the first fence, its optional `json` tag and all following white space, at a non-space character; it ends at the first fence from there and holds no fence |
| ExtractJson.FencedExample | lib/utils.ts:20-23 | a short reply with a `json`-tagged fenced block around `{"a":1}` yields exactly that object text as the fenced candidate |
| ExtractJson.BraceSpanIff | lib/utils.ts:28-31 | the brace candidate exists exactly when some `}` follows some `{`; it runs from the first `{` to the last `}` |
| ExtractJson.ExtractSound | lib/utils.ts:11-33 | every returned value is what `JSON.parse` gives for one of the candidates, each a slice of the trimmed text |
| ExtractJson.ExtractFailsIff | lib/utils.ts:35 | extraction throws exactly when no candidate parses, always with "无法解析AI返回的数据，请重试" |
| Prompt.TextSlot | app/api/verify/route.ts:25-26 | a non-empty title or body goes in as it is; any other truthy value goes in as its `String(v)`; a falsy one is replaced by "（无标题）" / "（无正文）" |
| Prompt.HasParamsIff | app/api/verify/route.ts:21 | `params && Object.keys(params).length > 0` holds for an object exactly when it has a property, and never for a missing value |
| Prompt.DirectionSlots | app/api/inspire/route.ts:30-35 | the five slots in fill order; `{}` stands in for missing parameters; a non-empty title and body go in as they are and falsy ones become "（无标题）" / "（无正文）"; the direction's label and description fill their slots |
| Prompt.ReplaceAgrees | app/api/verify/route.ts:24-29 | with no `$` in the replacement, JavaScript's `replace` and literal first-occurrence substitution agree |
| Prompt.FillSlotsAgree | app/api/verify/route.ts:24-29 | when no slot value contains `$`, the routes' chain of `replace` calls sends exactly the prompt the literal filling gives |
| Prompt.ReplaceLiteralAt | app/api/polish/route.ts:65-72 | only the first occurrence of a placeholder is replaced |
| Prompt.FillSlotsAbsent | app/api/polish/route.ts:65-72 | a template holding none of the placeholders goes out unchanged |
| Prompt.FillSlotsStep | app/api/inspire/route.ts:30-35 | a chain step puts its value where its placeholder first occurs, then the rest of the chain runs on the result |
| Prompt.DollarTitleKeepsPlaceholder | app/api/verify/route.ts:25 | a title "$&" makes JavaScript's `replace` re-insert "{{TITLE}}", where literal substitution inserts "$&" |
| Completion.ProviderMessage | app/api/polish/route.ts:88-96 | the body's `error.message` is forwarded exactly when the body is JSON, not nullish, and that field is truthy; otherwise the message is "API 请求失败 (status)" |
| Completion.ProviderMessageCases | app/api/polish/route.ts:88-96 | the forwarded error is never falsy; it is either "API 请求失败 (status)" or the body's truthy `error.message` |
| Completion.RateLimited | app/api/polish/route.ts:88-96 | a 429 with a JSON `error.message` forwards that message with status 429; a non-JSON body gives "API 请求失败 (429)" |
| Completion.Complete | app/api/polish/route.ts:88-106 | a rejection unwinds; a non-OK answer is forwarded with its own status; an OK body that is not JSON raises the parser's SyntaxError, and one that is `null` raises; otherwise a truthy `choices[0].message.content` goes on as it is and a falsy one gives 500 "AI 未返回有效内容" |
| Completion.CompleteReadsFirstChoice | app/api/polish/route.ts:98-99 | an answer `{"choices":[{"message":{"content":c}}]}` goes on with `c` |
| Completion.Catch | app/api/polish/route.ts:136-139 | a completed evaluation is the 200 payload and a decided response goes out as it is; a thrown `Error` becomes a 500 with its message, any other thrown value a 500 with the route's fallback wording |
| ParseRoute.Guards | app/api/parse/route.ts:9-18 | apiKey first, then missing or blank text, each a 400 whatever the provider would say; a non-string text gives a 500 with the TypeError message |
| ParseRoute.Request | app/api/parse/route.ts:13-34 | the provider is called exactly for an API key and a non-blank text; the prompt is the parse instructions + the untrimmed text, at 0.1 and 1000 tokens |
| ParseRoute.Answers | app/api/parse/route.ts:36-61 | a non-OK reply is forwarded with its status; an extracted value is the payload as it is; a reply with falsy content gives 500 "AI 未返回有效内容"; an unextractable reply gives 500 with the extraction message |
| ParseRoute.SuccessIsExtracted | app/api/parse/route.ts:46-57 | every 200 payload is what `JSON.parse` gives for one of the candidates of the reply content |
| VerifyRoute.Guards | app/api/verify/route.ts:9-18 | the provider is called exactly for an API key and a title, or failing that a body, that is a non-blank string; both blank gives 400 "请输入标题或正文" |
| VerifyRoute.TemplateChoice | app/api/verify/route.ts:20-42 | parameters with a property select the verify template with the parameters JSON; none, or `{}`, select the plain polish template; 0.1 and 2000 tokens; the `Bearer` header carries the key, and the endpoint and model are the configured ones |
| VerifyRoute.Answers | app/api/verify/route.ts:45-66 | a non-OK reply is forwarded with its status; the extracted JSON is the `result`, unchecked; a reply with falsy content gives 500 "AI 未返回有效内容"; an unextractable reply gives 500 with the extraction message |
| InspireRoute.IdeasIff | app/api/inspire/route.ts:74-90 | the reply passes exactly when `inspirations` is a non-empty array, which is returned as it is; otherwise 500 "AI 未能生成有效灵感"; a `null` result throws |
| InspireRoute.Guards | app/api/inspire/route.ts:14-25 | apiKey, then direction, then a known direction, each a 400 before any request |
| InspireRoute.Request | app/api/inspire/route.ts:27-48 | the full template exactly with parameters; the five slots; 0.8 and 1500 tokens; the `Bearer` header carries the key, and the endpoint and model are the configured ones |
| InspireRoute.Answers | app/api/inspire/route.ts:51-95 | a non-OK reply is forwarded with its status and message; a reply with falsy content gives 500 "AI 未返回有效内容"; an unextractable reply gives 500 with the extraction message; an extracted object without a non-empty `inspirations` array gives 500 "AI 未能生成有效灵感" |
| InspireRoute.SuccessIff | app/api/inspire/route.ts:61-95 | a 200 exactly when the reply content extracts to a value with a non-empty `inspirations` array, which is the payload |
| PolishRoute.BuildStructureTemplate | app/api/polish/route.ts:12-26 | the loop builds the header, one heading and guidance per section, then the example block; an unknown key gives "" |
| PolishRoute.OutlineHeadings | app/api/polish/route.ts:18-21 | section i's heading "### i+1. name" starts right after the earlier sections, headings come in section order, and the number reads back as i+1 |
| PolishRoute.OutlineFrame | app/api/polish/route.ts:13-25 | the outline is empty exactly for an unknown key; otherwise it opens with the instruction line and ends with "\n## 参考示例\n" + example |
| PolishRoute.SectionsPrefix | app/api/polish/route.ts:18-21 | the outline only grows: the first m sections are a prefix of the first n |
| PolishRoute.NormalizePlural | app/api/polish/route.ts:119-135 | non-empty `polished_titles` and a `polished_content` are taken as they are |
| PolishRoute.NormalizeLegacy | app/api/polish/route.ts:119-135 | the legacy `corrected_title`/`corrected_content` shape becomes one title and that body |
| PolishRoute.NormalizeRejects | app/api/polish/route.ts:119-128 | an empty `polished_titles` array does not fall back to `corrected_title` and gives the 500; so do no titles at all or no body |
| PolishRoute.NormalizeSound | app/api/polish/route.ts:119-135 | every accepted result holds titles with a truthy `length` (`polished_titles` as it came, or `[corrected_title]`) and a truthy body |
| PolishRoute.Guards | app/api/polish/route.ts:41-56 | apiKey, direction, inspiration, then a known direction, each a 400 before any request |
| PolishRoute.Request | app/api/polish/route.ts:58-85 | the polish template exactly with parameters; seven slots including the inspiration and the outline; 0.8 and 3000 tokens; the `Bearer` header carries the key, and the endpoint and model are the configured ones |
| PolishRoute.Answers | app/api/polish/route.ts:88-140 | a non-OK reply is forwarded with its status and message; a reply with falsy content gives 500 "AI 未返回有效内容"; an unextractable reply gives 500 with the extraction message; an extracted object that does not normalise, an empty `polished_titles` list among them, gives 500 "AI 未能生成有效润色文案" |
| PolishRoute.SuccessIff | app/api/polish/route.ts:98-135 | a 200 exactly when the extracted reply normalises, and that result is the payload |
| Page.KeepsIff | app/page.tsx:236 | a string value is kept exactly when it is not blank; a missing value never is; the number 0 is dropped |
| Page.AssignAt | app/page.tsx:237 | with distinct keys, storing under an existing key overwrites that one place |
| Page.AssignNew | app/page.tsx:237 | storing under a new key appends it |
| Page.AssignDistinct | app/page.tsx:237 | storing keeps the keys distinct |
| Page.AssignKeys | app/page.tsx:237 | storing keeps every existing key in its place and leaves `key` present |
| Page.FilterParams | app/page.tsx:232-239 | the loop computes the filtered object `Kept(entries)` |
| Page.FilterDistinct | app/page.tsx:232-239 | for any test and any text, the filtered object lists each key once |
| Page.FilterSound | app/page.tsx:232-239 | for any test and any text, every filtered pair is some kept entry's key with the text of its value, and no filtered key is `__proto__` |
| Page.FilterComplete | app/page.tsx:232-239 | for any test and any text, every kept entry whose key is not `__proto__` has its key in the result |
| Page.FilterValue | app/page.tsx:232-239 | with distinct keys, every kept entry whose key is not `__proto__` is stored under its key with exactly the text of its value |
| Page.IndexEntriesDistinct | app/page.tsx:233-235 | `Object.entries` of an array or a string lists each index key once |
| Page.KeptSound | app/page.tsx:232-239 | the page's filter invents no key: each stored pair is a present, non-blank entry's key with `String(value)`; `__proto__` is never stored, because `filtered["__proto__"] = s` runs the inherited setter |
| Page.KeptNotBlank | app/page.tsx:236-237 | no value the page's filter stores is blank |
| Page.KeptComplete | app/page.tsx:232-239 | every entry with a present, non-blank value and a key other than `__proto__` has its key in the result |
| Page.KeptValue | app/page.tsx:232-239 | with distinct keys, such an entry is stored under its key with exactly `String(value)` |
| Page.ProtoParamRefused | app/page.tsx:232-243 | `{params: {"__proto__": v}}`, with `v` not blank, gets the "no parameter recognised" error, while the same value under another name is accepted |
| Page.VerdictOfParams | app/page.tsx:229-245 | an answer `{params}` holding an object is accepted exactly when its filtered entries are non-empty, and then with those |
| Page.ReadParseResponse | app/page.tsx:229-243 | the reading of the response body computes `ParseVerdict`: `data.error` first, then the filter loop; an empty result is refused |
| Page.ParseVerdictOfResponse | app/page.tsx:230-247 | a failing route's error is shown as it is; a successful one's parameters are accepted exactly when some survive the filter, and then are non-empty and non-blank |
| Page.UsableRows | app/page.tsx:271 | the kept rows are rows of the sheet with two truthy cells; there are none exactly when no row has both |
| Page.UsableRowsComplete | app/page.tsx:271 | every row with two truthy cells is kept |
| Page.UsableRowsAppend | app/page.tsx:271 | the filter works row by row: the rows kept from two stretches of the sheet are those of the first, then those of the second, so sheet order is kept |
| Page.UsableRowsSingle | app/page.tsx:271 | a single row is kept exactly when it is usable |
| Page.SheetTextEmptyIff | app/page.tsx:270-276 | the lines are empty exactly when no row has both cells truthy |
| Page.SheetTextLines | app/page.tsx:270-273 | split at line breaks, the text is one "name: value" line per usable row, in sheet order |
| Page.ParseGuard | app/page.tsx:203-211 | the parse button sends exactly with an API key and non-blank text; without a key the message is the API-key prompt, with a key and blank text it is "请输入参数文本" |
| Page.VerifyGuard | app/page.tsx:299-307 | the verify button sends exactly with an API key and a title or a body that is not blank; without a key the message is the API-key prompt, with a key and both blank it is "请输入标题或正文" |
| Page.InspireGuard | app/page.tsx:347-355 | the inspire button sends exactly with an API key and a direction; without a key the message is the API-key prompt, with a key and no direction it is the direction prompt |
| Page.PolishGuard | app/page.tsx:393-401 | the polish button sends exactly with an API key and a selected inspiration; without a key the message is the API-key prompt, with a key and no selection it is the selection prompt |
| Page.ParamsJson | app/page.tsx:318 | the body's parameters count as parameters for a route exactly when the page holds a non-empty set |
| Page.VerifyGuardAgrees | app/page.tsx:298-326 | the page's verify check passes exactly when the verify route would call the provider for that body |
| Page.InspireGuardAgrees | app/page.tsx:346-376 | a body the inspire check lets through is refused by the route only for an unknown direction |
| Page.PolishSendsSelection | app/page.tsx:392-420 | the body carries `inspirations[selected]`; the route refuses it for a missing inspiration exactly when the index is past the list or the text is empty |
| Page.Home.constructor | app/page.tsx:110-157 | the initial state: verify tab, no key, DeepSeek's endpoint "https://api.deepseek.com/v1/chat/completions" and model "deepseek-chat", everything empty |
| Page.Home.SyncPolishInputs | app/page.tsx:170-177 | entering the polish tab from elsewhere copies the verify title and body; otherwise they stay; the remembered tab becomes the current one |
| Page.Home.SelectMainTab | app/page.tsx:170-177 | a tab click followed by its effect: only verify → polish copies the inputs; staying on polish does not re-copy |
| Page.Home.StartParse | app/page.tsx:202-229 | a failed check shows its message (and opens the settings for a missing key) and sends nothing; otherwise old results are cleared and the body is sent |
| Page.Home.FinishParse | app/page.tsx:230-250 | the filtered parameters are stored, or the error is shown and the parameters stay unset; parsing ends either way |
| Page.Home.ApplySheet | app/page.tsx:270-284 | usable rows become the parameter text and the text input is shown; with none the error is shown and the text is left alone |
| Page.Home.StartVerify | app/page.tsx:298-326 | a failed check shows its message and sends nothing; otherwise the body carries the parsed parameters, or `{}` when there are none, and the copy |
| Page.Home.SelectInspiration | app/page.tsx:1251-1254 | choosing an idea selects it and clears the polish error |
| Page.Home.StartPolish | app/page.tsx:392-420 | a failed check shows its message and sends nothing; otherwise the body carries `parsedParams` and the selected idea |

## Left out

- The HTTP exchanges: `fetch`, `NextRequest`/`NextResponse`, `res.text()`, `res.json()` and `await req.json()` are left out. The provider is a function parameter. The page reads a route's JSON body as the value the route put in it.
- `await req.json()` failing, or a request body that is not an object, is left out; every field the handler destructures is a given value, `undefined` when absent.
- `JSON.parse` and `JSON.stringify(…, null, 2)` are given functions, not implemented (their grammar is ECMA-404 / RFC 8259).
- `lib/constants` is not part of this model: the prompt texts, `getDirectionByKey`, `getTemplateByKey` and `POLISH_DIRECTIONS` are abstract fields of `Registry.Catalog`.
- A number is carried as its `String(n)` text; arithmetic on numbers and floating point are out of scope. The temperatures are recorded as the literals 0.1 and 0.8.
- String lengths and string indices count Unicode characters, not UTF-16 code units. For `length` tests only zero matters, and the two counts agree on that. `Object.entries` of a string is different for characters outside the Basic Multilingual Plane: JavaScript lists two entries, one per surrogate, where `Js.Entries` lists one. The page's filter over a string `params` therefore stores one pair per such character, where the page stores two.
- The TypeError messages for reading a property of `null`/`undefined` and for calling a missing `trim` use the V8 engine's wording; other engines word them differently.
- `console.log` calls, `cn`, and all rendering are left out.
- The page's `localStorage` settings, the clipboard, the scrolling timers, and the XLSX/FileReader loading are left out. The sheet conversion starts from the rows `sheet_to_json` returned; the two load-failure messages are not modelled.
- The page's handling of the verify, inspire and polish answers (`setResult`, `setInspirations`, `setPolishedResult`, their error messages) and the inspire button's state changes are left out. The inspire button is modelled by its check alone.
- JavaScript orders integer-like keys of an object first. `Page.Assign` appends new keys instead. Object.entries already lists integer-like keys first, so the filtered object lists its keys in the same order either way.
- `Page.FilterParams` keys are taken from `Object.entries` as they come. `Page.KeptValue` requires those keys to be distinct. `Page.IndexEntriesDistinct` proves this for arrays and strings. For an object it rests on the convention that a `Js.JsValue` object lists each key once; the datatype does not enforce it.
- Prompt substitution: `VerifyRoute.TemplateChoice`, `InspireRoute.Request`, `PolishRoute.Request` and the routes' `Post` functions fill the templates literally, through `Prompt.FillSlots`. The code calls `String.prototype.replace`, which expands `$&`, `$$`, `` $` `` and `$'` in a slot value; see "## Findings". `Prompt.FillSlotsAgree` proves that the two fillings are the same prompt whenever no slot value contains `$`. Otherwise these members describe the intended prompt, not the one the code sends.
- Js.ToString: gives "[object Object]" for every object, which is `String(v)` only when the object has no own `toString` property. A JSON object parsed from the model's reply can carry its own `toString` key; that value is never a function, so `String(v)` falls back to the inherited `valueOf`, which returns the object itself, and JavaScript throws TypeError "Cannot convert object to primitive value". `Page.Keeps`, `Page.Kept` and the `FilterParams` loop therefore keep such a parameter as "[object Object]" where the page throws and shows that message. The same gap applies to `new Error(data.error)` in `Page.ReadParseResponse` and to the comma join of arrays holding such objects.
- `Page.Store` treats only `__proto__` as special. It is the one accessor property of `Object.prototype`. Assigning any other key, an inherited method name such as `toString` included, creates an own property, as `Page.Assign` does.
- server.js, scripts/prepare-standalone.js, app/layout.tsx and next.config.mjs are process, file-system or configuration plumbing.

## Findings

| source | as written | input that shows it | evidently intended | confidence | as-written member | corrected member |
|---|---|---|---|---|---|---|
| app/api/verify/route.ts:25-29 (also app/api/inspire/route.ts:30-35, app/api/polish/route.ts:65-72) | the user's title, body, parameters JSON, inspiration and outline are passed to `String.prototype.replace` as replacement strings, so `$&`, `$$`, `` $` `` and `$'` in them are expanded | a title of `$&` on a template `A{{TITLE}}B` gives `A{{TITLE}}B`, where the placeholder should have become `A$&B` | the text goes in character for character | medium, not executed | Prompt.DollarTitleKeepsPlaceholder (with Prompt.Replace) | Prompt.ReplaceLiteralAt (with Prompt.ReplaceLiteral, used by every route through Prompt.FillSlots) |
