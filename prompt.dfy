/** Prompt assembly shared by the verify, inspire and polish routes: `||`
    defaults for the title and body slots, the "user supplied parameters"
    test, and placeholder substitution with `String.prototype.replace`. */
module Prompt {
  import opened Text
  import opened Js
  import opened Registry

  const UntitledText := "（无标题）"
  const EmptyBodyText := "（无正文）"

  /** JavaScript `v || fallback`. */
  function Or(v: JsValue, fallback: JsValue): (r: JsValue)
    ensures Truthy(v) ==> r == v
    ensures !Truthy(v) ==> r == fallback
  {
    if Truthy(v) then v else fallback
  }

  /** The text a `{{TITLE}}` or `{{CONTENT}}` slot receives: the field when it
      is truthy, the fallback wording otherwise. */
  function TextSlot(v: JsValue, fallback: string): (r: string)
    ensures v.Str? && v.s != "" ==> r == v.s
    ensures Truthy(v) ==> r == ToString(v)
    ensures !Truthy(v) ==> r == fallback
  {
    ToString(Or(v, Str(fallback)))
  }

  /** The five slots the inspire and polish templates share, in the order
      the routes fill them: the parameters as pretty-printed JSON (`{}` when
      there are none), the title and the body with their fallbacks, and the
      direction's label and description. */
  function DirectionSlots(rt: Runtime, params: JsValue, title: JsValue, content: JsValue, d: Direction)
    : (slots: seq<(string, string)>)
    ensures |slots| == 5
    ensures !Truthy(params) ==> slots[0] == ("{{PARAMS}}", rt.stringify(Object([])))
    ensures Truthy(params) ==> slots[0] == ("{{PARAMS}}", rt.stringify(params))
    ensures slots[1].0 == "{{TITLE}}" && slots[2].0 == "{{CONTENT}}"
    ensures title.Str? && title.s != "" ==> slots[1].1 == title.s
    ensures !Truthy(title) ==> slots[1].1 == UntitledText
    ensures content.Str? && content.s != "" ==> slots[2].1 == content.s
    ensures !Truthy(content) ==> slots[2].1 == EmptyBodyText
    ensures slots[3] == ("{{DIRECTION_LABEL}}", d.labelText) && slots[4] == ("{{DIRECTION_DESC}}", d.description)
  {
    [ ("{{PARAMS}}", rt.stringify(Or(params, Object([])))),
      ("{{TITLE}}", TextSlot(title, UntitledText)),
      ("{{CONTENT}}", TextSlot(content, EmptyBodyText)),
      ("{{DIRECTION_LABEL}}", d.labelText),
      ("{{DIRECTION_DESC}}", d.description) ]
  }

  /** `params && Object.keys(params).length > 0`, used as a condition. */
  predicate HasParams(params: JsValue)
  {
    Truthy(params) && |Entries(params)| > 0
  }

  /** For the values a JSON request body can carry: an object counts as
      parameters exactly when it has a property, a string when it is
      non-empty, an array when it has an element; nothing else counts. */
  lemma HasParamsIff(params: JsValue)
    ensures params.Object? ==> (HasParams(params) <==> |params.props| > 0)
    ensures params.Array? ==> (HasParams(params) <==> |params.elems| > 0)
    ensures params.Str? ==> (HasParams(params) <==> params.s != "")
    ensures params.Nullish() || params.Bool? || params.Number? ==> !HasParams(params)
    ensures HasParams(params) ==> Or(params, Object([])) == params
  {
  }

  /** GetSubstitution of ECMA-262 (section 22.1.3.19.1) for a string pattern,
      which has no capture groups: `$$`, `$&`, `` $` `` and `$'` are expanded
      to "$", the match, the text before it and the text after it; every
      other character, including any other `$`, is copied. */
  function Expand(rep: string, matched: string, before: string, after: string): string
    decreases |rep|
  {
    if |rep| == 0 then ""
    else if rep[0] == '$' && |rep| >= 2 && rep[1] == '$' then
      "$" + Expand(rep[2..], matched, before, after)
    else if rep[0] == '$' && |rep| >= 2 && rep[1] == '&' then
      matched + Expand(rep[2..], matched, before, after)
    else if rep[0] == '$' && |rep| >= 2 && rep[1] == '`' then
      before + Expand(rep[2..], matched, before, after)
    else if rep[0] == '$' && |rep| >= 2 && rep[1] == '\'' then
      after + Expand(rep[2..], matched, before, after)
    else
      [rep[0]] + Expand(rep[1..], matched, before, after)
  }

  /** A replacement text without `$` is inserted as it is. */
  lemma {:induction false} ExpandLiteral(rep: string, matched: string, before: string, after: string)
    requires '$' !in rep
    ensures Expand(rep, matched, before, after) == rep
  {
    if |rep| > 0 {
      assert rep[0] != '$';
      assert '$' !in rep[1..] by {
        forall k | 0 <= k < |rep[1..]| ensures rep[1..][k] != '$' {
          assert rep[1..][k] == rep[k + 1];
        }
      }
      ExpandLiteral(rep[1..], matched, before, after);
      assert rep == [rep[0]] + rep[1..];
    }
  }

  /** `s.replace(p, rep)` as JavaScript evaluates it for a string `p`: only
      the first occurrence is replaced, with `$` patterns in `rep` expanded. */
  function Replace(s: string, p: string, rep: string): string
  {
    match IndexOf(s, p)
    case None => s
    case Some(i) => s[..i] + Expand(rep, p, s[..i], s[i + |p|..]) + s[i + |p|..]
  }

  /** Placeholder substitution as the prompt templates intend it: the first
      occurrence of `p` becomes `rep`, character for character. */
  function ReplaceLiteral(s: string, p: string, rep: string): string
  {
    match IndexOf(s, p)
    case None => s
    case Some(i) => s[..i] + rep + s[i + |p|..]
  }

  /** For every replacement text without `$`, JavaScript's `replace` and the
      literal substitution agree. */
  lemma ReplaceAgrees(s: string, p: string, rep: string)
    requires '$' !in rep
    ensures Replace(s, p, rep) == ReplaceLiteral(s, p, rep)
  {
    match IndexOf(s, p)
    case None =>
    case Some(i) => ExpandLiteral(rep, p, s[..i], s[i + |p|..]);
  }

  /** A template `a + p + b`, where `p` does not start anywhere inside `a`,
      becomes `a + rep + b`; a template without `p` is left as it is. */
  lemma ReplaceLiteralAt(a: string, p: string, b: string, rep: string)
    requires forall i :: 0 <= i < |a| ==> !Occurs(a + p + b, p, i)
    ensures ReplaceLiteral(a + p + b, p, rep) == a + rep + b
  {
    FirstOccurrenceAt(a, p, b);
  }

  /** In `a + p + b`, with `p` starting nowhere inside `a`, the first `p` is
      the one after `a`. */
  lemma FirstOccurrenceAt(a: string, p: string, b: string)
    requires forall i :: 0 <= i < |a| ==> !Occurs(a + p + b, p, i)
    ensures IndexOf(a + p + b, p) == Some(|a|)
    ensures (a + p + b)[..|a|] == a && (a + p + b)[|a| + |p|..] == b
  {
    var s := a + p + b;
    assert s[|a|..|a| + |p|] == p;
    assert Occurs(s, p, |a|);
    assert s[..|a|] == a;
    assert s[|a| + |p|..] == b;
  }

  /** JavaScript's `replace` is not literal: a title of "$&" puts the
      placeholder itself back into the prompt, where the intended
      substitution inserts the two characters. */
  lemma DollarTitleKeepsPlaceholder()
    ensures Replace("A{{TITLE}}B", "{{TITLE}}", "$&") == "A{{TITLE}}B"
    ensures ReplaceLiteral("A{{TITLE}}B", "{{TITLE}}", "$&") == "A$&B"
  {
    assert "A{{TITLE}}B" == "A" + "{{TITLE}}" + "B";
    assert !Occurs("A{{TITLE}}B", "{{TITLE}}", 0) by {
      assert "A{{TITLE}}B"[0..9][0] == 'A';
    }
    FirstOccurrenceAt("A", "{{TITLE}}", "B");
    assert Expand("$&", "{{TITLE}}", "A", "B") == "{{TITLE}}" + Expand("", "{{TITLE}}", "A", "B");
  }

  lemma ReplaceLiteralAbsent(s: string, p: string, rep: string)
    requires forall i :: !Occurs(s, p, i)
    ensures ReplaceLiteral(s, p, rep) == s
  {
  }

  /** The `.replace(...)` chain of a route: each `(placeholder, value)` pair
      in turn, applied to the text the previous one produced. */
  function FillSlots(template: string, slots: seq<(string, string)>): string
    decreases |slots|
  {
    if |slots| == 0 then template
    else FillSlots(ReplaceLiteral(template, slots[0].0, slots[0].1), slots[1..])
  }

  /** The slots filled as the routes' code does it, with `replace`. */
  function FillSlotsAsWritten(template: string, slots: seq<(string, string)>): string
    decreases |slots|
  {
    if |slots| == 0 then template
    else FillSlotsAsWritten(Replace(template, slots[0].0, slots[0].1), slots[1..])
  }

  /** When no slot value contains `$`, the routes' `replace` chain sends
      exactly the prompt the literal filling describes. */
  lemma {:induction false} FillSlotsAgree(template: string, slots: seq<(string, string)>)
    requires forall k :: 0 <= k < |slots| ==> '$' !in slots[k].1
    ensures FillSlotsAsWritten(template, slots) == FillSlots(template, slots)
    decreases |slots|
  {
    if |slots| > 0 {
      ReplaceAgrees(template, slots[0].0, slots[0].1);
      var t := Replace(template, slots[0].0, slots[0].1);
      assert forall k :: 0 <= k < |slots[1..]| ==> '$' !in slots[1..][k].1 by {
        forall k | 0 <= k < |slots[1..]| ensures '$' !in slots[1..][k].1 {
          assert slots[1..][k] == slots[k + 1];
        }
      }
      FillSlotsAgree(t, slots[1..]);
    }
  }

  /** A template that contains none of the placeholders goes out unchanged,
      whatever the values are. */
  lemma {:induction false} FillSlotsAbsent(template: string, slots: seq<(string, string)>)
    requires forall k, i :: 0 <= k < |slots| ==> !Occurs(template, slots[k].0, i)
    ensures FillSlots(template, slots) == template
  {
    if |slots| > 0 {
      ReplaceLiteralAbsent(template, slots[0].0, slots[0].1);
      assert forall k, i :: 0 <= k < |slots[1..]| ==> !Occurs(template, slots[1..][k].0, i) by {
        forall k, i | 0 <= k < |slots[1..]| ensures !Occurs(template, slots[1..][k].0, i) {
          assert slots[1..][k] == slots[k + 1];
        }
      }
      FillSlotsAbsent(template, slots[1..]);
    }
  }

  /** Filling a slot whose placeholder occurs once, then the rest: the value
      lands where the placeholder was. */
  lemma FillSlotsStep(a: string, p: string, b: string, rep: string, rest: seq<(string, string)>)
    requires forall i :: 0 <= i < |a| ==> !Occurs(a + p + b, p, i)
    ensures FillSlots(a + p + b, [(p, rep)] + rest) == FillSlots(a + rep + b, rest)
  {
    ReplaceLiteralAt(a, p, b, rep);
    assert ([(p, rep)] + rest)[1..] == rest;
  }
}
