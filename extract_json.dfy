/** `extractJSON` of lib/utils.ts: recover one JSON value from a model's reply
    by trying, in order, the trimmed reply, the interior of its first fenced
    code block, and the span from its first `{` to its last `}`. `JSON.parse`
    is the given function `parse`. */
module ExtractJson {
  import opened Text
  import opened Js

  const Fence := "```"

  /** The one message every failure carries. */
  const Unparsable := "无法解析AI返回的数据，请重试"

  /** Where the regular expression's capture starts when the fence ends at `k`:
      after an optional `json` tag and then as much white space as there is. */
  function InteriorStart(t: string, k: nat): (q: nat)
    requires k <= |t|
    ensures k <= q <= |t|
    ensures forall i :: k <= i < q ==> t[i] != '`'
  {
    var k' := if Occurs(t, "json", k) then k + 4 else k;
    var n := LeadingSpaces(t[k'..]);
    NoTickBefore(t, k, k', n);
    k' + n
  }

  /** The capture starts after the optional tag and all the white space
      that follows it. */
  lemma InteriorStartSkips(t: string, k: nat)
    requires k <= |t|
    ensures var k' := if Occurs(t, "json", k) then k + 4 else k;
            k' <= InteriorStart(t, k) && AllSpace(t[k'..InteriorStart(t, k)])
            && (InteriorStart(t, k) == |t| || !IsSpace(t[InteriorStart(t, k)]))
  {
    var k' := if Occurs(t, "json", k) then k + 4 else k;
    var n := LeadingSpaces(t[k'..]);
    NoTickBefore(t, k, k', n);
    assert InteriorStart(t, k) == k' + n;
    assert t[k'..k' + n] == t[k'..][..n];
    assert k' + n < |t| ==> t[k'..][n] == t[k' + n];
  }

  /** Neither the `json` tag nor white space contains a backtick. */
  lemma NoTickBefore(t: string, k: nat, k': nat, n: nat)
    requires k <= |t|
    requires k' == (if Occurs(t, "json", k) then k + 4 else k)
    requires n == LeadingSpaces(t[k'..])
    ensures k' + n <= |t|
    ensures forall i :: k <= i < k' + n ==> t[i] != '`'
  {
    forall i | k <= i < k' + n ensures t[i] != '`' {
      if i < k' {
        assert t[k..k + 4][i - k] == t[i];
      } else {
        assert t[k'..][..n][i - k'] == t[i];
        assert IsSpace(t[k'..][..n][i - k']);
      }
    }
  }

  /** Group 1 of `/```(?:json)?\s*([\s\S]*?)```/` matched against `t`, if the
      expression matches: the text after the first fence (and its optional tag
      and white space) up to the next fence. */
  function FencedInterior(t: string): Option<string>
  {
    match IndexOf(t, Fence)
    case None => None
    case Some(p) =>
      var q := InteriorStart(t, p + 3);
      match FindFrom(t, Fence, q)
      case None => None
      case Some(e) => Some(t[q..e])
  }

  /** The second candidate: the fenced interior, trimmed. */
  function FenceCandidate(t: string): Option<string>
  {
    match FencedInterior(t)
    case None => None
    case Some(c) => Some(Trim(c))
  }

  /** The third candidate: what `/\{[\s\S]*\}/` matches, the span from the
      first `{` to the last `}`. */
  function BraceSpan(t: string): Option<string>
  {
    match CharIndex(t, '{')
    case None => None
    case Some(p) =>
      match LastIndexOf(t, '}')
      case None => None
      case Some(l) => if p < l then Some(t[p..l + 1]) else None
  }

  /** The candidates in the order they are tried. */
  function Candidates(t: string): seq<string>
  {
    [t] + OptList(FenceCandidate(t)) + OptList(BraceSpan(t))
  }

  function OptList(o: Option<string>): seq<string>
  {
    match o
    case Some(c) => [c]
    case None => []
  }

  /** `JSON.parse(c)` when there is a candidate `c` and it parses. */
  function TryParse(parse: string -> ParseResult, c: Option<string>): Option<JsValue>
  {
    match c
    case None => None
    case Some(s) => (match parse(s) case Parsed(v) => Some(v) case SyntaxError(_) => None)
  }

  /** `extractJSON(text)` for a string `text`. */
  function Extract(parse: string -> ParseResult, text: string): Throws<JsValue>
  {
    var t := Trim(text);
    match TryParse(parse, Some(t))
    case Some(v) => Returns(v)
    case None =>
      match TryParse(parse, FenceCandidate(t))
      case Some(v) => Returns(v)
      case None =>
        match TryParse(parse, BraceSpan(t))
        case Some(v) => Returns(v)
        case None => Raises(ErrorObject(Unparsable))
  }

  /** `extractJSON(text)` for whatever value the reply's content is: only a
      string has the `trim` the first line calls. */
  function ExtractJSON(parse: string -> ParseResult, text: JsValue): Throws<JsValue>
  {
    match text
    case Str(s) => Extract(parse, s)
    case Undefined => Raises(ErrorObject(CannotRead(text, "trim")))
    case Null => Raises(ErrorObject(CannotRead(text, "trim")))
    case _ => Raises(ErrorObject(NotAFunction("text.trim")))
  }

  /** Reference definition: the first candidate that parses, else the failure. */
  function FirstParsed(parse: string -> ParseResult, cs: seq<string>): Throws<JsValue>
  {
    if |cs| == 0 then Raises(ErrorObject(Unparsable))
    else
      match parse(cs[0])
      case Parsed(v) => Returns(v)
      case SyntaxError(_) => FirstParsed(parse, cs[1..])
  }

  /** `extractJSON` is "first candidate that parses" over the three candidates. */
  lemma ExtractIsFirstParsed(parse: string -> ParseResult, text: string)
    ensures Extract(parse, text) == FirstParsed(parse, Candidates(Trim(text)))
  {
    var t := Trim(text);
    var f, b := FenceCandidate(t), BraceSpan(t);
    assert Candidates(t) == OptList(Some(t)) + (OptList(f) + (OptList(b) + []));
    FirstParsedStep(parse, Some(t), OptList(f) + (OptList(b) + []));
    FirstParsedStep(parse, f, OptList(b) + []);
    FirstParsedStep(parse, b, []);
  }

  /** Trying an optional candidate in front of the others. */
  lemma FirstParsedStep(parse: string -> ParseResult, o: Option<string>, rest: seq<string>)
    ensures FirstParsed(parse, OptList(o) + rest)
            == match TryParse(parse, o) case Some(v) => Returns(v) case None => FirstParsed(parse, rest)
  {
    if o.Some? {
      assert (OptList(o) + rest)[1..] == rest;
    } else {
      assert OptList(o) + rest == rest;
    }
  }

  /** When the trimmed text parses, that value is the result and no other
      candidate is consulted: any parser that agrees on the trimmed text gives
      the same answer. */
  lemma DirectParseWins(parse: string -> ParseResult, other: string -> ParseResult, text: string)
    requires parse(Trim(text)).Parsed?
    requires other(Trim(text)) == parse(Trim(text))
    ensures Extract(parse, text) == Returns(parse(Trim(text)).value)
    ensures Extract(other, text) == Extract(parse, text)
  {
  }

  /** The result depends on the trimmed text only. */
  lemma ExtractOfTrimmed(parse: string -> ParseResult, text: string)
    ensures Extract(parse, text) == Extract(parse, Trim(text))
  {
    TrimIdempotent(text);
  }

  /** Every candidate is a slice of the trimmed text. */
  lemma CandidatesAreSlices(t: string)
    ensures forall c :: c in Candidates(t) ==> IsSlice(c, t)
  {
    FenceCandidateIsSlice(t);
    BraceSpanIsSlice(t);
    assert t == t[0..|t|];
  }

  lemma FenceCandidateIsSlice(t: string)
    ensures FenceCandidate(t).Some? ==> IsSlice(FenceCandidate(t).value, t)
  {
    if FencedInterior(t).Some? {
      FencedInteriorShape(t);
      var c := FencedInterior(t).value;
      var q, e :| 0 <= q <= e <= |t| && c == t[q..e];
      TrimOfSlice(t, q, e);
    }
  }

  /** Trimming a slice leaves a slice. */
  lemma TrimOfSlice(t: string, q: nat, e: nat)
    requires q <= e <= |t|
    ensures IsSlice(Trim(t[q..e]), t)
  {
    var c := t[q..e];
    TrimSlice(c);
    var a := LeadingSpaces(c);
    var n := |Trim(c)|;
    SliceOfSlice(t, q, e, a, a + n);
    assert Trim(c) == t[q + a..q + a + n];
  }

  lemma SliceOfSlice(t: string, q: nat, e: nat, i: nat, j: nat)
    requires q <= e <= |t| && i <= j <= e - q
    ensures t[q..e][i..j] == t[q + i..q + j]
  {
    var l, r := t[q..e][i..j], t[q + i..q + j];
    assert |l| == |r|;
    forall k | 0 <= k < |l| ensures l[k] == r[k] {
      assert l[k] == t[q..e][i + k] == t[q + i + k];
    }
  }

  lemma BraceSpanIsSlice(t: string)
    ensures BraceSpan(t).Some? ==> IsSlice(BraceSpan(t).value, t)
  {
    if BraceSpan(t).Some? {
      var p := CharIndex(t, '{').value;
      var l := LastIndexOf(t, '}').value;
      assert BraceSpan(t).value == t[p..l + 1];
    }
  }

  ghost predicate IsSlice(c: string, t: string)
  {
    exists i, j :: 0 <= i <= j <= |t| && c == t[i..j]
  }

  /** Soundness: a returned value is what `parse` gives for one of the
      candidates, each a slice of the trimmed input. */
  lemma ExtractSound(parse: string -> ParseResult, text: string, v: JsValue)
    requires Extract(parse, text) == Returns(v)
    ensures exists c :: c in Candidates(Trim(text)) && parse(c) == Parsed(v) && IsSlice(c, Trim(text))
  {
    ExtractIsFirstParsed(parse, text);
    CandidatesAreSlices(Trim(text));
    FirstParsedSound(parse, Candidates(Trim(text)), v);
  }

  lemma {:induction false} FirstParsedSound(parse: string -> ParseResult, cs: seq<string>, v: JsValue)
    requires FirstParsed(parse, cs) == Returns(v)
    ensures exists c :: c in cs && parse(c) == Parsed(v)
  {
    if parse(cs[0]).SyntaxError? {
      FirstParsedSound(parse, cs[1..], v);
      var c :| c in cs[1..] && parse(c) == Parsed(v);
      assert c in cs;
    }
  }

  /** Failure happens exactly when no candidate parses, and it always carries
      the one fixed message. */
  lemma ExtractFailsIff(parse: string -> ParseResult, text: string)
    ensures Extract(parse, text).Raises?
            <==> forall c :: c in Candidates(Trim(text)) ==> parse(c).SyntaxError?
    ensures Extract(parse, text).Raises? ==> Extract(parse, text).thrown == ErrorObject(Unparsable)
  {
    ExtractIsFirstParsed(parse, text);
    FirstParsedFails(parse, Candidates(Trim(text)));
  }

  lemma {:induction false} FirstParsedFails(parse: string -> ParseResult, cs: seq<string>)
    ensures FirstParsed(parse, cs).Raises? <==> forall c :: c in cs ==> parse(c).SyntaxError?
    ensures FirstParsed(parse, cs).Raises? ==> FirstParsed(parse, cs).thrown == ErrorObject(Unparsable)
  {
    if |cs| > 0 {
      FirstParsedFails(parse, cs[1..]);
      assert forall c :: c in cs <==> c == cs[0] || c in cs[1..];
    }
  }

  /** The fenced candidate exists exactly when some fence starts at least three
      characters after the first fence: the optional tag and the white space
      the expression skips can never hide a closing fence, so backtracking
      finds no other match. */
  lemma FencedInteriorExists(t: string)
    ensures FencedInterior(t).Some?
            <==> IndexOf(t, Fence).Some? && FindFrom(t, Fence, IndexOf(t, Fence).value + 3).Some?
  {
    match IndexOf(t, Fence) {
      case None =>
      case Some(p) =>
        var q := InteriorStart(t, p + 3);
        match FindFrom(t, Fence, p + 3) {
          case None =>
          case Some(e) =>
            assert t[e] == t[e..e + 3][0] == Fence[0];
            assert q <= e;
        }
    }
  }

  /** The fenced interior starts after the first fence, its optional `json`
      tag and all the white space that follows, and ends at the first fence
      from there; it holds no fence itself. */
  lemma FencedInteriorShape(t: string)
    requires FencedInterior(t).Some?
    ensures var p := IndexOf(t, Fence).value;
            var k := if Occurs(t, "json", p + 3) then p + 7 else p + 3;
            exists q, e :: k <= q <= e && e + 3 <= |t| && FencedInterior(t).value == t[q..e]
              && AllSpace(t[k..q]) && !IsSpace(t[q])
              && Occurs(t, Fence, e) && (forall i :: q <= i < e ==> !Occurs(t, Fence, i))
    ensures forall i :: 0 <= i <= |FencedInterior(t).value| - 3 ==> !Occurs(FencedInterior(t).value, Fence, i)
  {
    var c := FencedInterior(t).value;
    var p := IndexOf(t, Fence).value;
    var q := InteriorStart(t, p + 3);
    InteriorStartSkips(t, p + 3);
    var e := FindFrom(t, Fence, q).value;
    assert c == t[q..e];
    assert |Fence| == 3;
    forall i | 0 <= i <= |c| - 3 ensures !Occurs(c, Fence, i) {
      assert !Occurs(t, Fence, q + i);
      SliceOfSlice(t, q, e, i, i + 3);
    }
  }

  /** The brace candidate exists exactly when some `}` follows some `{`; it
      then starts at the first `{` and ends at the last `}`. */
  lemma BraceSpanIff(t: string)
    ensures BraceSpan(t).Some?
            <==> exists i, j :: 0 <= i < j < |t| && t[i] == '{' && t[j] == '}'
    ensures BraceSpan(t).Some? ==>
              var b := BraceSpan(t).value;
              |b| >= 2 && b[0] == '{' && b[|b| - 1] == '}'
              && exists p: nat, e: nat :: p <= e <= |t| && b == t[p..e]
                                          && (forall k :: 0 <= k < p ==> t[k] != '{')
                                          && (forall k :: e <= k < |t| ==> t[k] != '}')
  {
    match CharIndex(t, '{') {
      case None =>
      case Some(p) =>
        match LastIndexOf(t, '}') {
          case None =>
          case Some(l) =>
            if p < l {
              var b := t[p..l + 1];
              assert b[0] == t[p] && b[|b| - 1] == t[l];
              assert b == t[p..l + 1];
            }
        }
    }
  }

  const Example := "Sure! ```json\n{\"a\":1}\n```"

  /** The example reply "Sure! ```json\n{\"a\":1}\n```" yields the fenced
      candidate `{"a":1}`. */
  lemma FencedExample()
    ensures FenceCandidate(Example) == Some("{\"a\":1}")
  {
    ExampleFirstFence();
    ExampleInteriorStart();
    ExampleClosingFence();
    assert FencedInterior(Example) == Some(Example[14..22]);
    ExampleTrim();
  }

  lemma ExampleFirstFence()
    ensures IndexOf(Example, Fence) == Some(6)
  {
    var t := Example;
    forall i | 0 <= i < 6 ensures !Occurs(t, Fence, i) { NoFenceAt(t, i); }
    assert t[6] == '`' && t[7] == '`' && t[8] == '`';
    assert t[6..9] == [t[6], t[7], t[8]] == Fence;
    FindFromAt(t, Fence, 0, 6);
  }

  lemma ExampleInteriorStart()
    ensures InteriorStart(Example, 9) == 14
  {
    var t := Example;
    assert t[9] == 'j' && t[10] == 's' && t[11] == 'o' && t[12] == 'n';
    assert t[9..13] == [t[9], t[10], t[11], t[12]] == "json";
    assert Occurs(t, "json", 9);
    var s := t[13..];
    assert s[0] == '\n' && s[1] == '{';
    assert LeadingSpaces(s) == 1;
  }

  lemma ExampleClosingFence()
    ensures FindFrom(Example, Fence, 14) == Some(22)
  {
    var t := Example;
    forall i | 14 <= i < 22 ensures !Occurs(t, Fence, i) { NoFenceAt(t, i); }
    assert t[22] == '`' && t[23] == '`' && t[24] == '`';
    assert t[22..25] == [t[22], t[23], t[24]] == Fence;
    FindFromAt(t, Fence, 14, 22);
  }

  lemma ExampleTrim()
    ensures Trim(Example[14..22]) == "{\"a\":1}"
  {
    var c := Example[14..22];
    assert c == "{\"a\":1}\n";
    assert LeadingSpaces(c) == 0;
    assert c[0..] == c;
    assert c[6] == '}' && c[7] == '\n';
    assert EndOfText(c) == 7;
  }

  /** Pinning the result of a search by its first occurrence. */
  lemma FindFromAt(s: string, p: string, from: nat, r: nat)
    requires from <= r && Occurs(s, p, r)
    requires forall i :: from <= i < r ==> !Occurs(s, p, i)
    ensures FindFrom(s, p, from) == Some(r)
  {
  }

  lemma NoFenceAt(t: string, i: nat)
    requires i < |t| && t[i] != '`'
    ensures !Occurs(t, Fence, i)
  {
    if i + 3 <= |t| {
      assert t[i..i + 3][0] == t[i];
    }
  }
}
