/** The slice of JavaScript semantics the routes and the page depend on:
    values as `JSON.parse` produces them (plus `undefined` for a missing
    property), truthiness, `String(v)`, property access with and without
    optional chaining, `Object.entries`, thrown values, and the JSON built-ins
    `JSON.parse` / `JSON.stringify`, which are taken as given functions. */
module Js {
  import opened Text

  /** A JavaScript value. A number is represented by the text `String(n)`
      gives for it (so `-0` is `Number("0")`); an object by its own enumerable
      properties in property order, each key once. */
  datatype JsValue =
    | Undefined
    | Null
    | Bool(b: bool)
    | Number(repr: string)
    | Str(s: string)
    | Array(elems: seq<JsValue>)
    | Object(props: seq<(string, JsValue)>)
  {
    predicate Nullish()
    {
      Undefined? || Null?
    }
  }

  /** JavaScript truthiness: `undefined`, `null`, `false`, `0`, `NaN` and the
      empty string are falsy; every array and object is truthy. */
  predicate Truthy(v: JsValue)
  {
    match v
    case Undefined => false
    case Null => false
    case Bool(b) => b
    case Number(r) => r != "0" && r != "NaN"
    case Str(s) => s != ""
    case Array(_) => true
    case Object(_) => true
  }

  /** `String(v)`, which is also what template literals and the replacement
      argument of `String.prototype.replace` turn a value into. An array is
      joined by "," with `null`/`undefined` elements as the empty string. */
  function ToString(v: JsValue): string
    decreases v, 1
  {
    match v
    case Undefined => "undefined"
    case Null => "null"
    case Bool(b) => if b then "true" else "false"
    case Number(r) => r
    case Str(s) => s
    case Array(es) => ElementsString(es)
    case Object(_) => "[object Object]"
  }

  /** `Array.prototype.join(",")` over the elements `es`. */
  function ElementsString(es: seq<JsValue>): string
    decreases es, 0
  {
    if |es| == 0 then ""
    else
      var first := if es[0].Nullish() then "" else ToString(es[0]);
      if |es| == 1 then first else first + "," + ElementsString(es[1..])
  }

  /** The value stored under `key` among `props`, if any. */
  function Lookup(props: seq<(string, JsValue)>, key: string): (r: Option<JsValue>)
    ensures r.Some? ==> exists i :: 0 <= i < |props| && props[i] == (key, r.value)
    ensures r.None? ==> forall i :: 0 <= i < |props| ==> props[i].0 != key
  {
    if |props| == 0 then None
    else if props[0].0 == key then Some(props[0].1)
    else
      var r := Lookup(props[1..], key);
      assert r.Some? ==> props[1..][0..] == props[1..];
      r
  }

  /** `v[key]` for a value that is neither `null` nor `undefined`. Arrays and
      strings answer `length` and their index keys; every other missing
      property reads as `undefined`. */
  function Member(v: JsValue, key: string): JsValue
    requires !v.Nullish()
  {
    match v
    case Object(ps) =>
      (match Lookup(ps, key) case Some(x) => x case None => Undefined)
    case Array(es) =>
      if key == "length" then Number(NatToString(|es|))
      else if IsIndexKey(key) && ParseNat(key) < |es| then es[ParseNat(key)]
      else Undefined
    case Str(s) =>
      if key == "length" then Number(NatToString(|s|))
      else if IsIndexKey(key) && ParseNat(key) < |s| then Str([s[ParseNat(key)]])
      else Undefined
    case _ => Undefined
  }

  /** The i-th element of an array is read back under the key `String(i)`. */
  lemma MemberIndex(es: seq<JsValue>, i: nat)
    requires i < |es|
    ensures Member(Array(es), NatToString(i)) == es[i]
  {
    ParseNatToString(i);
    assert NatToString(i) != "length";
  }

  /** A value JavaScript throws. Every throw inside the modelled code is an
      `Error` instance carrying a message; `OtherThrown` stands for anything
      else a collaborator (the HTTP client) might reject with. */
  datatype Thrown = ErrorObject(message: string) | OtherThrown(value: JsValue)

  /** An evaluation that either returns a value or throws. */
  datatype Throws<+T> = Returns(value: T) | Raises(thrown: Thrown)

  /** A `length` read off an array or a string is truthy exactly when it is
      not zero. */
  lemma LengthTruthy(n: nat)
    ensures Truthy(Number(NatToString(n))) <==> n > 0
  {
    var r := NatToString(n);
    assert IsDigit(r[0]) && !IsDigit("NaN"[0]);
    if n == 0 {
      assert r == [DigitChar(0)];
    }
  }

  /** The V8 engine's TypeError wording for a property read on a nullish value. */
  function CannotRead(v: JsValue, key: string): string
  {
    "Cannot read properties of " + (if v.Undefined? then "undefined" else "null")
    + " (reading '" + key + "')"
  }

  /** The V8 engine's TypeError wording for calling something that is not a function. */
  function NotAFunction(callee: string): string
  {
    callee + " is not a function"
  }

  /** `v.key`: throws on `null` and `undefined`. */
  function Get(v: JsValue, key: string): (r: Throws<JsValue>)
    ensures r.Raises? <==> v.Nullish()
  {
    if v.Nullish() then Raises(ErrorObject(CannotRead(v, key))) else Returns(Member(v, key))
  }

  /** `v?.key`: `undefined` on `null` and `undefined`, never throws. */
  function OptGet(v: JsValue, key: string): (r: JsValue)
    ensures v.Nullish() ==> r == Undefined
  {
    if v.Nullish() then Undefined else Member(v, key)
  }

  /** `Object.entries(v)` (and, by its length, `Object.keys(v)`) for a value
      that is neither `null` nor `undefined`: an object's own properties, an
      array's or a string's index keys, nothing for a number or a boolean. */
  function Entries(v: JsValue): (r: seq<(string, JsValue)>)
    requires !v.Nullish()
    ensures v.Object? ==> r == v.props
    ensures v.Array? ==> |r| == |v.elems|
    ensures v.Str? ==> |r| == |v.s|
    ensures v.Bool? || v.Number? ==> r == []
  {
    match v
    case Object(ps) => ps
    case Array(es) => Indexed(es, 0)
    case Str(s) => Indexed(Characters(s), 0)
    case _ => []
  }

  /** The characters of `s`, each as a one-character string. */
  function Characters(s: string): (r: seq<JsValue>)
    ensures |r| == |s|
    ensures forall i :: 0 <= i < |s| ==> r[i] == Str([s[i]])
  {
    if |s| == 0 then [] else [Str([s[0]])] + Characters(s[1..])
  }

  /** `es` keyed by their indices, counting from `base`. */
  function Indexed(es: seq<JsValue>, base: nat): (r: seq<(string, JsValue)>)
    ensures |r| == |es|
    ensures forall i :: 0 <= i < |es| ==> r[i] == (NatToString(base + i), es[i])
  {
    if |es| == 0 then [] else [(NatToString(base), es[0])] + Indexed(es[1..], base + 1)
  }

  /** `Object.entries(v)`, throwing V8's TypeError on `null` and `undefined`. */
  function ObjectEntries(v: JsValue): (r: Throws<seq<(string, JsValue)>>)
    ensures r.Raises? <==> v.Nullish()
  {
    if v.Nullish() then Raises(ErrorObject("Cannot convert undefined or null to object"))
    else Returns(Entries(v))
  }

  /** `v?.trim()`, where `callee` is the source text of `v?.trim` (V8 names it
      in the TypeError for a value that has no `trim` method). */
  function OptionalTrim(v: JsValue, callee: string): (r: Throws<JsValue>)
    ensures v.Str? ==> r == Returns(Str(Trim(v.s)))
    ensures v.Nullish() ==> r == Returns(Undefined)
    ensures !v.Str? && !v.Nullish() ==> r == Raises(ErrorObject(NotAFunction(callee)))
  {
    match v
    case Undefined => Returns(Undefined)
    case Null => Returns(Undefined)
    case Str(s) => Returns(Str(Trim(s)))
    case _ => Raises(ErrorObject(NotAFunction(callee)))
  }

  /** What `JSON.parse(text)` does: return a value or throw a SyntaxError. */
  datatype ParseResult = Parsed(value: JsValue) | SyntaxError(message: string)

  /** The JSON built-ins, taken as given: `JSON.parse` (ECMA-404 / RFC 8259
      grammar) and `JSON.stringify(v, null, 2)`. */
  datatype Runtime = Runtime(parse: string -> ParseResult, stringify: JsValue -> string)
}
