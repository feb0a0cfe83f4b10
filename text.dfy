/** Text primitives shared by the server routes and the page: JavaScript's notion
    of white space and `String.prototype.trim`, substring search (`indexOf`,
    `lastIndexOf`), decimal rendering of numbers, and joining/splitting lines. */
module Text {

  datatype Option<+T> = None | Some(value: T)

  /** WhiteSpace and LineTerminator of ECMA-262 (sections 12.2 and 12.3): the
      characters `trim` strips and the regular-expression class `\s` matches. */
  predicate IsSpace(c: char)
  {
    || c == '\t' || c == '\n' || c == '\U{B}' || c == '\U{C}' || c == '\r'
    || c == ' ' || c == '\U{A0}' || c == '\U{1680}'
    || ('\U{2000}' <= c <= '\U{200A}')
    || c == '\U{2028}' || c == '\U{2029}' || c == '\U{202F}' || c == '\U{205F}'
    || c == '\U{3000}' || c == '\U{FEFF}'
  }

  predicate AllSpace(s: string)
  {
    forall i :: 0 <= i < |s| ==> IsSpace(s[i])
  }

  /** Number of white-space characters at the front of `s`. */
  function LeadingSpaces(s: string): (k: nat)
    ensures k <= |s|
    ensures AllSpace(s[..k])
    ensures k == |s| || !IsSpace(s[k])
  {
    if |s| > 0 && IsSpace(s[0]) then
      var k := 1 + LeadingSpaces(s[1..]);
      assert s[..k] == [s[0]] + s[1..][..k - 1];
      k
    else 0
  }

  /** Length of `s` once the white-space characters at its end are dropped. */
  function EndOfText(s: string): (j: nat)
    ensures j <= |s|
    ensures AllSpace(s[j..])
    ensures j == 0 || !IsSpace(s[j - 1])
  {
    if |s| > 0 && IsSpace(s[|s| - 1]) then
      var j := EndOfText(s[..|s| - 1]);
      assert s[j..] == s[..|s| - 1][j..] + [s[|s| - 1]];
      j
    else |s|
  }

  /** `String.prototype.trim`. */
  function Trim(s: string): (r: string)
  {
    var t := s[LeadingSpaces(s)..];
    t[..EndOfText(t)]
  }

  /** The trimmed text is the slice of `s` between its leading and its
      trailing white space, and it neither starts nor ends with white space. */
  lemma TrimSlice(s: string)
    ensures var a := LeadingSpaces(s);
            a + |Trim(s)| <= |s| && Trim(s) == s[a..a + |Trim(s)|]
            && AllSpace(s[..a]) && AllSpace(s[a + |Trim(s)|..])
    ensures Trim(s) != [] ==> !IsSpace(Trim(s)[0]) && !IsSpace(Trim(s)[|Trim(s)| - 1])
  {
    var a := LeadingSpaces(s);
    var t := s[a..];
    var j := EndOfText(t);
    assert Trim(s) == s[a..a + j];
    assert s[a + j..] == t[j..];
  }

  /** Trimming twice is trimming once. */
  lemma TrimIdempotent(s: string)
    ensures Trim(Trim(s)) == Trim(s)
  {
    var r := Trim(s);
    TrimSlice(s);
    if r != [] {
      assert LeadingSpaces(r) == 0;
      assert r[0..] == r;
      assert EndOfText(r) == |r|;
    }
  }

  /** `s.trim()` is empty exactly when `s` is nothing but white space. */
  lemma TrimEmptyIff(s: string)
    ensures Trim(s) == [] <==> AllSpace(s)
  {
    TrimSlice(s);
    var a := LeadingSpaces(s);
    if Trim(s) == [] {
      assert a == |s|;
      forall i | 0 <= i < |s| ensures IsSpace(s[i]) {
        assert s[..a][i] == s[i];
      }
    } else {
      assert s[a] == Trim(s)[0];
    }
  }

  /** `p` occurs in `s` starting at index `i`. */
  predicate Occurs(s: string, p: string, i: nat)
  {
    i + |p| <= |s| && s[i..i + |p|] == p
  }

  /** `s.indexOf(p, from)`: the first occurrence of `p` at or after `from`. */
  function FindFrom(s: string, p: string, from: nat): (r: Option<nat>)
    decreases |s| - from
    ensures r.Some? ==> from <= r.value && Occurs(s, p, r.value)
    ensures r.Some? ==> forall i :: from <= i < r.value ==> !Occurs(s, p, i)
    ensures r.None? ==> forall i :: from <= i ==> !Occurs(s, p, i)
  {
    if from + |p| > |s| then None
    else if Occurs(s, p, from) then Some(from)
    else FindFrom(s, p, from + 1)
  }

  /** `s.indexOf(p)`. */
  function IndexOf(s: string, p: string): (r: Option<nat>)
    ensures r.Some? ==> Occurs(s, p, r.value) && forall i :: 0 <= i < r.value ==> !Occurs(s, p, i)
    ensures r.None? ==> forall i :: !Occurs(s, p, i)
  {
    FindFrom(s, p, 0)
  }

  /** `s.lastIndexOf(c)` for a single character. */
  function LastIndexOf(s: string, c: char): (r: Option<nat>)
    ensures r.Some? ==> r.value < |s| && s[r.value] == c
    ensures r.Some? ==> forall i :: r.value < i < |s| ==> s[i] != c
    ensures r.None? ==> forall i :: 0 <= i < |s| ==> s[i] != c
  {
    if |s| == 0 then None
    else if s[|s| - 1] == c then Some(|s| - 1)
    else LastIndexOf(s[..|s| - 1], c)
  }

  /** Decimal digit for 0..9. */
  function DigitChar(d: nat): char
    requires d < 10
  {
    "0123456789"[d]
  }

  predicate IsDigit(c: char)
  {
    '0' <= c <= '9'
  }

  /** Decimal rendering of a natural number, as JavaScript's `String(n)` and
      template literals give it for a non-negative integer. */
  function NatToString(n: nat): (r: string)
    ensures |r| > 0
    ensures forall i :: 0 <= i < |r| ==> IsDigit(r[i])
    ensures r[0] == '0' ==> n == 0 && r == "0"
  {
    if n < 10 then [DigitChar(n)] else NatToString(n / 10) + [DigitChar(n % 10)]
  }

  /** Value of a string of decimal digits. */
  function ParseNat(s: string): nat
  {
    if |s| == 0 then 0
    else
      var d := s[|s| - 1] as int - '0' as int;
      ParseNat(s[..|s| - 1]) * 10 + (if 0 <= d then d else 0)
  }

  /** A property key that JavaScript treats as an array index: the rendering
      of some natural number. */
  predicate IsIndexKey(k: string)
  {
    && |k| > 0
    && (forall i :: 0 <= i < |k| ==> IsDigit(k[i]))
    && (k[0] == '0' ==> k == "0")
  }

  /** Reading a rendered number back gives the number. */
  lemma {:induction false} ParseNatToString(n: nat)
    ensures ParseNat(NatToString(n)) == n
  {
    if n >= 10 {
      var s := NatToString(n);
      assert s[..|s| - 1] == NatToString(n / 10);
      ParseNatToString(n / 10);
    }
  }

  /** Rendering is injective, so distinct indices give distinct keys. */
  lemma NatToStringInjective(m: nat, n: nat)
    ensures NatToString(m) == NatToString(n) ==> m == n
  {
    if NatToString(m) == NatToString(n) {
      ParseNatToString(m);
      ParseNatToString(n);
    }
  }

  /** `xs.join(sep)` over strings. */
  function Join(xs: seq<string>, sep: string): string
  {
    if |xs| == 0 then ""
    else if |xs| == 1 then xs[0]
    else xs[0] + sep + Join(xs[1..], sep)
  }

  /** Index of the first `c` in `s`. */
  function CharIndex(s: string, c: char): (r: Option<nat>)
    ensures r.Some? ==> r.value < |s| && s[r.value] == c
    ensures r.Some? ==> forall k :: 0 <= k < r.value ==> s[k] != c
    ensures r.None? ==> forall k :: 0 <= k < |s| ==> s[k] != c
  {
    if |s| == 0 then None
    else if s[0] == c then Some(0)
    else
      match CharIndex(s[1..], c)
      case None => None
      case Some(i) => Some(i + 1)
  }

  /** `s.split(c)` for a one-character separator. */
  function Split(s: string, c: char): (r: seq<string>)
    decreases |s|
    ensures |r| > 0
  {
    match CharIndex(s, c)
    case None => [s]
    case Some(i) => [s[..i]] + Split(s[i + 1..], c)
  }

  /** Splitting lines that were joined by a separator none of them contains
      gives the lines back. */
  lemma {:induction false} SplitJoin(xs: seq<string>, c: char)
    requires |xs| > 0
    requires forall i :: 0 <= i < |xs| ==> c !in xs[i]
    ensures Split(Join(xs, [c]), c) == xs
  {
    if |xs| == 1 {
      assert CharIndex(xs[0], c) == None;
    } else {
      var rest := Join(xs[1..], [c]);
      var s := xs[0] + [c] + rest;
      assert s[..|xs[0]|] == xs[0];
      assert s[|xs[0]|] == c;
      assert CharIndex(s, c) == Some(|xs[0]|) by {
        assert forall k :: 0 <= k < |xs[0]| ==> s[k] == xs[0][k];
      }
      assert s[|xs[0]| + 1..] == rest;
      SplitJoin(xs[1..], c);
      assert xs == [xs[0]] + xs[1..];
    }
  }
}
