/** The client logic of the single page: the filter over parsed parameters,
    the conversion of spreadsheet rows into parameter lines, the checks a
    button runs before it calls a route, and the copy of the verify tab's
    inputs into the polish tab when that tab is entered. */
module Page {
  import opened Text
  import opened Js
  import opened Completion
  import Registry
  import Prompt
  import ParseRoute
  import VerifyRoute
  import InspireRoute
  import PolishRoute

  const NoParams := "未从文本中识别到任何参数，请检查输入内容"
  const ParseFallback := "解析失败，请重试"
  const NoSheetData := "Excel 中未找到有效数据（需要两列：参数名 | 参数值）"
  const NoSelection := "请先选择一条灵感"

  // ---------------------------------------------------------------------
  // The parameter filter
  // ---------------------------------------------------------------------

  /** A plain object of string values, as its properties in order. */
  type Params = seq<(string, string)>

  /** `value && String(value).trim()`, used as a condition. */
  predicate Keeps(v: JsValue)
  {
    Truthy(v) && Trim(ToString(v)) != ""
  }

  /** A string is kept exactly when it is not all white space; a missing
      value never is; the number 0 is dropped although its text is "0". */
  lemma KeepsIff(v: JsValue)
    ensures v.Str? ==> (Keeps(v) <==> !AllSpace(v.s))
    ensures v.Nullish() ==> !Keeps(v)
    ensures v == Number("0") ==> !Keeps(v) && !AllSpace(ToString(v))
  {
    TrimEmptyIff(ToString(v));
    if v == Number("0") {
      assert !IsSpace(ToString(v)[0]);
    }
  }

  /** `filtered[key] = value`: an existing key keeps its place and takes the
      new value, a new key goes last. (A new integer-like key would go
      first in a JavaScript object; the filter inserts keys in the order
      `Object.entries` listed them, which already puts those first.) */
  function Assign(d: Params, key: string, value: string): (r: Params)
  {
    if |d| == 0 then [(key, value)]
    else if d[0].0 == key then [(key, value)] + d[1..]
    else [d[0]] + Assign(d[1..], key, value)
  }

  predicate DistinctKeys<V>(d: seq<(string, V)>)
  {
    forall i, j :: 0 <= i < j < |d| ==> d[i].0 != d[j].0
  }

  /** Some pair of `d` has key `key`. */
  predicate HasKey(d: Params, key: string)
  {
    exists j :: 0 <= j < |d| && d[j].0 == key
  }

  /** With distinct keys and `key` at index `k`, the assignment overwrites
      that one place. */
  lemma {:induction false} AssignAt(d: Params, key: string, value: string, k: nat)
    requires DistinctKeys(d) && k < |d| && d[k].0 == key
    ensures Assign(d, key, value) == d[k := (key, value)]
  {
    if k > 0 {
      assert d[0].0 != key;
      assert DistinctKeys(d[1..]) by {
        forall i, j | 0 <= i < j < |d[1..]| ensures d[1..][i].0 != d[1..][j].0 {
          assert d[1..][i] == d[i + 1] && d[1..][j] == d[j + 1];
        }
      }
      AssignAt(d[1..], key, value, k - 1);
      assert [d[0]] + d[1..][k - 1 := (key, value)] == d[k := (key, value)];
    } else {
      assert [(key, value)] + d[1..] == d[0 := (key, value)];
    }
  }

  /** A key that was absent is appended. */
  lemma {:induction false} AssignNew(d: Params, key: string, value: string)
    requires !HasKey(d, key)
    ensures Assign(d, key, value) == d + [(key, value)]
  {
    if |d| > 0 {
      assert d[0].0 != key;
      assert !HasKey(d[1..], key) by {
        forall j | 0 <= j < |d[1..]| ensures d[1..][j].0 != key { assert d[1..][j] == d[j + 1]; }
      }
      AssignNew(d[1..], key, value);
      assert [d[0]] + (d[1..] + [(key, value)]) == d + [(key, value)];
    }
  }

  /** Assigning keeps the keys distinct. */
  lemma AssignDistinct(d: Params, key: string, value: string)
    requires DistinctKeys(d)
    ensures DistinctKeys(Assign(d, key, value))
  {
    var r := Assign(d, key, value);
    if HasKey(d, key) {
      var k :| 0 <= k < |d| && d[k].0 == key;
      AssignAt(d, key, value, k);
      forall i, j | 0 <= i < j < |r| ensures r[i].0 != r[j].0 {
        assert r[i].0 == d[i].0 && r[j].0 == d[j].0;
      }
    } else {
      AssignNew(d, key, value);
      forall i, j | 0 <= i < j < |r| ensures r[i].0 != r[j].0 {
        if j < |d| { assert r[i] == d[i] && r[j] == d[j]; }
        else { assert r[i] == d[i]; }
      }
    }
  }

  /** Assigning keeps every key in its place and adds `key`. */
  lemma AssignKeys(d: Params, key: string, value: string)
    requires DistinctKeys(d)
    ensures var r := Assign(d, key, value);
            && |d| <= |r| && (forall j :: 0 <= j < |d| ==> r[j].0 == d[j].0)
            && HasKey(r, key)
  {
    var r := Assign(d, key, value);
    if HasKey(d, key) {
      var k :| 0 <= k < |d| && d[k].0 == key;
      AssignAt(d, key, value, k);
      assert r[k].0 == key;
    } else {
      AssignNew(d, key, value);
      assert r[|d|].0 == key;
    }
  }

  /** The one key a plain `{}` does not store as an own property: assigning
      to it runs the `__proto__` setter inherited from `Object.prototype`,
      which ignores a string. */
  const ProtoKey := "__proto__"

  /** `filtered[key] = value` on an object created by `{}`. */
  function Store(d: Params, key: string, value: string): Params
  {
    if key == ProtoKey then d else Assign(d, key, value)
  }

  /** The filter loop's result for a test `keep` on the values and the text
      `text` stored for a kept value: the entries are taken in order and each
      kept one is stored under its key. */
  function Filter<V>(entries: seq<(string, V)>, keep: V -> bool, text: V -> string): Params
  {
    if |entries| == 0 then []
    else
      var last := entries[|entries| - 1];
      var d := Filter(entries[..|entries| - 1], keep, text);
      if keep(last.1) then Store(d, last.0, text(last.1)) else d
  }

  /** What the filter loop builds from the entries of `data.params`. */
  function Kept(entries: seq<(string, JsValue)>): Params
  {
    Filter(entries, Keeps, ToString)
  }

  /** The filter loop: every entry whose value is present and not blank is
      stored under its key as `String(value)`. */
  method FilterParams(entries: seq<(string, JsValue)>) returns (filtered: Params)
    ensures filtered == Kept(entries)
  {
    filtered := [];
    var i := 0;
    while i < |entries|
      invariant i <= |entries|
      invariant filtered == Kept(entries[..i])
    {
      var (key, value) := entries[i];
      assert entries[..i + 1][..i] == entries[..i];
      if Truthy(value) && Trim(ToString(value)) != "" {
        filtered := Store(filtered, key, ToString(value));
      }
      i := i + 1;
    }
    assert entries[..i] == entries;
  }

  /** The filtered object lists each key once. */
  lemma {:induction false} FilterDistinct<V>(entries: seq<(string, V)>, keep: V -> bool, text: V -> string)
    ensures DistinctKeys(Filter(entries, keep, text))
  {
    if |entries| > 0 {
      var n := |entries| - 1;
      FilterDistinct(entries[..n], keep, text);
      if keep(entries[n].1) && entries[n].0 != ProtoKey {
        AssignDistinct(Filter(entries[..n], keep, text), entries[n].0, text(entries[n].1));
      }
    }
  }

  /** Pair `p` is some kept entry's key, other than `__proto__`, with the
      text of its value. */
  predicate Sourced<V>(p: (string, string), entries: seq<(string, V)>, keep: V -> bool, text: V -> string)
  {
    p.0 != ProtoKey && exists i :: 0 <= i < |entries| && entries[i].0 == p.0 && keep(entries[i].1) && p.1 == text(entries[i].1)
  }

  /** Every filtered pair is a kept entry's key with that value's text, and
      none is `__proto__`. */
  lemma {:induction false} FilterSound<V>(entries: seq<(string, V)>, keep: V -> bool, text: V -> string)
    ensures forall j :: 0 <= j < |Filter(entries, keep, text)| ==>
              Sourced(Filter(entries, keep, text)[j], entries, keep, text)
  {
    var r := Filter(entries, keep, text);
    if |entries| > 0 {
      var n := |entries| - 1;
      var front := entries[..n];
      FilterSound(front, keep, text);
      FilterDistinct(front, keep, text);
      var d := Filter(front, keep, text);
      var last := entries[n];
      forall k | 0 <= k < |d| ensures Sourced(d[k], entries, keep, text) {
        var i :| 0 <= i < |front| && front[i].0 == d[k].0 && keep(front[i].1) && d[k].1 == text(front[i].1);
        assert entries[i] == front[i];
      }
      if keep(last.1) && last.0 != ProtoKey {
        assert Sourced((last.0, text(last.1)), entries, keep, text) by {
          assert entries[n] == last;
        }
        if HasKey(d, last.0) {
          var k :| 0 <= k < |d| && d[k].0 == last.0;
          AssignAt(d, last.0, text(last.1), k);
          forall j | 0 <= j < |r| ensures Sourced(r[j], entries, keep, text) {
            if j != k { assert r[j] == d[j]; }
          }
        } else {
          AssignNew(d, last.0, text(last.1));
          forall j | 0 <= j < |r| ensures Sourced(r[j], entries, keep, text) {
            if j < |d| { assert r[j] == d[j]; }
          }
        }
      }
    }
  }

  /** Every kept entry other than `__proto__` has its key in the filtered
      object. */
  lemma {:induction false} FilterComplete<V>(entries: seq<(string, V)>, keep: V -> bool, text: V -> string)
    ensures forall i :: 0 <= i < |entries| && keep(entries[i].1) && entries[i].0 != ProtoKey
                        ==> HasKey(Filter(entries, keep, text), entries[i].0)
  {
    var r := Filter(entries, keep, text);
    if |entries| > 0 {
      var n := |entries| - 1;
      var front := entries[..n];
      FilterComplete(front, keep, text);
      FilterDistinct(front, keep, text);
      var d := Filter(front, keep, text);
      var last := entries[n];
      if keep(last.1) && last.0 != ProtoKey {
        AssignKeys(d, last.0, text(last.1));
      }
      forall i | 0 <= i < |entries| && keep(entries[i].1) && entries[i].0 != ProtoKey ensures HasKey(r, entries[i].0) {
        if i < n {
          assert front[i] == entries[i];
          var j :| 0 <= j < |d| && d[j].0 == front[i].0;
          assert r[j].0 == d[j].0;
        } else {
          assert entries[i] == last;
        }
      }
    }
  }

  /** With distinct keys, each kept entry other than `__proto__` is stored
      under its key with exactly the text of its value. */
  lemma FilterValue<V>(entries: seq<(string, V)>, keep: V -> bool, text: V -> string, i: nat)
    requires DistinctKeys(entries)
    requires i < |entries| && keep(entries[i].1)
    ensures entries[i].0 != ProtoKey ==>
              exists j :: 0 <= j < |Filter(entries, keep, text)|
                          && Filter(entries, keep, text)[j] == (entries[i].0, text(entries[i].1))
  {
    if entries[i].0 == ProtoKey { return; }
    var r := Filter(entries, keep, text);
    FilterComplete(entries, keep, text);
    assert HasKey(r, entries[i].0);
    var j :| 0 <= j < |r| && r[j].0 == entries[i].0;
    FilterSound(entries, keep, text);
    assert Sourced(r[j], entries, keep, text);
    var k :| 0 <= k < |entries| && entries[k].0 == r[j].0 && keep(entries[k].1) && r[j].1 == text(entries[k].1);
    DistinctIndex(entries, i, k);
    assert r[j] == (entries[i].0, text(entries[i].1));
  }

  /** `Object.entries` of an array or a string lists distinct index keys, so
      the filter's value lemmas apply to those without further conditions. */
  lemma IndexEntriesDistinct(v: JsValue)
    requires v.Array? || v.Str?
    ensures DistinctKeys(Entries(v))
  {
    var es := if v.Array? then v.elems else Characters(v.s);
    assert Entries(v) == Indexed(es, 0);
    forall i, j | 0 <= i < j < |Entries(v)| ensures Entries(v)[i].0 != Entries(v)[j].0 {
      NatToStringInjective(i, j);
    }
  }

  /** In a sequence with distinct keys, a key determines its index. */
  lemma DistinctIndex<V>(d: seq<(string, V)>, i: nat, k: nat)
    requires DistinctKeys(d) && i < |d| && k < |d| && d[i].0 == d[k].0
    ensures i == k
  {
  }

  /** Every pair the page's filter stores is a kept entry's key with
      `String(value)`: no key is invented or altered. */
  lemma KeptSound(entries: seq<(string, JsValue)>)
    ensures forall j :: 0 <= j < |Kept(entries)| ==>
              exists i :: 0 <= i < |entries| && entries[i].0 == Kept(entries)[j].0
                && Keeps(entries[i].1) && Kept(entries)[j].1 == ToString(entries[i].1)
    ensures !HasKey(Kept(entries), ProtoKey)
  {
    FilterSound(entries, Keeps, ToString);
    forall j | 0 <= j < |Kept(entries)|
      ensures exists i :: 0 <= i < |entries| && entries[i].0 == Kept(entries)[j].0
                && Keeps(entries[i].1) && Kept(entries)[j].1 == ToString(entries[i].1)
    {
      var p := Kept(entries)[j];
      assert Sourced(p, entries, Keeps, ToString);
      var i :| 0 <= i < |entries| && entries[i].0 == p.0 && Keeps(entries[i].1) && p.1 == ToString(entries[i].1);
      assert Keeps(entries[i].1);
    }
    assert forall j :: 0 <= j < |Kept(entries)| ==>
             exists i :: 0 <= i < |entries| && entries[i].0 == Kept(entries)[j].0
               && Keeps(entries[i].1) && Kept(entries)[j].1 == ToString(entries[i].1);
    forall j | 0 <= j < |Kept(entries)| ensures Kept(entries)[j].0 != ProtoKey {
      assert Sourced(Kept(entries)[j], entries, Keeps, ToString);
    }
  }

  /** No value the page's filter stores is blank. */
  lemma KeptNotBlank(entries: seq<(string, JsValue)>)
    ensures forall j :: 0 <= j < |Kept(entries)| ==> Trim(Kept(entries)[j].1) != ""
  {
    KeptSound(entries);
    forall j | 0 <= j < |Kept(entries)| ensures Trim(Kept(entries)[j].1) != "" {
      var p := Kept(entries)[j];
      var i :| 0 <= i < |entries| && entries[i].0 == p.0 && Keeps(entries[i].1) && p.1 == ToString(entries[i].1);
    }
    assert forall j :: 0 <= j < |Kept(entries)| ==> Trim(Kept(entries)[j].1) != "";
  }

  /** Every entry with a non-blank value has its key stored, unless that
      key is `__proto__`. */
  lemma KeptComplete(entries: seq<(string, JsValue)>)
    ensures forall i :: 0 <= i < |entries| && Keeps(entries[i].1) && entries[i].0 != ProtoKey
                        ==> HasKey(Kept(entries), entries[i].0)
  {
    FilterComplete(entries, Keeps, ToString);
    forall i | 0 <= i < |entries| && Keeps(entries[i].1) && entries[i].0 != ProtoKey
      ensures HasKey(Kept(entries), entries[i].0)
    {
      assert HasKey(Filter(entries, Keeps, ToString), entries[i].0);
    }
    assert forall i :: 0 <= i < |entries| && Keeps(entries[i].1) && entries[i].0 != ProtoKey
                       ==> HasKey(Kept(entries), entries[i].0);
  }

  /** With the distinct keys `Object.entries` yields, each entry with a
      non-blank value is stored under its key with exactly `String(value)`,
      unless that key is `__proto__`. */
  lemma KeptValue(entries: seq<(string, JsValue)>, i: nat)
    requires DistinctKeys(entries)
    requires i < |entries| && Keeps(entries[i].1)
    ensures entries[i].0 != ProtoKey ==>
              exists j :: 0 <= j < |Kept(entries)| && Kept(entries)[j] == (entries[i].0, ToString(entries[i].1))
  {
    if entries[i].0 == ProtoKey { return; }
    FilterValue(entries, Keeps, ToString, i);
    var j :| 0 <= j < |Filter(entries, Keeps, ToString)|
             && Filter(entries, Keeps, ToString)[j] == (entries[i].0, ToString(entries[i].1));
    assert Kept(entries)[j] == (entries[i].0, ToString(entries[i].1));
  }

  /** The outcome of parsing as the page records it. */
  datatype ParamsVerdict = Accepted(params: Params) | Refused(message: string)

  /** The page's reading of the parse route's response body `data`: a
      truthy `data.error` is thrown as an `Error`, otherwise the entries of
      `data.params` are filtered and an empty result is an error too. Every
      error becomes the shown message through the `catch`. */
  function ParseVerdict(data: JsValue): ParamsVerdict
  {
    if data.Nullish() then Refused(CannotRead(data, "error"))
    else
      var error := Member(data, "error");
      if Truthy(error) then Refused(ToString(error))
      else
        match ObjectEntries(Member(data, "params"))
        case Raises(ErrorObject(m)) => Refused(m)
        case Raises(OtherThrown(_)) => Refused(ParseFallback)
        case Returns(entries) =>
          var filtered := Kept(entries);
          if |filtered| == 0 then Refused(NoParams) else Accepted(filtered)
  }

  /** A parse answer whose only parameter is named `__proto__` leaves the
      filtered object without own properties, so the page reports that no
      parameter was recognised; under any other name the same value is kept. */
  lemma ProtoParamRefused(value: string)
    requires !AllSpace(value)
    ensures ParseVerdict(Object([("params", Object([(ProtoKey, Str(value))]))])) == Refused(NoParams)
    ensures ParseVerdict(Object([("params", Object([("name", Str(value))]))])) == Accepted([("name", value)])
  {
    KeepsIff(Str(value));
    KeptSingle(ProtoKey, Str(value));
    KeptSingle("name", Str(value));
    VerdictOfParams(Object([(ProtoKey, Str(value))]));
    VerdictOfParams(Object([("name", Str(value))]));
  }

  /** A successful parse answer `{ params }` is judged by its entries alone. */
  lemma VerdictOfParams(params: JsValue)
    requires params.Object?
    ensures ParseVerdict(Object([("params", params)]))
            == (if |Kept(params.props)| == 0 then Refused(NoParams) else Accepted(Kept(params.props)))
  {
    var data := Object([("params", params)]);
    assert Member(data, "error") == Undefined;
    assert Member(data, "params") == params;
  }

  /** One entry is filtered on its own. */
  lemma KeptSingle(key: string, v: JsValue)
    requires Keeps(v)
    ensures Kept([(key, v)]) == Store([], key, ToString(v))
  {
    var one := [(key, v)];
    assert one[..0] == [] && Filter(one[..0], Keeps, ToString) == [];
  }

  /** The reading of the response body in `handleParseParams`: the error
      checks in order, then the filter loop over `Object.entries(data.params)`. */
  method ReadParseResponse(data: JsValue) returns (verdict: ParamsVerdict)
    ensures verdict == ParseVerdict(data)
  {
    if data.Nullish() {
      return Refused(CannotRead(data, "error"));
    }
    var error := Member(data, "error");
    if Truthy(error) {
      return Refused(ToString(error));
    }
    match ObjectEntries(Member(data, "params"))
    case Raises(thrown) =>
      verdict := if thrown.ErrorObject? then Refused(thrown.message) else Refused(ParseFallback);
    case Returns(entries) =>
      var filtered := FilterParams(entries);
      verdict := if |filtered| == 0 then Refused(NoParams) else Accepted(filtered);
  }

  /** What the page receives from a route: `{ error }` or the payload under
      its key. */
  function ResponseBody(r: Response<JsValue>, key: string): JsValue
  {
    match r
    case Fail(_, error) => Object([("error", error)])
    case Done(payload) => Object([(key, payload)])
  }

  /** The page shows a failing parse route's error as it is, and accepts a
      successful one's parameters exactly when some value survives the
      filter; accepted parameters are never empty and never blank. */
  lemma ParseVerdictOfResponse(r: Response<JsValue>)
    ensures r.Fail? && Truthy(r.error) ==> ParseVerdict(ResponseBody(r, "params")) == Refused(ToString(r.error))
    ensures r.Done? && r.payload.Object? ==>
              ParseVerdict(ResponseBody(r, "params"))
              == (if |Kept(r.payload.props)| == 0 then Refused(NoParams) else Accepted(Kept(r.payload.props)))
    ensures r.Done? && r.payload.Nullish() ==>
              ParseVerdict(ResponseBody(r, "params")) == Refused("Cannot convert undefined or null to object")
    ensures ParseVerdict(ResponseBody(r, "params")).Accepted? ==>
              var ps := ParseVerdict(ResponseBody(r, "params")).params;
              |ps| > 0 && forall j :: 0 <= j < |ps| ==> Trim(ps[j].1) != ""
  {
    if r.Done? && !r.payload.Nullish() {
      assert Member(ResponseBody(r, "params"), "error") == Undefined;
      KeptNotBlank(Entries(r.payload));
    }
  }

  // ---------------------------------------------------------------------
  // Spreadsheet rows into parameter lines
  // ---------------------------------------------------------------------

  /** `row[i]`; a short row reads `undefined`. */
  function Cell(row: seq<JsValue>, i: nat): JsValue
  {
    if i < |row| then row[i] else Undefined
  }

  /** `row[0] && row[1]`, used as a condition. */
  predicate Usable(row: seq<JsValue>)
  {
    Truthy(Cell(row, 0)) && Truthy(Cell(row, 1))
  }

  /** `` `${row[0]}: ${row[1]}` `` */
  function RowLine(row: seq<JsValue>): string
  {
    ToString(Cell(row, 0)) + ": " + ToString(Cell(row, 1))
  }

  /** The rows the filter keeps, in sheet order. */
  function UsableRows(rows: seq<seq<JsValue>>): (r: seq<seq<JsValue>>)
    ensures |r| <= |rows|
    ensures forall k :: 0 <= k < |r| ==> Usable(r[k]) && r[k] in rows
    ensures (forall k :: 0 <= k < |rows| ==> !Usable(rows[k])) <==> r == []
  {
    if |rows| == 0 then []
    else
      var rest := UsableRows(rows[1..]);
      assert forall k :: 0 <= k < |rest| ==> rest[k] in rows by {
        forall k | 0 <= k < |rest| ensures rest[k] in rows {
          assert rest[k] in rows[1..];
        }
      }
      if !Usable(rows[0]) then
        assert forall k :: 0 <= k < |rows[1..]| ==> rows[1..][k] == rows[k + 1];
        rest
      else [rows[0]] + rest
  }

  /** Every usable row is kept. */
  lemma {:induction false} UsableRowsComplete(rows: seq<seq<JsValue>>)
    ensures forall k :: 0 <= k < |rows| && Usable(rows[k]) ==> rows[k] in UsableRows(rows)
  {
    if |rows| > 0 {
      UsableRowsComplete(rows[1..]);
      assert forall k :: 1 <= k < |rows| ==> rows[k] == rows[1..][k - 1];
    }
  }

  /** The filter works row by row: the rows kept from two stretches of the
      sheet are the rows kept from each, in sheet order. */
  lemma {:induction false} UsableRowsAppend(a: seq<seq<JsValue>>, b: seq<seq<JsValue>>)
    ensures UsableRows(a + b) == UsableRows(a) + UsableRows(b)
  {
    if |a| > 0 {
      assert (a + b)[0] == a[0];
      assert (a + b)[1..] == a[1..] + b;
      UsableRowsAppend(a[1..], b);
    } else {
      assert a + b == b;
    }
  }

  /** A single row is kept exactly when it is usable. */
  lemma UsableRowsSingle(row: seq<JsValue>)
    ensures UsableRows([row]) == (if Usable(row) then [row] else [])
  {
    assert [row][1..] == [];
  }

  function Lines(rows: seq<seq<JsValue>>): (r: seq<string>)
    ensures |r| == |rows|
    ensures forall k :: 0 <= k < |rows| ==> r[k] == RowLine(rows[k])
  {
    if |rows| == 0 then [] else [RowLine(rows[0])] + Lines(rows[1..])
  }

  /** The text the upload puts into the parameter box. */
  function SheetText(rows: seq<seq<JsValue>>): string
  {
    Join(Lines(UsableRows(rows)), "\n")
  }

  /** The text is empty exactly when no row has both cells, which is the
      case the upload reports as an error. */
  lemma SheetTextEmptyIff(rows: seq<seq<JsValue>>)
    ensures SheetText(rows) == "" <==> forall k :: 0 <= k < |rows| ==> !Usable(rows[k])
  {
    var ls := Lines(UsableRows(rows));
    if |ls| > 0 {
      JoinNotEmpty(ls, "\n");
    }
  }

  lemma JoinNotEmpty(xs: seq<string>, sep: string)
    requires |xs| > 0 && |xs[0]| > 0
    ensures Join(xs, sep) != ""
  {
    if |xs| > 1 {
      assert Join(xs, sep)[0] == xs[0][0];
    }
  }

  /** Neither cell of `row` contains a line break. */
  predicate NoBreak(row: seq<JsValue>)
  {
    '\n' !in ToString(Cell(row, 0)) && '\n' !in ToString(Cell(row, 1))
  }

  /** When no cell's text holds a line break, splitting the text at line
      breaks gives back one `name: value` line per usable row, in order. */
  lemma SheetTextLines(rows: seq<seq<JsValue>>)
    requires exists k :: 0 <= k < |rows| && Usable(rows[k])
    requires forall row :: row in rows ==> NoBreak(row)
    ensures Split(SheetText(rows), '\n') == Lines(UsableRows(rows))
  {
    var us := UsableRows(rows);
    var ls := Lines(us);
    forall k | 0 <= k < |ls| ensures '\n' !in ls[k] {
      assert us[k] in rows;
      RowLineNoBreak(us[k]);
    }
    SplitJoin(ls, '\n');
  }

  lemma RowLineNoBreak(row: seq<JsValue>)
    requires NoBreak(row)
    ensures '\n' !in RowLine(row)
  {
    var a := ToString(Cell(row, 0));
    var b := ToString(Cell(row, 1));
    assert RowLine(row) == a + ": " + b;
    forall i | 0 <= i < |RowLine(row)| ensures RowLine(row)[i] != '\n' {
      if i < |a| { assert RowLine(row)[i] == a[i]; }
      else if i >= |a| + 2 { assert RowLine(row)[i] == b[i - |a| - 2]; }
    }
  }

  // ---------------------------------------------------------------------
  // What the buttons check and send
  // ---------------------------------------------------------------------

  /** The parse button's check before it calls the route. */
  function ParseGuard(apiKey: string, text: string): (err: Option<string>)
    ensures err.None? <==> apiKey != "" && !AllSpace(text)
    ensures apiKey == "" ==> err == Some(NoApiKey)
    ensures apiKey != "" && AllSpace(text) ==> err == Some(ParseRoute.NoText)
  {
    TrimEmptyIff(text);
    if apiKey == "" then Some(NoApiKey)
    else if Trim(text) == "" then Some(ParseRoute.NoText)
    else None
  }

  /** The verify button's check: an API key, and a title or a body that is
      not blank. */
  function VerifyGuard(apiKey: string, title: string, content: string): (err: Option<string>)
    ensures err.None? <==> apiKey != "" && (!AllSpace(title) || !AllSpace(content))
    ensures apiKey == "" ==> err == Some(NoApiKey)
    ensures apiKey != "" && AllSpace(title) && AllSpace(content) ==> err == Some(VerifyRoute.NoCopy)
  {
    TrimEmptyIff(title);
    TrimEmptyIff(content);
    if apiKey == "" then Some(NoApiKey)
    else if Trim(title) == "" && Trim(content) == "" then Some(VerifyRoute.NoCopy)
    else None
  }

  /** The inspire button's check: an API key and a chosen direction. */
  function InspireGuard(apiKey: string, direction: string): (err: Option<string>)
    ensures err.None? <==> apiKey != "" && direction != ""
    ensures apiKey == "" ==> err == Some(NoApiKey)
    ensures apiKey != "" && direction == "" ==> err == Some(InspireRoute.NoDirection)
  {
    if apiKey == "" then Some(NoApiKey)
    else if direction == "" then Some(InspireRoute.NoDirection)
    else None
  }

  /** The polish button's check: an API key and a selected inspiration. */
  function PolishGuard(apiKey: string, selected: Option<nat>): (err: Option<string>)
    ensures err.None? <==> apiKey != "" && selected.Some?
    ensures apiKey == "" ==> err == Some(NoApiKey)
    ensures apiKey != "" && selected.None? ==> err == Some(NoSelection)
  {
    if apiKey == "" then Some(NoApiKey)
    else if selected.None? then Some(NoSelection)
    else None
  }

  /** `parsedParams || {}` when `orEmpty`, `parsedParams` otherwise, as the
      request body carries it. */
  function ParamsJson(parsed: Option<Params>, orEmpty: bool): (v: JsValue)
    ensures parsed.None? ==> !Prompt.HasParams(v)
    ensures parsed.Some? ==> (Prompt.HasParams(v) <==> |parsed.value| > 0)
  {
    match parsed
    case None => if orEmpty then Object([]) else Null
    case Some(ps) => Object(StrProps(ps))
  }

  function StrProps(ps: Params): (r: seq<(string, JsValue)>)
    ensures |r| == |ps|
    ensures forall i :: 0 <= i < |ps| ==> r[i] == (ps[i].0, Str(ps[i].1))
  {
    if |ps| == 0 then [] else [(ps[0].0, Str(ps[0].1))] + StrProps(ps[1..])
  }

  /** `inspirations[selectedInspiration]`; `undefined` is dropped from the
      JSON body, so the route sees the field missing. */
  function InspirationAt(inspirations: seq<string>, i: nat): JsValue
  {
    if i < |inspirations| then Str(inspirations[i]) else Undefined
  }

  /** The connection settings the page keeps. */
  datatype ApiConfig = ApiConfig(apiKey: string, endpoint: string, model: string)

  /** The default provider, DeepSeek, with its chat model. */
  const DefaultEndpoint := "https://api.deepseek.com/v1/chat/completions"
  const DefaultModel := "deepseek-chat"

  function VerifyBody(cfg: ApiConfig, parsed: Option<Params>, title: string, content: string): VerifyRoute.VerifyRequest
  {
    VerifyRoute.VerifyRequest(ParamsJson(parsed, true), Str(title), Str(content),
                              Str(cfg.apiKey), Str(cfg.endpoint), Str(cfg.model))
  }

  function InspireBody(cfg: ApiConfig, parsed: Option<Params>, title: string, content: string,
                       direction: string): InspireRoute.InspireRequest
  {
    InspireRoute.InspireRequest(ParamsJson(parsed, true), Str(title), Str(content), Str(direction),
                                Str(cfg.apiKey), Str(cfg.endpoint), Str(cfg.model))
  }

  function PolishBody(cfg: ApiConfig, parsed: Option<Params>, title: string, content: string,
                      direction: string, inspirations: seq<string>, selected: nat): PolishRoute.PolishRequest
  {
    PolishRoute.PolishRequest(ParamsJson(parsed, false), Str(title), Str(content), Str(direction),
                              InspirationAt(inspirations, selected),
                              Str(cfg.apiKey), Str(cfg.endpoint), Str(cfg.model))
  }

  /** The page's verify check and the route's guards agree: the page sends a
      request exactly when the route would pass it on to the provider. */
  lemma VerifyGuardAgrees(cat: Registry.Catalog, rt: Runtime, cfg: ApiConfig, parsed: Option<Params>,
                          title: string, content: string)
    ensures VerifyGuard(cfg.apiKey, title, content).None?
            <==> VerifyRoute.Prepare(cat, rt, VerifyBody(cfg, parsed, title, content)).Proceed?
  {
    var req := VerifyBody(cfg, parsed, title, content);
    VerifyRoute.Guards(cat, rt, req, _ => Rejected(OtherThrown(Undefined)));
  }

  /** A request the inspire check lets through is refused by the route only
      for a direction the registry does not know. */
  lemma InspireGuardAgrees(cat: Registry.Catalog, rt: Runtime, cfg: ApiConfig, parsed: Option<Params>,
                           title: string, content: string, direction: string)
    requires InspireGuard(cfg.apiKey, direction).None?
    ensures var req := InspireBody(cfg, parsed, title, content, direction);
            && (InspireRoute.Prepare(cat, rt, req).Proceed? <==> cat.directionByKey(Str(direction)).Some?)
            && (cat.directionByKey(Str(direction)).None? ==>
                  InspireRoute.Prepare(cat, rt, req) == Respond(400, Str(InspireRoute.UnknownDirection)))
  {
    var req := InspireBody(cfg, parsed, title, content, direction);
    InspireRoute.Guards(cat, rt, req, _ => Rejected(OtherThrown(Undefined)));
  }

  /** A request the polish check lets through carries the selected
      inspiration; one the route still refuses for a missing inspiration is
      one whose selection is past the end of the list or names an empty
      string. */
  lemma PolishSendsSelection(cat: Registry.Catalog, rt: Runtime, cfg: ApiConfig, parsed: Option<Params>,
                             title: string, content: string, direction: string,
                             inspirations: seq<string>, selected: nat)
    requires PolishGuard(cfg.apiKey, Some(selected)).None? && direction != ""
    ensures var req := PolishBody(cfg, parsed, title, content, direction, inspirations, selected);
            && (selected < |inspirations| ==> req.inspiration == Str(inspirations[selected]))
            && (PolishRoute.Prepare(cat, rt, req) == Respond(400, Str(PolishRoute.NoInspiration))
                <==> selected >= |inspirations| || inspirations[selected] == "")
  {
  }

  // ---------------------------------------------------------------------
  // The page's state
  // ---------------------------------------------------------------------

  datatype MainTab = VerifyTab | PolishTab
  datatype ParamInput = TextInput | ExcelInput

  /** The component `Home`: the state the modelled handlers read and write. */
  class Home {
    var activeMainTab: MainTab
    /** `prevMainTab.current`, the tab the sync effect last saw. */
    var prevMainTab: MainTab
    var config: ApiConfig
    var showApiConfig: bool
    var activeTab: ParamInput
    var paramText: string
    var parsedParams: Option<Params>
    var isParsing: bool
    var parseError: string
    var copyTitle: string
    var copyContent: string
    var isVerifying: bool
    var verifyError: string
    var polishTitle: string
    var polishContent: string
    var polishDirection: string
    var inspirations: seq<string>
    var selectedInspiration: Option<nat>
    var isGeneratingPolish: bool
    var polishError: string

    /** The initial state, with the default provider's endpoint and model. */
    constructor()
      ensures activeMainTab == VerifyTab && prevMainTab == VerifyTab
      ensures config == ApiConfig("", "https://api.deepseek.com/v1/chat/completions", "deepseek-chat")
      ensures !showApiConfig
      ensures activeTab == TextInput && paramText == "" && parsedParams == None
      ensures !isParsing && parseError == ""
      ensures copyTitle == "" && copyContent == "" && !isVerifying && verifyError == ""
      ensures polishTitle == "" && polishContent == "" && polishDirection == ""
      ensures inspirations == [] && selectedInspiration == None && !isGeneratingPolish && polishError == ""
    {
      activeMainTab, prevMainTab := VerifyTab, VerifyTab;
      config, showApiConfig := ApiConfig("", DefaultEndpoint, DefaultModel), false;
      activeTab, paramText, parsedParams := TextInput, "", None;
      isParsing, parseError := false, "";
      copyTitle, copyContent, isVerifying, verifyError := "", "", false, "";
      polishTitle, polishContent, polishDirection := "", "", "";
      inspirations, selectedInspiration, isGeneratingPolish, polishError := [], None, false, "";
    }

    /** The tab-sync effect: entering the polish tab from the verify tab
        copies the verify inputs across; in every other case only the
        remembered tab is updated. */
    method SyncPolishInputs()
      modifies this
      ensures old(activeMainTab) == PolishTab && old(prevMainTab) != PolishTab ==>
                polishTitle == old(copyTitle) && polishContent == old(copyContent)
      ensures !(old(activeMainTab) == PolishTab && old(prevMainTab) != PolishTab) ==>
                polishTitle == old(polishTitle) && polishContent == old(polishContent)
      ensures prevMainTab == activeMainTab
      ensures activeMainTab == old(activeMainTab) && copyTitle == old(copyTitle) && copyContent == old(copyContent)
      ensures config == old(config) && showApiConfig == old(showApiConfig) && activeTab == old(activeTab)
      ensures paramText == old(paramText) && parsedParams == old(parsedParams)
      ensures isParsing == old(isParsing) && parseError == old(parseError)
      ensures isVerifying == old(isVerifying) && verifyError == old(verifyError)
      ensures polishDirection == old(polishDirection) && inspirations == old(inspirations)
      ensures selectedInspiration == old(selectedInspiration)
      ensures isGeneratingPolish == old(isGeneratingPolish) && polishError == old(polishError)
    {
      if activeMainTab == PolishTab && prevMainTab != PolishTab {
        polishTitle := copyTitle;
        polishContent := copyContent;
      }
      prevMainTab := activeMainTab;
    }

    /** A tab button followed by the effect it triggers. Entering the polish
        tab copies the verify inputs; clicking the polish tab while on it,
        or going back to verify, leaves the polish inputs as they are. */
    method SelectMainTab(tab: MainTab)
      requires prevMainTab == activeMainTab
      modifies this
      ensures activeMainTab == tab && prevMainTab == tab
      ensures tab == PolishTab && old(activeMainTab) == VerifyTab ==>
                polishTitle == old(copyTitle) && polishContent == old(copyContent)
      ensures !(tab == PolishTab && old(activeMainTab) == VerifyTab) ==>
                polishTitle == old(polishTitle) && polishContent == old(polishContent)
      ensures copyTitle == old(copyTitle) && copyContent == old(copyContent)
      ensures config == old(config) && showApiConfig == old(showApiConfig) && activeTab == old(activeTab)
      ensures paramText == old(paramText) && parsedParams == old(parsedParams)
      ensures isParsing == old(isParsing) && parseError == old(parseError)
      ensures isVerifying == old(isVerifying) && verifyError == old(verifyError)
      ensures polishDirection == old(polishDirection) && inspirations == old(inspirations)
      ensures selectedInspiration == old(selectedInspiration)
      ensures isGeneratingPolish == old(isGeneratingPolish) && polishError == old(polishError)
    {
      activeMainTab := tab;
      SyncPolishInputs();
    }

    /** `handleParseParams` up to the request: with the check failing, the
        error is shown (and the settings opened for a missing key) and
        nothing is sent; otherwise earlier results are cleared and the
        route's request body is returned. */
    method StartParse() returns (body: Option<ParseRoute.ParseRequest>)
      modifies this
      ensures var err := ParseGuard(old(config.apiKey), old(paramText));
              && (err.Some? ==> body.None? && parseError == err.value
                                && parsedParams == old(parsedParams) && isParsing == old(isParsing))
              && (old(config.apiKey) == "" ==> showApiConfig)
              && (old(config.apiKey) != "" ==> showApiConfig == old(showApiConfig))
              && (err.None? ==> body == Some(ParseRoute.ParseRequest(Str(old(paramText)), Str(config.apiKey), Str(config.endpoint), Str(config.model)))
                                && isParsing && parseError == "" && parsedParams == None)
      ensures config == old(config) && paramText == old(paramText) && activeTab == old(activeTab)
      ensures activeMainTab == old(activeMainTab) && prevMainTab == old(prevMainTab)
      ensures copyTitle == old(copyTitle) && copyContent == old(copyContent)
      ensures isVerifying == old(isVerifying) && verifyError == old(verifyError)
      ensures polishTitle == old(polishTitle) && polishContent == old(polishContent) && polishDirection == old(polishDirection)
      ensures inspirations == old(inspirations) && selectedInspiration == old(selectedInspiration)
      ensures isGeneratingPolish == old(isGeneratingPolish) && polishError == old(polishError)
    {
      if config.apiKey == "" {
        showApiConfig := true;
        parseError := NoApiKey;
        return None;
      }
      TrimEmptyIff(paramText);
      if Trim(paramText) == "" {
        parseError := ParseRoute.NoText;
        return None;
      }
      isParsing := true;
      parseError := "";
      parsedParams := None;
      body := Some(ParseRoute.ParseRequest(Str(paramText), Str(config.apiKey), Str(config.endpoint), Str(config.model)));
    }

    /** `handleParseParams` once the route has answered with `data`: the
        filtered parameters are stored, or the error is shown and the
        parameters stay unset; parsing ends either way. */
    method FinishParse(data: JsValue)
      modifies this
      ensures ParseVerdict(data).Accepted? ==> parsedParams == Some(ParseVerdict(data).params) && parseError == old(parseError)
      ensures ParseVerdict(data).Refused? ==> parseError == ParseVerdict(data).message && parsedParams == old(parsedParams)
      ensures !isParsing
      ensures config == old(config) && showApiConfig == old(showApiConfig) && paramText == old(paramText) && activeTab == old(activeTab)
      ensures activeMainTab == old(activeMainTab) && prevMainTab == old(prevMainTab)
      ensures copyTitle == old(copyTitle) && copyContent == old(copyContent)
      ensures isVerifying == old(isVerifying) && verifyError == old(verifyError)
      ensures polishTitle == old(polishTitle) && polishContent == old(polishContent) && polishDirection == old(polishDirection)
      ensures inspirations == old(inspirations) && selectedInspiration == old(selectedInspiration)
      ensures isGeneratingPolish == old(isGeneratingPolish) && polishError == old(polishError)
    {
      isParsing := false;
      var verdict := ReadParseResponse(data);
      match verdict
      case Accepted(ps) => parsedParams := Some(ps);
      case Refused(message) => parseError := message;
    }

    /** The upload's handling of the sheet's rows: usable rows become the
        parameter text and the text input is shown; with none, the error is
        shown and the text is left alone. */
    method ApplySheet(rows: seq<seq<JsValue>>)
      modifies this
      ensures SheetText(rows) == "" ==> parseError == NoSheetData && paramText == old(paramText) && activeTab == old(activeTab)
      ensures SheetText(rows) != "" ==> paramText == SheetText(rows) && activeTab == TextInput && parseError == ""
      ensures config == old(config) && showApiConfig == old(showApiConfig) && parsedParams == old(parsedParams) && isParsing == old(isParsing)
      ensures activeMainTab == old(activeMainTab) && prevMainTab == old(prevMainTab)
      ensures copyTitle == old(copyTitle) && copyContent == old(copyContent)
      ensures isVerifying == old(isVerifying) && verifyError == old(verifyError)
      ensures polishTitle == old(polishTitle) && polishContent == old(polishContent) && polishDirection == old(polishDirection)
      ensures inspirations == old(inspirations) && selectedInspiration == old(selectedInspiration)
      ensures isGeneratingPolish == old(isGeneratingPolish) && polishError == old(polishError)
    {
      var lines := SheetText(rows);
      if lines == "" {
        parseError := NoSheetData;
        return;
      }
      paramText := lines;
      activeTab := TextInput;
      parseError := "";
    }

    /** `handleVerify` up to the request. */
    method StartVerify() returns (body: Option<VerifyRoute.VerifyRequest>)
      modifies this
      ensures var err := VerifyGuard(old(config.apiKey), old(copyTitle), old(copyContent));
              && (err.Some? ==> body.None? && verifyError == err.value && isVerifying == old(isVerifying))
              && (old(config.apiKey) == "" ==> showApiConfig)
              && (old(config.apiKey) != "" ==> showApiConfig == old(showApiConfig))
              && (err.None? ==> body == Some(VerifyBody(config, parsedParams, copyTitle, copyContent))
                                && isVerifying && verifyError == "")
      ensures config == old(config) && parsedParams == old(parsedParams) && paramText == old(paramText) && activeTab == old(activeTab)
      ensures isParsing == old(isParsing) && parseError == old(parseError)
      ensures activeMainTab == old(activeMainTab) && prevMainTab == old(prevMainTab)
      ensures copyTitle == old(copyTitle) && copyContent == old(copyContent)
      ensures polishTitle == old(polishTitle) && polishContent == old(polishContent) && polishDirection == old(polishDirection)
      ensures inspirations == old(inspirations) && selectedInspiration == old(selectedInspiration)
      ensures isGeneratingPolish == old(isGeneratingPolish) && polishError == old(polishError)
    {
      if config.apiKey == "" {
        showApiConfig := true;
        verifyError := NoApiKey;
        return None;
      }
      TrimEmptyIff(copyTitle);
      TrimEmptyIff(copyContent);
      if Trim(copyTitle) == "" && Trim(copyContent) == "" {
        verifyError := VerifyRoute.NoCopy;
        return None;
      }
      isVerifying := true;
      verifyError := "";
      body := Some(VerifyBody(config, parsedParams, copyTitle, copyContent));
    }

    /** Choosing an inspiration from the list shown. */
    method SelectInspiration(idx: nat)
      requires idx < |inspirations|
      modifies this
      ensures selectedInspiration == Some(idx) && polishError == ""
      ensures config == old(config) && showApiConfig == old(showApiConfig) && parsedParams == old(parsedParams)
      ensures paramText == old(paramText) && activeTab == old(activeTab)
      ensures isParsing == old(isParsing) && parseError == old(parseError)
      ensures activeMainTab == old(activeMainTab) && prevMainTab == old(prevMainTab)
      ensures copyTitle == old(copyTitle) && copyContent == old(copyContent)
      ensures isVerifying == old(isVerifying) && verifyError == old(verifyError)
      ensures polishTitle == old(polishTitle) && polishContent == old(polishContent) && polishDirection == old(polishDirection)
      ensures inspirations == old(inspirations) && isGeneratingPolish == old(isGeneratingPolish)
    {
      selectedInspiration := Some(idx);
      polishError := "";
    }

    /** `handleGeneratePolish` up to the request: the selected inspiration
        is looked up only once the check has passed. */
    method StartPolish() returns (body: Option<PolishRoute.PolishRequest>)
      modifies this
      ensures var err := PolishGuard(old(config.apiKey), old(selectedInspiration));
              && (err.Some? ==> body.None? && polishError == err.value && isGeneratingPolish == old(isGeneratingPolish))
              && (old(config.apiKey) == "" ==> showApiConfig)
              && (old(config.apiKey) != "" ==> showApiConfig == old(showApiConfig))
              && (err.None? ==> body == Some(PolishBody(config, parsedParams, polishTitle, polishContent, polishDirection,
                                                        inspirations, old(selectedInspiration).value))
                                && isGeneratingPolish && polishError == "")
      ensures config == old(config) && parsedParams == old(parsedParams) && paramText == old(paramText) && activeTab == old(activeTab)
      ensures isParsing == old(isParsing) && parseError == old(parseError)
      ensures activeMainTab == old(activeMainTab) && prevMainTab == old(prevMainTab)
      ensures copyTitle == old(copyTitle) && copyContent == old(copyContent)
      ensures isVerifying == old(isVerifying) && verifyError == old(verifyError)
      ensures polishTitle == old(polishTitle) && polishContent == old(polishContent) && polishDirection == old(polishDirection)
      ensures inspirations == old(inspirations) && selectedInspiration == old(selectedInspiration)
    {
      if config.apiKey == "" {
        showApiConfig := true;
        polishError := NoApiKey;
        return None;
      }
      if selectedInspiration.None? {
        polishError := NoSelection;
        return None;
      }
      isGeneratingPolish := true;
      polishError := "";
      body := Some(PolishBody(config, parsedParams, polishTitle, polishContent, polishDirection,
                              inspirations, selectedInspiration.value));
    }
  }
}
