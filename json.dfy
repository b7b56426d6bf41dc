/**
 * JSON values as `encoding/json` sees them when it decodes into the core's structs, and the
 * compact text `json.Marshal` writes.
 *
 * Decoding into a struct: an object member fills the field whose name (or `json:` tag)
 * equals its key up to case; a null member leaves the field as it was; a later member
 * overrides an earlier one, except that objects decoded into a map are merged; a value of
 * the wrong kind is an error (the first such error is the one reported); unknown keys are
 * ignored.  Turning JSON text into a `Json` value is not part of this module.
 */
module Json {
  import opened Wrappers
  import Strs

  datatype Json =
    | Null
    | Bool(b: bool)
    | Num(n: int)
    | Str(s: string)
    | Arr(items: seq<Json>)
    | Obj(members: seq<(string, Json)>)

  /** A `json.RawMessage`: no bytes at all, or one JSON value. */
  datatype Raw = Absent | Doc(doc: Json)

  type Members = seq<(string, Json)>

  function KindName(j: Json): string {
    match j
    case Null => "null"
    case Bool(_) => "bool"
    case Num(_) => "number"
    case Str(_) => "string"
    case Arr(_) => "array"
    case Obj(_) => "object"
  }

  function TypeError(j: Json, field: string, want: string): string {
    "json: cannot unmarshal " + KindName(j) + " into Go struct field " + field + " of type " + want
  }

  /** A member key selects a struct field when the two agree up to (ASCII) case. */
  predicate KeyMatches(key: string, field: string) {
    Strs.Lower(key) == Strs.Lower(field)
  }

  /** The non-null values given for `field`, in document order. */
  function Values(ms: Members, field: string): (r: seq<Json>)
    ensures |r| <= |ms|
    ensures forall i :: 0 <= i < |r| ==> r[i] != Null
  {
    if |ms| == 0 then []
    else (if KeyMatches(ms[0].0, field) && ms[0].1 != Null then [ms[0].1] else []) + Values(ms[1..], field)
  }

  /**
   * json.Unmarshal into a struct: `null` decodes nothing, an object gives the members to
   * apply, any other value is an error.
   */
  function Unmarshal(j: Json, structName: string): (r: Result<Members>)
    ensures j.Obj? ==> r == Ok(j.members)
    ensures j.Null? ==> r == Ok([])
    ensures r.Err? <==> !j.Obj? && !j.Null?
  {
    match j
    case Null => Ok([])
    case Obj(ms) => Ok(ms)
    case _ => Err("json: cannot unmarshal " + KindName(j) + " into Go value of type " + structName)
  }

  // ---------------------------------------------------------------- scalar fields

  function StringFrom(vals: seq<Json>, field: string, acc: string): Result<string> {
    if |vals| == 0 then Ok(acc)
    else if !vals[0].Str? then Err(TypeError(vals[0], field, "string"))
    else StringFrom(vals[1..], field, vals[0].s)
  }

  function GetString(ms: Members, field: string): Result<string> {
    StringFrom(Values(ms, field), field, "")
  }

  function BoolFrom(vals: seq<Json>, field: string, acc: bool): Result<bool> {
    if |vals| == 0 then Ok(acc)
    else if !vals[0].Bool? then Err(TypeError(vals[0], field, "bool"))
    else BoolFrom(vals[1..], field, vals[0].b)
  }

  function GetBool(ms: Members, field: string): Result<bool> {
    BoolFrom(Values(ms, field), field, false)
  }

  function IntFrom(vals: seq<Json>, field: string, acc: int): Result<int> {
    if |vals| == 0 then Ok(acc)
    else if !vals[0].Num? then Err(TypeError(vals[0], field, "int"))
    else IntFrom(vals[1..], field, vals[0].n)
  }

  function GetInt(ms: Members, field: string): Result<int> {
    IntFrom(Values(ms, field), field, 0)
  }

  // ---------------------------------------------------------------- list and map fields

  /** The elements of a `[]string`: a null element decodes to "". */
  function StringItems(items: seq<Json>, field: string): (r: Result<seq<string>>)
    ensures r.Ok? ==> |r.value| == |items|
  {
    if |items| == 0 then Ok([])
    else if items[0].Null? then
      var rest :- StringItems(items[1..], field); Ok([""] + rest)
    else if items[0].Str? then
      var rest :- StringItems(items[1..], field); Ok([items[0].s] + rest)
    else Err(TypeError(items[0], field, "[]string"))
  }

  function StringsFrom(vals: seq<Json>, field: string, acc: seq<string>): Result<seq<string>> {
    if |vals| == 0 then Ok(acc)
    else if !vals[0].Arr? then Err(TypeError(vals[0], field, "[]string"))
    else
      var xs :- StringItems(vals[0].items, field);
      StringsFrom(vals[1..], field, xs)
  }

  function GetStrings(ms: Members, field: string): Result<seq<string>> {
    StringsFrom(Values(ms, field), field, [])
  }

  /** Keys of a list of pairs. */
  function Keys<V>(ps: seq<(string, V)>): (r: seq<string>)
    ensures |r| == |ps| && forall i :: 0 <= i < |ps| ==> r[i] == ps[i].0
  {
    if |ps| == 0 then [] else [ps[0].0] + Keys(ps[1..])
  }

  predicate DistinctKeys<V>(ps: seq<(string, V)>) {
    forall i, j :: 0 <= i < j < |ps| ==> ps[i].0 != ps[j].0
  }

  /** Where the key sits in a list of pairs: its first position, or none. */
  function KeyIndex<V>(ps: seq<(string, V)>, k: string): (r: Option<nat>)
    ensures r.Some? ==> r.value < |ps| && ps[r.value].0 == k
    ensures r.None? ==> forall i :: 0 <= i < |ps| ==> ps[i].0 != k
  {
    if |ps| == 0 then None
    else if ps[0].0 == k then Some(0)
    else
      match KeyIndex(ps[1..], k)
      case None => None
      case Some(j) => Some(j + 1)
  }

  /** Map assignment on a list of pairs: replace in place, or append a new key. */
  function Put<V(==)>(ps: seq<(string, V)>, k: string, v: V): (r: seq<(string, V)>)
    ensures |r| == |ps| || |r| == |ps| + 1
    ensures DistinctKeys(ps) ==> DistinctKeys(r)
    ensures exists i :: 0 <= i < |r| && r[i] == (k, v)
    ensures forall i :: 0 <= i < |r| && r[i].0 != k ==> i < |ps| && r[i] == ps[i]
    ensures forall i :: 0 <= i < |ps| && ps[i].0 != k ==> r[i] == ps[i]
  {
    match KeyIndex(ps, k)
    case Some(i) =>
      var r := ps[i := (k, v)];
      assert r[i] == (k, v);
      r
    case None =>
      var r := ps + [(k, v)];
      assert r[|ps|] == (k, v);
      r
  }

  /** Entries of one object decoded into a `map[string]string`, merged into `acc`. */
  function MergeStringMap(ms: Members, field: string, acc: seq<(string, string)>): (r: Result<seq<(string, string)>>)
    ensures DistinctKeys(acc) && r.Ok? ==> DistinctKeys(r.value)
    decreases |ms|
  {
    if |ms| == 0 then Ok(acc)
    else if ms[0].1.Null? then MergeStringMap(ms[1..], field, Put(acc, ms[0].0, ""))
    else if ms[0].1.Str? then MergeStringMap(ms[1..], field, Put(acc, ms[0].0, ms[0].1.s))
    else Err(TypeError(ms[0].1, field, "map[string]string"))
  }

  function StringMapFrom(vals: seq<Json>, field: string, acc: seq<(string, string)>): (r: Result<seq<(string, string)>>)
    ensures DistinctKeys(acc) && r.Ok? ==> DistinctKeys(r.value)
  {
    if |vals| == 0 then Ok(acc)
    else if !vals[0].Obj? then Err(TypeError(vals[0], field, "map[string]string"))
    else
      var merged :- MergeStringMap(vals[0].members, field, acc);
      StringMapFrom(vals[1..], field, merged)
  }

  /** A `map[string]string` field; its keys are distinct, as a Go map's are. */
  function GetStringMap(ms: Members, field: string): (r: Result<seq<(string, string)>>)
    ensures r.Ok? ==> DistinctKeys(r.value)
  {
    StringMapFrom(Values(ms, field), field, [])
  }

  /** The elements of a slice of structs, each as the members it is decoded from. */
  function ObjectItems(items: seq<Json>, field: string): (r: Result<seq<Members>>)
    ensures r.Ok? ==> |r.value| == |items|
  {
    if |items| == 0 then Ok([])
    else if items[0].Null? then
      var rest :- ObjectItems(items[1..], field); Ok([[]] + rest)
    else if items[0].Obj? then
      var rest :- ObjectItems(items[1..], field); Ok([items[0].members] + rest)
    else Err(TypeError(items[0], field, "struct"))
  }

  function ObjectsFrom(vals: seq<Json>, field: string, acc: seq<Members>): Result<seq<Members>> {
    if |vals| == 0 then Ok(acc)
    else if !vals[0].Arr? then Err(TypeError(vals[0], field, "[]struct"))
    else
      var xs :- ObjectItems(vals[0].items, field);
      ObjectsFrom(vals[1..], field, xs)
  }

  function GetObjects(ms: Members, field: string): Result<seq<Members>> {
    ObjectsFrom(Values(ms, field), field, [])
  }

  /** The members of a `map[string]T` field with struct values, merged like any map. */
  function MergeObjectMap(ms: Members, field: string, acc: seq<(string, Members)>): Result<seq<(string, Members)>>
    decreases |ms|
  {
    if |ms| == 0 then Ok(acc)
    else if ms[0].1.Null? then MergeObjectMap(ms[1..], field, Put(acc, ms[0].0, []))
    else if ms[0].1.Obj? then MergeObjectMap(ms[1..], field, Put(acc, ms[0].0, ms[0].1.members))
    else Err(TypeError(ms[0].1, field, "struct"))
  }

  // ---------------------------------------------------------------- encoding

  function HexDigit(d: nat): char
    requires d < 16
  {
    "0123456789abcdef"[d]
  }

  /** How json.Marshal writes one character inside a string (HTML-safe escaping). */
  function EscapeChar(c: char): (r: string)
    ensures |r| >= 1
    ensures r[0] == '\\' || (r == [c] && c != '"' && c != '\\')
  {
    if c == '"' then "\\\""
    else if c == '\\' then "\\\\"
    else if c == '\n' then "\\n"
    else if c == '\r' then "\\r"
    else if c == '\t' then "\\t"
    else if c < ' ' || c == '<' || c == '>' || c == '&' then
      "\\u00" + [HexDigit(c as int / 16), HexDigit(c as int % 16)]
    else if c == '\U{2028}' then "\\u2028"
    else if c == '\U{2029}' then "\\u2029"
    else [c]
  }

  function Escape(s: string): string {
    if |s| == 0 then "" else EscapeChar(s[0]) + Escape(s[1..])
  }

  function Quote(s: string): string {
    "\"" + Escape(s) + "\""
  }

  function IntText(n: int): string {
    if n < 0 then "-" + Strs.NatToString(-n) else Strs.NatToString(n)
  }

  /** json.Marshal: compact text, members in order. */
  function Encode(j: Json): string
    decreases j, 1
  {
    match j
    case Null => "null"
    case Bool(b) => if b then "true" else "false"
    case Num(n) => IntText(n)
    case Str(s) => Quote(s)
    case Arr(items) => "[" + EncodeItems(items) + "]"
    case Obj(ms) => "{" + EncodeMembers(ms) + "}"
  }

  function EncodeItems(items: seq<Json>): string
    decreases items, 0
  {
    if |items| == 0 then ""
    else if |items| == 1 then Encode(items[0])
    else Encode(items[0]) + "," + EncodeItems(items[1..])
  }

  function EncodeMembers(ms: Members): string
    decreases ms, 0
  {
    if |ms| == 0 then ""
    else
      assert ms[0] in ms && ms[0].1 < ms[0];
      var m := Quote(ms[0].0) + ":" + Encode(ms[0].1);
      if |ms| == 1 then m else m + "," + EncodeMembers(ms[1..])
  }

  /** A `[]string` as a JSON value. */
  function StringArray(xs: seq<string>): (r: Json)
    ensures r.Arr? && |r.items| == |xs|
    ensures forall i :: 0 <= i < |xs| ==> r.items[i] == Str(xs[i])
  {
    if |xs| == 0 then Arr([]) else Arr([Str(xs[0])] + StringArray(xs[1..]).items)
  }

  /** A `map[string]string` (given as pairs) as a JSON object. */
  function StringObject(ps: seq<(string, string)>): (r: Json)
    ensures r.Obj? && |r.members| == |ps|
    ensures forall i :: 0 <= i < |ps| ==> r.members[i] == (ps[i].0, Str(ps[i].1))
  {
    if |ps| == 0 then Obj([]) else Obj([(ps[0].0, Str(ps[0].1))] + StringObject(ps[1..]).members)
  }

  // ---------------------------------------------------------------- lemmas

  /** Decoding a `[]string` that was encoded gives the list back. */
  lemma {:induction false} StringItemsOfArray(xs: seq<string>, field: string)
    ensures StringItems(StringArray(xs).items, field) == Ok(xs)
    decreases |xs|
  {
    if |xs| > 0 {
      StringItemsOfArray(xs[1..], field);
      assert StringArray(xs).items[1..] == StringArray(xs[1..]).items;
      assert [xs[0]] + xs[1..] == xs;
    }
  }

  /** A single member with the field's own name gives its value back. */
  lemma ValuesSingle(key: string, v: Json, field: string)
    requires KeyMatches(key, field) && v != Null
    ensures Values([(key, v)], field) == [v]
  {
  }

  lemma ValuesOther(key: string, v: Json, field: string)
    requires !KeyMatches(key, field)
    ensures Values([(key, v)], field) == []
  {
  }

  /** A field given once, as a string, decodes to that string. */
  lemma GetStringOnce(ms: Members, field: string, s: string)
    requires Values(ms, field) == [Str(s)]
    ensures GetString(ms, field) == Ok(s)
  {
    var vals := [Str(s)];
    assert vals[1..] == [];
    assert StringFrom(vals[1..], field, s) == Ok(s);
    assert StringFrom(vals, field, "") == StringFrom(vals[1..], field, s);
  }

  /** Keys whose first letters differ even after case folding select different fields. */
  lemma KeyMismatch(key: string, field: string)
    requires |key| > 0 && |field| > 0 && Strs.LowerChar(key[0]) != Strs.LowerChar(field[0])
    ensures !KeyMatches(key, field)
  {
    assert Strs.Lower(key)[0] == Strs.LowerChar(key[0]);
    assert Strs.Lower(field)[0] == Strs.LowerChar(field[0]);
  }

  lemma {:induction false} ValuesAppend(xs: Members, ys: Members, field: string)
    ensures Values(xs + ys, field) == Values(xs, field) + Values(ys, field)
    decreases |xs|
  {
    if |xs| == 0 {
      assert xs + ys == ys;
    } else {
      assert (xs + ys)[1..] == xs[1..] + ys;
      ValuesAppend(xs[1..], ys, field);
    }
  }

  lemma {:induction false} MergeIntoEmpty(ps: seq<(string, string)>, field: string)
    requires DistinctKeys(ps)
    ensures MergeStringMap(StringObject(ps).members, field, []) == Ok(ps)
  {
    MergePrefix(ps, |ps|, field);
    assert ps[..|ps|] == ps;
  }

  lemma {:induction false} MergePrefix(ps: seq<(string, string)>, k: nat, field: string)
    requires DistinctKeys(ps) && k <= |ps|
    ensures MergeStringMap(StringObject(ps).members[|ps| - k..], field, ps[..|ps| - k]) == Ok(ps)
    decreases k
  {
    var ms := StringObject(ps).members;
    var n := |ps|;
    if k == 0 {
      assert ps[..n] == ps;
    } else {
      var i := n - k;
      assert ms[i..][0] == (ps[i].0, Str(ps[i].1));
      assert ms[i..][1..] == ms[i + 1..];
      PutNew(ps[..i], ps[i].0, ps[i].1);
      assert ps[..i] + [ps[i]] == ps[..i + 1];
      MergePrefix(ps, k - 1, field);
    }
  }

  lemma PutNew<V>(ps: seq<(string, V)>, k: string, v: V)
    requires forall i :: 0 <= i < |ps| ==> ps[i].0 != k
    ensures Put(ps, k, v) == ps + [(k, v)]
  {
    if |ps| > 0 {
      PutNew(ps[1..], k, v);
    }
  }
  /** No member selects the field: nothing is decoded into it. */
  lemma {:induction false} NoValues(ms: Members, field: string)
    requires forall k :: 0 <= k < |ms| ==> !KeyMatches(ms[k].0, field)
    ensures Values(ms, field) == []
    decreases |ms|
  {
    if |ms| > 0 {
      NoValues(ms[1..], field);
    }
  }

  /** Keys whose first letters differ up to case: each selects its own member only. */
  predicate DistinctInitials(ms: Members) {
    (forall k :: 0 <= k < |ms| ==> |ms[k].0| > 0)
    && forall i, j :: 0 <= i < j < |ms| ==> Strs.LowerChar(ms[i].0[0]) != Strs.LowerChar(ms[j].0[0])
  }

  /** In an object with distinct initials, a field is given by its own member alone. */
  lemma {:induction false} ValuesAt(ms: Members, j: nat)
    requires DistinctInitials(ms) && j < |ms| && ms[j].1 != Null
    ensures Values(ms, ms[j].0) == [ms[j].1]
    decreases |ms|
  {
    var field := ms[j].0;
    if j == 0 {
      forall k | 0 <= k < |ms[1..]| ensures !KeyMatches(ms[1..][k].0, field) {
        KeyMismatch(ms[k + 1].0, field);
      }
      NoValues(ms[1..], field);
    } else {
      KeyMismatch(ms[0].0, field);
      assert ms[1..][j - 1] == ms[j];
      ValuesAt(ms[1..], j - 1);
    }
  }
}
