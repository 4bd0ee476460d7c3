/** JSON values as the pipeline sees them after `json.loads`, with the few Python operations
    it applies to them: `dict.get`, item assignment, truthiness, `str()`, `float()` and `int()`. */
module JsonValue {
  import opened Base
  import opened Strings

  /** A decoded JSON value. Python's json keeps integers and floats apart, so does this type.
      An object is its list of (key, value) pairs in insertion order, as a Python dict. */
  datatype Json =
    | Null
    | Bool(b: bool)
    | Int(i: int)
    | Float(r: real)
    | Str(s: string)
    | Arr(items: seq<Json>)
    | Obj(fields: seq<(string, Json)>)

  /** The collaborators the pipeline calls but this model does not implement: `json.loads`,
      `json.dumps`, and Python's `float(str)` and `int(str)` text conversions. */
  datatype Codec = Codec(
    parse: string -> Option<Json>,
    dumps: Json -> string,
    parseFloat: string -> Option<real>,
    parseInt: string -> Option<int>)

  /** `d.get(k)` on a dict: the value stored under `k`, or None when the key is absent. */
  function Get(j: Json, k: string): Option<Json> {
    match j
    case Obj(fs) => Lookup(fs, k)
    case _ => None
  }

  /** The value of the first pair with key `k`. */
  function Lookup(fs: seq<(string, Json)>, k: string): Option<Json> {
    if |fs| == 0 then None
    else if fs[0].0 == k then Some(fs[0].1)
    else Lookup(fs[1..], k)
  }

  /** The first pair with key `k` decides the lookup. */
  lemma {:induction false} LookupAt(fs: seq<(string, Json)>, i: int, k: string)
    requires 0 <= i < |fs| && fs[i].0 == k
    requires forall j :: 0 <= j < i ==> fs[j].0 != k
    ensures Lookup(fs, k) == Some(fs[i].1)
  {
    if i > 0 {
      LookupAt(fs[1..], i - 1, k);
    }
  }

  /** `d.get(k, default)` */
  function GetOr(j: Json, k: string, default: Json): Json {
    Get(j, k).GetOr(default)
  }

  /** The keys of a dict, in insertion order. */
  function Keys(j: Json): (ks: seq<string>)
    ensures j.Obj? ==> ks == KeysOf(j.fields)
    ensures !j.Obj? ==> ks == []
  {
    match j
    case Obj(fs) => KeysOf(fs)
    case _ => []
  }

  function KeysOf(fs: seq<(string, Json)>): (ks: seq<string>)
    ensures |ks| == |fs|
    ensures forall i :: 0 <= i < |ks| ==> ks[i] == fs[i].0
  {
    if |fs| == 0 then [] else [fs[0].0] + KeysOf(fs[1..])
  }

  /** `d[k] = v`: an existing key keeps its place and takes the new value; a new key is
      appended. */
  function Set(j: Json, k: string, v: Json): (r: Json)
    requires j.Obj?
    ensures r.Obj? && r.fields == Store(j.fields, k, v)
    ensures Get(r, k) == Some(v)
    ensures forall k' :: k' != k ==> Get(r, k') == Get(j, k')
  {
    Obj(Store(j.fields, k, v))
  }

  function Store(fs: seq<(string, Json)>, k: string, v: Json): (r: seq<(string, Json)>)
    ensures Lookup(r, k) == Some(v)
    ensures forall k' :: k' != k ==> Lookup(r, k') == Lookup(fs, k')
  {
    if |fs| == 0 then [(k, v)]
    else if fs[0].0 == k then
      var r := [(k, v)] + fs[1..];
      assert r[1..] == fs[1..];
      r
    else
      var rest := Store(fs[1..], k, v);
      var r := [fs[0]] + rest;
      assert r[1..] == rest;
      r
  }

  /** Assignment keeps the order of the keys: an existing key stays where it is, a new key
      goes last. */
  lemma {:induction false} StoreKeys(fs: seq<(string, Json)>, k: string, v: Json)
    ensures k in KeysOf(fs) ==> KeysOf(Store(fs, k, v)) == KeysOf(fs)
    ensures k !in KeysOf(fs) ==> KeysOf(Store(fs, k, v)) == KeysOf(fs) + [k]
  {
    if |fs| > 0 && fs[0].0 != k {
      StoreKeys(fs[1..], k, v);
      assert KeysOf(fs) == [fs[0].0] + KeysOf(fs[1..]);
      assert KeysOf(Store(fs, k, v)) == [fs[0].0] + KeysOf(Store(fs[1..], k, v));
    } else if |fs| > 0 {
      assert KeysOf(Store(fs, k, v)) == [k] + KeysOf(fs[1..]);
    }
  }

  /** Storing the value a key already has changes nothing. */
  lemma SetUnchanged(j: Json, k: string, v: Json)
    requires j.Obj? && Get(j, k) == Some(v)
    ensures Set(j, k, v) == j
  {
    StoreUnchanged(j.fields, k, v);
  }

  lemma {:induction false} StoreUnchanged(fs: seq<(string, Json)>, k: string, v: Json)
    requires Lookup(fs, k) == Some(v)
    ensures Store(fs, k, v) == fs
  {
    if fs[0].0 == k {
      assert [(k, v)] + fs[1..] == fs;
    } else {
      StoreUnchanged(fs[1..], k, v);
      assert [fs[0]] + fs[1..] == fs;
    }
  }

  /** Build a dict from its (key, value) pairs. */
  function Dict(fs: seq<(string, Json)>): Json {
    Obj(fs)
  }

  /** A list of strings. */
  function StrList(ss: seq<string>): (r: Json)
    ensures r.Arr? && |r.items| == |ss|
    ensures forall i :: 0 <= i < |ss| ==> r.items[i] == Str(ss[i])
  {
    Arr(seq(|ss|, i requires 0 <= i < |ss| => Str(ss[i])))
  }

  /** Python truthiness: None, False, 0, 0.0, "", [] and {} are false. */
  predicate Truthy(j: Json) {
    match j
    case Null => false
    case Bool(b) => b
    case Int(i) => i != 0
    case Float(r) => r != 0.0
    case Str(s) => s != ""
    case Arr(xs) => xs != []
    case Obj(fs) => fs != []
  }

  /** The falsy values are exactly None, False, 0, 0.0, "", [] and {}. */
  lemma FalsyValues(j: Json)
    ensures !Truthy(j) <==>
      j == Null || j == Bool(false) || j == Int(0) || j == Float(0.0) || j == Str("") || j == Arr([]) || j == Obj([])
  {
  }

  /** `str(v)`. Strings, None, booleans, integers and whole floats of magnitude below 1e16
      come out as Python prints them; other floats (Python writes `1e+16` for `1e16`), lists
      and dicts get a stand-in text that, like Python's, is never blank. */
  function Display(j: Json): (r: string)
    ensures j.Str? ==> r == j.s
    ensures !j.Str? ==> !IsBlank(r)
  {
    var r := (
      match j
      case Null => "None"
      case Bool(b) => if b then "True" else "False"
      case Int(i) => IntText(i)
      case Float(x) => if x.Floor as real == x then IntText(x.Floor) + ".0" else "<float>"
      case Str(s) => s
      case Arr(_) => "[...]"
      case Obj(_) => "{...}");
    if j.Str? then r else NotBlank(r); r
  }

  /** `float(v)`; None when Python raises (a None, a list, a dict, or text it cannot read). */
  function ToFloat(j: Json, codec: Codec): (r: Option<real>)
    ensures j.Float? ==> r == Some(j.r)
    ensures j.Int? ==> r == Some(j.i as real)
    ensures j.Bool? ==> r == Some(if j.b then 1.0 else 0.0)
    ensures j.Str? ==> r == codec.parseFloat(j.s)
    ensures j.Null? || j.Arr? || j.Obj? ==> r == None
  {
    match j
    case Bool(b) => Some(if b then 1.0 else 0.0)
    case Int(i) => Some(i as real)
    case Float(x) => Some(x)
    case Str(s) => codec.parseFloat(s)
    case _ => None
  }

  /** Truncation toward zero, as Python's `int(x)` on a float. */
  function TruncReal(x: real): (n: int)
    ensures 0.0 <= x ==> n as real <= x < n as real + 1.0
    ensures x < 0.0 ==> n as real - 1.0 < x <= n as real
  {
    if x >= 0.0 then x.Floor else -((-x).Floor)
  }

  /** `int(v)`; None when Python raises. */
  function ToInt(j: Json, codec: Codec): (r: Option<int>)
    ensures j.Int? ==> r == Some(j.i)
    ensures j.Float? ==> r == Some(TruncReal(j.r))
    ensures j.Bool? ==> r == Some(if j.b then 1 else 0)
    ensures j.Str? ==> r == codec.parseInt(j.s)
    ensures j.Null? || j.Arr? || j.Obj? ==> r == None
  {
    match j
    case Bool(b) => Some(if b then 1 else 0)
    case Int(i) => Some(i)
    case Float(x) => Some(TruncReal(x))
    case Str(s) => codec.parseInt(s)
    case _ => None
  }
}
