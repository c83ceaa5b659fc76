/**
 * The Python values that flow through the package: option dictionaries,
 * parsed JSON documents, bytes and raised exceptions.
 */
module Values {
  import opened Wrappers
  import opened Text

  newtype byte = x: int | 0 <= x < 256

  /**
   * A parsed JSON document as `json.loads` returns it. Numbers are integers
   * (floats are outside the model); an object keeps its members in the
   * order `dict.items()` yields them.
   */
  datatype Json =
    | JNull
    | JBool(b: bool)
    | JNum(n: int)
    | JStr(s: string)
    | JArr(elems: seq<Json>)
    | JObj(members: seq<(string, Json)>)

  /** A JSON document that a Python `dict` can hold: no object repeats a key. */
  predicate WellFormed(j: Json)
    decreases j
  {
    match j
    case JArr(elems) => forall k :: 0 <= k < |elems| ==> WellFormed(elems[k])
    case JObj(members) =>
      && (forall a, b :: 0 <= a < b < |members| ==> members[a].0 != members[b].0)
      && (forall k :: 0 <= k < |members| ==> WellFormed(members[k].1))
    case _ => true
  }

  /** Python's truth value of a parsed JSON value (`if x:`). */
  predicate JsonTruthy(j: Json)
  {
    match j
    case JNull => false
    case JBool(b) => b
    case JNum(n) => n != 0
    case JStr(s) => s != ""
    case JArr(elems) => elems != []
    case JObj(members) => members != []
  }

  /** `d.get(key)` on a JSON object: the member stored under `key`, if any. */
  function JsonGet(members: seq<(string, Json)>, key: string): (r: Option<Json>)
    ensures r.Some? <==> exists k :: 0 <= k < |members| && members[k].0 == key
    ensures r.Some? ==> exists k :: 0 <= k < |members| && members[k] == (key, r.value)
  {
    if members == [] then None
    else if members[0].0 == key then Some(members[0].1)
    else
      var r := JsonGet(members[1..], key);
      assert forall k :: 0 <= k < |members| - 1 ==> members[1..][k] == members[k + 1];
      r
  }

  /** A value stored in an options dictionary. `VObject` stands for any other object (a client, a path). */
  datatype Value =
    | VNone
    | VBool(b: bool)
    | VInt(i: int)
    | VStr(s: string)
    | VDict(entries: map<string, Value>)
    | VObject(id: nat)

  type Options = map<string, Value>

  /** Python's truth value (`if x:`, `x or y`). */
  predicate Truthy(v: Value)
  {
    match v
    case VNone => false
    case VBool(b) => b
    case VInt(i) => i != 0
    case VStr(s) => s != ""
    case VDict(entries) => entries != map[]
    case VObject(_) => true
  }

  /** `options.get(key, default)`. */
  function Get(options: Options, key: string, default: Value := VNone): Value
  {
    if key in options then options[key] else default
  }

  /** `options or {}` for an optional dictionary. */
  function OrEmpty(options: Option<Options>): Options
  {
    if options.Some? then options.value else map[]
  }

  /** Python's `a or b`. */
  function Or(a: Value, b: Value): (r: Value)
    ensures Truthy(a) ==> r == a
    ensures !Truthy(a) ==> r == b
  {
    if Truthy(a) then a else b
  }

  /** `type(v).__name__`. */
  function TypeName(v: Value): string
  {
    match v
    case VNone => "NoneType"
    case VBool(_) => "bool"
    case VInt(_) => "int"
    case VStr(_) => "str"
    case VDict(_) => "dict"
    case VObject(_) => "object"
  }

  datatype ExcKind = ValueError | RuntimeError | TypeError | AttributeError | OSError | DownloadError

  /** A raised exception; `message` is `str(exc)`. */
  datatype Exc = Exc(kind: ExcKind, message: string)

  /**
   * `base.update(v)`: a dictionary's entries override `base`; an empty string
   * is an empty iterable and changes nothing; a non-empty string is a
   * sequence of one-character elements and is refused with `ValueError`;
   * the other modelled values (`None`, a bool, an int, and an object, taken
   * to be non-iterable) are refused with `TypeError`.
   */
  function DictUpdate(base: Options, v: Value): (r: Result<Options, Exc>)
    ensures r.Success? <==> v.VDict? || v == VStr("")
    ensures v.VDict? ==> r == Success(base + v.entries)
    ensures r.Success? ==> r.value.Keys == base.Keys + (if v.VDict? then v.entries.Keys else {})
    ensures r.Success? ==> forall k :: k in r.value ==>
      r.value[k] == if v.VDict? && k in v.entries then v.entries[k] else base[k]
  {
    match v
    case VDict(entries) => Success(base + entries)
    case VStr(s) =>
      if s == "" then Success(base)
      else Failure(Exc(ValueError, "dictionary update sequence element #0 has length 1; 2 is required"))
    case _ => Failure(Exc(TypeError, "'" + TypeName(v) + "' object is not iterable"))
  }
}
