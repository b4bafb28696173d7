/** JSON values as the Python routes see them after `request.json()`, with the
    handful of Python operations the routes apply to them. */
module Json {
  import opened Wrappers
  import Text

  /** A float is carried as its Python `repr` text; the routes never compute with one. */
  datatype Json =
    | JNull
    | JBool(b: bool)
    | JInt(i: int)
    | JFloat(repr: string)
    | JStr(s: string)
    | JArr(items: seq<Json>)
    | JObj(fields: map<string, Json>)

  const EmptyObj: Json := JObj(map[])

  /** Python's name for the type of a value, as used in `AttributeError` messages. */
  function TypeName(j: Json): string {
    match j
    case JNull => "NoneType"
    case JBool(_) => "bool"
    case JInt(_) => "int"
    case JFloat(_) => "float"
    case JStr(_) => "str"
    case JArr(_) => "list"
    case JObj(_) => "dict"
  }

  /** Python `j.get(key, default)`: fails with an `AttributeError` unless `j` is a dict. */
  function Get(j: Json, key: string, default: Json): (r: Result<Json, string>)
    ensures r.Success? <==> j.JObj?
    ensures r.Success? ==> r.value == if key in j.fields then j.fields[key] else default
  {
    match j
    case JObj(m) => Success(if key in m then m[key] else default)
    case _ => Failure("'" + TypeName(j) + "' object has no attribute 'get'")
  }

  /** Python `m.get(key, default)` on a value already known to be a dict. */
  function Lookup(m: map<string, Json>, key: string, default: Json): Json {
    if key in m then m[key] else default
  }

  /** `{k: v for k, v in j.items() if k != key}`. */
  function Drop(j: Json, key: string): (r: Json)
    requires j.JObj?
    ensures r.JObj? && key !in r.fields
    ensures forall k :: k in j.fields && k != key <==> k in r.fields
    ensures forall k :: k in r.fields ==> r.fields[k] == j.fields[k]
  {
    JObj(map k | k in j.fields && k != key :: j.fields[k])
  }

  /** Python `j[key]`: the `KeyError` or `TypeError` message when it raises. */
  function Index(j: Json, key: string): (r: Result<Json, string>)
    ensures r.Success? <==> j.JObj? && key in j.fields
    ensures r.Success? ==> r.value == j.fields[key]
    ensures j.JObj? && key !in j.fields ==> r == Failure("'" + key + "'")
  {
    match j
    case JObj(m) => if key in m then Success(m[key]) else Failure("'" + key + "'")
    case JArr(_) => Failure("list indices must be integers or slices, not str")
    case JStr(_) => Failure("string indices must be integers, not 'str'")
    case _ => Failure("'" + TypeName(j) + "' object is not subscriptable")
  }

  /** Python `bool(j)`. */
  predicate Truthy(j: Json) {
    match j
    case JNull => false
    case JBool(b) => b
    case JInt(i) => i != 0
    case JFloat(r) => r != "0.0" && r != "-0.0"
    case JStr(s) => s != ""
    case JArr(a) => a != []
    case JObj(m) => m != map[]
  }

  /** A `Dict[str, str]` field of a pydantic model: a dict whose values are all
      strings, read as a string map. */
  function StrMap(j: Json): (r: Option<map<string, string>>)
    ensures r.Some? <==> j.JObj? && forall k :: k in j.fields ==> j.fields[k].JStr?
    ensures r.Some? ==> r.value.Keys == j.fields.Keys && forall k :: k in r.value ==> j.fields[k] == JStr(r.value[k])
  {
    if j.JObj? && forall k :: k in j.fields ==> j.fields[k].JStr? then
      Some(map k | k in j.fields :: j.fields[k].s)
    else None
  }

  /** A `List[str]` field of a pydantic model: a list of strings. */
  function StrSeq(j: Json): (r: Option<seq<string>>)
    ensures r.Some? <==> j.JArr? && forall i :: 0 <= i < |j.items| ==> j.items[i].JStr?
    ensures r.Some? ==> |r.value| == |j.items| && forall i :: 0 <= i < |r.value| ==> j.items[i] == JStr(r.value[i])
  {
    if j.JArr? && forall i :: 0 <= i < |j.items| ==> j.items[i].JStr? then
      Some(seq(|j.items|, i requires 0 <= i < |j.items| => j.items[i].s))
    else None
  }

  /** An `Optional[str]` field of a pydantic model: null or a string. */
  predicate NullOrStr(j: Json) {
    j.JNull? || j.JStr?
  }

  /** Python `str(j)` for scalars. `str()` of a list or a dict is not modelled
      (a JSON object here keeps no key order) and renders as the empty string. */
  function PyStr(j: Json): string {
    match j
    case JNull => "None"
    case JBool(b) => if b then "True" else "False"
    case JInt(i) => Text.IntToString(i)
    case JFloat(r) => r
    case JStr(s) => s
    case _ => ""
  }
}
