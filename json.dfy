/** The Python values the core receives from a JSON request body or keeps in
    an agent's session state, with the few built-in behaviours the core
    relies on: truthiness, `str()`, `dict.get`, `len` and what a `for` loop
    over the value yields. */
module Json {
  import opened Outcomes
  import opened Text

  datatype Json =
    | JNull
    | JBool(b: bool)
    | JInt(i: int)
    | JFloat(x: real)
    | JStr(s: string)
    | JList(items: seq<Json>)
    | JObject(fields: map<string, Json>)

  /** `type(v).__name__` */
  function TypeName(v: Json): string {
    match v
    case JNull => "NoneType"
    case JBool(_) => "bool"
    case JInt(_) => "int"
    case JFloat(_) => "float"
    case JStr(_) => "str"
    case JList(_) => "list"
    case JObject(_) => "dict"
  }

  /** `bool(v)` */
  predicate Truthy(v: Json) {
    match v
    case JNull => false
    case JBool(b) => b
    case JInt(i) => i != 0
    case JFloat(x) => x != 0.0
    case JStr(s) => s != []
    case JList(items) => items != []
    case JObject(m) => m != map[]
  }

  /** `str(v)`, as an f-string shows it. Floats and containers are shown by a
      fixed placeholder: their exact text is not part of this model. */
  function Display(v: Json): string {
    match v
    case JNull => "None"
    case JBool(b) => if b then "True" else "False"
    case JInt(i) => IntToString(i)
    case JFloat(_) => "<float>"
    case JStr(s) => s
    case JList(_) => "<list>"
    case JObject(_) => "<dict>"
  }

  /** `d.get(key, default)` on a dict. */
  function Get(d: map<string, Json>, key: string, default: Json): (r: Json)
    ensures key !in d ==> r == default
    ensures key in d ==> r == d[key]
  {
    if key in d then d[key] else default
  }

  /** `len(v)`: defined for strings, lists and dicts only. */
  function Len(v: Json): (r: Option<nat>)
    ensures r.Some? <==> (v.JStr? || v.JList? || v.JObject?)
  {
    match v
    case JStr(s) => Some(|s|)
    case JList(items) => Some(|items|)
    case JObject(m) => Some(|m|)
    case _ => None
  }

  /** What `for x in v` yields. A string yields its characters as one-character
      strings; a dict yields its keys, all strings, in insertion order, which
      a `map` does not keep, so only their number is recorded. Numbers,
      booleans and `None` raise. */
  datatype Iteration = Elements(elems: seq<Json>) | Keys(count: nat) | NotIterable

  function Iterate(v: Json): (it: Iteration)
    ensures it.Keys? ==> it.count > 0
    ensures it.NotIterable? <==> Len(v).None?
    ensures it.Elements? ==> Len(v) == Some(|it.elems|)
    ensures it.Keys? ==> Len(v) == Some(it.count)
  {
    match v
    case JList(items) => Elements(items)
    case JStr(s) => Elements(seq(|s|, i requires 0 <= i < |s| => JStr([s[i]])))
    case JObject(m) => if |m| == 0 then Elements([]) else Keys(|m|)
    case _ => NotIterable
  }

  /** The text of the `AttributeError` raised by `v.<attr>` when the type of
      `v` lacks the attribute. */
  function NoAttribute(v: Json, attr: string): string {
    "'" + TypeName(v) + "' object has no attribute '" + attr + "'"
  }

  /** The text of the `TypeError` raised by `len(v)`. */
  function NoLen(v: Json): string {
    "object of type '" + TypeName(v) + "' has no len()"
  }

  /** The text of the `TypeError` raised by `for x in v`. */
  function NotIterableError(v: Json): string {
    "'" + TypeName(v) + "' object is not iterable"
  }

  /** `v[key]` with a string key: a dict looks the key up and raises
      `KeyError(key)`, whose text is the quoted key, when it is missing; the
      other types raise `TypeError` (texts as in CPython 3.11). */
  function Subscript(v: Json, key: string): (r: Result<Json>)
    ensures v.JObject? && key in v.fields ==> r == Ok(v.fields[key])
    ensures v.JObject? && key !in v.fields ==> r == Err("'" + key + "'")
    ensures !v.JObject? ==> r.Err?
  {
    match v
    case JObject(m) => if key in m then Ok(m[key]) else Err("'" + key + "'")
    case JList(_) => Err("list indices must be integers or slices, not str")
    case JStr(_) => Err("string indices must be integers, not 'str'")
    case _ => Err("'" + TypeName(v) + "' object is not subscriptable")
  }

  /** `key in v` for a string `key`: dict keys, list elements equal to the
      string, or a substring; other types raise `TypeError`. */
  function HasKey(v: Json, key: string): (r: Result<bool>)
    ensures r.Err? <==> !(v.JObject? || v.JList? || v.JStr?)
    ensures v.JObject? ==> r == Ok(key in v.fields)
  {
    match v
    case JObject(m) => Ok(key in m)
    case JList(items) => Ok(JStr(key) in items)
    case JStr(s) => Ok(Contains(s, key))
    case _ => Err("argument of type '" + TypeName(v) + "' is not iterable")
  }
}
