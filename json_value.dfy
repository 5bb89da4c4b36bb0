/** Decoded JSON values and the Python operations the pages apply to them:
    truth value, `key in value`, `value[key]` and `value.get(key, default)`.
    A Python exception raised by one of these operations is `None` here. */
module JsonValue {
  import opened Optional
  import opened Text

  /** A JSON value as Python's `json` module returns it.  Objects are maps:
      the pages never depend on the order of an object's keys. */
  datatype Json =
    | Null
    | Bool(b: bool)
    | Num(n: real)
    | Str(s: string)
    | Arr(items: seq<Json>)
    | Obj(fields: map<string, Json>)

  /** The JSON parser (`json.loads`, `response.json()`): None when it raises
      `JSONDecodeError`. */
  type Parser = string -> Option<Json>

  /** Python truth value of a decoded value (`if result:`). */
  predicate Truthy(v: Json) {
    match v
    case Null => false
    case Bool(b) => b
    case Num(n) => n != 0.0
    case Str(s) => s != ""
    case Arr(items) => items != []
    case Obj(fields) => fields != map[]
  }

  /** Truth value of a Python value that may be `None`. */
  predicate TruthyOpt(r: Option<Json>) {
    r.Some? && Truthy(r.value)
  }

  /** Python's `key in v` for a string key: a key test on dicts, an element
      test on lists, a substring test on strings; None where Python raises
      `TypeError`. */
  function In(key: string, v: Json): (r: Option<bool>)
    ensures r.None? <==> v.Null? || v.Bool? || v.Num?
    ensures v.Obj? ==> r == Some(key in v.fields)
    ensures v.Arr? ==> r == Some(Str(key) in v.items)
    ensures v.Str? ==> r == Some(exists k :: OccursAt(v.s, key, k))
  {
    match v
    case Obj(fields) => Some(key in fields)
    case Arr(items) => Some(Str(key) in items)
    case Str(s) =>
      ContainsIff(s, key);
      Some(Contains(s, key))
    case _ => None
  }

  /** Python's `v[key]` for a string key: None where Python raises
      (`KeyError` on a dict, `TypeError` on anything else). */
  function Index(v: Json, key: string): (r: Option<Json>)
    ensures r.Some? <==> v.Obj? && key in v.fields
    ensures r.Some? ==> r.value == v.fields[key]
  {
    if v.Obj? && key in v.fields then Some(v.fields[key]) else None
  }

  /** Python's `v.get(key, default)`: None where Python raises
      `AttributeError`, that is on anything but a dict. */
  function Get(v: Json, key: string, default: Json): (r: Option<Json>)
    ensures r.Some? <==> v.Obj?
    ensures r.Some? && key in v.fields ==> r.value == v.fields[key]
    ensures r.Some? && key !in v.fields ==> r.value == default
  {
    if v.Obj? then Some(if key in v.fields then v.fields[key] else default) else None
  }

  /** The empty object `{}`. */
  const EmptyObj: Json := Obj(map[])

  /** What every client does with a decoded reply:
      `if "error" in data: return None` then `data.get("result", {})`,
      both inside a handler that turns any exception into None. */
  function ResultOf(data: Json): Option<Json> {
    match In("error", data)
    case None => None
    case Some(true) => None
    case Some(false) => Get(data, "result", EmptyObj)
  }

  /** The Python `in` and `.get` in `ResultOf` come down to one dict check:
      a result exists exactly for an object without an `error` member (a
      JSON-RPC 2.0 error response), and it is that object's `result` member,
      `{}` when there is none.  Lists and strings, for which `in` succeeds,
      are rejected by `.get`. */
  lemma ResultOfShape(data: Json)
    ensures ResultOf(data).Some? <==> data.Obj? && "error" !in data.fields
    ensures ResultOf(data).Some? ==>
      ResultOf(data).value == if "result" in data.fields then data.fields["result"] else EmptyObj
  {
  }
}
