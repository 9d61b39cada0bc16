/**
 * The decoded JSON payloads the search and profile endpoints answer with,
 * and the handful of Python dictionary operations the decoder applies to
 * them: truthiness, `key in d`, `d.get(key, default)` and `d[key]`.
 */
module JsonValue {

  datatype Json =
    | JNull
    | JBool(b: bool)
    | JNum(n: int)
    | JStr(s: string)
    | JArr(items: seq<Json>)
    | JObj(fields: map<string, Json>)

  /** Python truthiness of the decoded value: `None`, `False`, `0`, `''`,
      `[]` and `{}` are falsy, everything else is truthy. */
  predicate Truthy(j: Json)
  {
    match j
    case JNull => false
    case JBool(b) => b
    case JNum(n) => n != 0
    case JStr(s) => s != ""
    case JArr(a) => a != []
    case JObj(m) => m != map[]
  }

  /** `key in d` for a dictionary `d`. */
  predicate Has(j: Json, key: string)
  {
    j.JObj? && key in j.fields
  }

  /** `d.get(key, default)`; only meaningful when `j` is a dictionary. */
  function Get(j: Json, key: string, default: Json): Json
  {
    if Has(j, key) then j.fields[key] else default
  }

  /** A text leaf: the string itself, or `default` when the leaf is not a string. */
  function AsString(j: Json, default: string): string
  {
    if j.JStr? then j.s else default
  }

  /** A count leaf: the integer itself, or `default` when the leaf is not a number. */
  function AsInt(j: Json, default: int): int
  {
    if j.JNum? then j.n else default
  }
}
