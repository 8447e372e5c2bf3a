/** Decoded JSON values, as Python's `json` module hands them to the program,
    together with the two Python operations the program applies to them:
    truthiness and `dict.get` / subscripting by a key. */
module Json {
  import opened Optional

  /** A decoded JSON document. Integers and floats are both `Number`; the
      program never does arithmetic on them, it only tests them for zero. */
  datatype Json =
    | Null
    | Bool(b: bool)
    | Number(n: real)
    | Str(s: string)
    | Array(items: seq<Json>)
    | Object(fields: map<string, Json>)

  /** Python truthiness: None, False, 0, 0.0, "", [] and {} are falsy. */
  predicate Truthy(j: Json) {
    match j
    case Null => false
    case Bool(b) => b
    case Number(n) => n != 0.0
    case Str(s) => s != ""
    case Array(items) => items != []
    case Object(fields) => fields != map[]
  }

  /** `d.get(key, default)` on a dict `d`; only a dict has `.get`. */
  function GetOr(fields: map<string, Json>, key: string, default: Json): Json {
    if key in fields then fields[key] else default
  }

  /** `j[key]`: `None` stands for the exception Python raises, a `TypeError`
      when `j` is not a dict and a `KeyError` when the key is absent. */
  function Index(j: Json, key: string): Option<Json> {
    if j.Object? && key in j.fields then Some(j.fields[key]) else None
  }

  /** `j[k0][k1]...`, `None` when any step raises. */
  function Path(j: Json, keys: seq<string>): (r: Option<Json>)
    decreases |keys|
  {
    if keys == [] then Some(j)
    else match Index(j, keys[0])
      case None => None
      case Some(child) => Path(child, keys[1..])
  }

  /** An empty dict, the default the program passes to `.get`. */
  const EmptyObject: Json := Object(map[])
}
