/** JSON-shaped Python values (what `json.loads` and `response.json()` give)
    and the two `json` library calls the core makes, as parameters. */
module Json {
  import opened Strings

  /** A JSON value; numbers are integers (fractions are never produced by the core). */
  datatype Json =
    | Null
    | Bool(b: bool)
    | Number(n: int)
    | Str(s: string)
    | Array(items: seq<Json>)
    | Object(members: map<string, Json>)

  /** `json.dumps` and `json.loads` (with `None` standing for `JSONDecodeError`).
      They are library code, so the model takes them as inputs. */
  datatype JsonLib = JsonLib(dumps: Json -> string, loads: string -> Option<Json>)

  /** The library's promise for `v`: decoding its encoding gives `v` back. */
  predicate RoundTrips(lib: JsonLib, v: Json)
  {
    lib.loads(lib.dumps(v)) == Some(v)
  }

  /** Python truthiness of a decoded value (`if not v` fails exactly on these). */
  predicate Truthy(v: Json)
  {
    match v
    case Null => false
    case Bool(b) => b
    case Number(n) => n != 0
    case Str(s) => s != ""
    case Array(items) => items != []
    case Object(members) => members != map[]
  }

  /** `d.get(key)` on a decoded JSON object. */
  function Get(d: map<string, Json>, key: string): (r: Option<Json>)
    ensures r.Some? <==> key in d
    ensures r.Some? ==> r.value == d[key]
  {
    if key in d then Some(d[key]) else None
  }
}
