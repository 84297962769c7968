/** JSON documents as Python's `json` module hands them back. */
module Json {

  /** A decoded JSON value: objects become dicts (a repeated key keeps its
      last value, so a map is exact), arrays become lists, a number written
      without a fraction or an exponent becomes an `int`, and every other
      number (`9000.0`, `9e3`, `NaN`) a `float`. */
  datatype Json =
    | Null
    | Bool(b: bool)
    | Int(i: int)
    | Float(f: real)
    | Str(s: string)
    | Array(items: seq<Json>)
    | Object(fields: map<string, Json>)
}
