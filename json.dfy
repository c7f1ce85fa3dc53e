/** JSON values as they arrive from a storefront's `products.json` endpoint. */
module Json {

  datatype Option<+T> = None | Some(value: T)

  /** A JSON value. Numbers keep their literal text, so no precision is lost or invented. */
  datatype Value =
    | Null
    | Bool(b: bool)
    | Number(literal: string)
    | Str(s: string)
    | Array(items: seq<Value>)
    | Object(fields: map<string, Value>)

  /** A product record: a JSON object of arbitrary shape, field name to value. */
  type Record = map<string, Value>
}
