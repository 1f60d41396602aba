/** The dynamic values that travel between the HTTP layer and the record
    store: what a JSON request body decodes to, and what the metadata
    parsers hand on as column updates. */
module Values {

  /** A value decoded from JSON into an interface{}: null, a boolean, a
      number (float64, read here as an exact rational), a string, an array
      or an object with its members in order. */
  datatype Any =
    | Nil
    | Boolean(b: bool)
    | Number(x: real)
    | Str(s: string)
    | Array(items: seq<Any>)
    | Object(members: seq<(string, Any)>)

  /** A column value in an update map or a stored row: SQL NULL (a nil
      *string, *uint or json.RawMessage), a string, a float64, a uint, raw
      JSON text, or the JSON encoding of a decoded value. */
  datatype Value =
    | Null
    | Text(s: string)
    | Real(x: real)
    | Count(n: nat)
    | Json(raw: string)
    | Marshal(v: Any)
}
