/** The plain values a request carries: the JSON-like payload the serving
    harness hands to `predict`, and the field values of an inventory item. */
module Values {

  datatype Value =
    | Null
    | Bool(b: bool)
    | Int(i: int)
    | Str(s: string)
    | List(elems: seq<Value>)
    | Dict(entries: map<string, Value>)
}
