/** A parsed document: JSON, or YAML as far as it is used here. */
module JsonValues {

  datatype Json =
    | Null | Bool(value: bool) | Int(n: int) | Real(r: real) | Text(text: string)
    | List(items: seq<Json>) | Object(fields: map<string, Json>)
}
