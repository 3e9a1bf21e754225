/** The JSON values that the edge functions destructure from a request body,
    with JavaScript truthiness. Numbers are integers here (no NaN). */
module Json {
  import opened Wrappers

  datatype Json =
    | JNull
    | JBool(b: bool)
    | JNum(n: int)
    | JStr(s: string)
    | JArr(items: seq<Json>)
    | JObj(fields: map<string, Json>)

  /** `!!v` in JavaScript: null, false, 0 and "" are falsy; arrays and objects are truthy. */
  predicate Truthy(v: Json) {
    match v
    case JNull => false
    case JBool(b) => b
    case JNum(n) => n != 0
    case JStr(s) => s != ""
    case JArr(_) => true
    case JObj(_) => true
  }

  /** A request body field: absent keys read as `undefined`. */
  type Field = Option<Json>

  /** `const { key } = body` for a parsed body that is not null: an object yields
      its property, any other value (array, string, number, boolean) has no such
      own property and yields undefined. */
  function Property(body: Json, key: string): (r: Field)
    requires body != JNull
    ensures r.Some? <==> body.JObj? && key in body.fields
    ensures r.Some? ==> r.value == body.fields[key]
  {
    match body
    case JObj(fields) => if key in fields then Some(fields[key]) else None
    case _ => None
  }

  /** Truthiness of a possibly undefined field (`!field` is its negation). */
  predicate FieldTruthy(f: Field) {
    f.Some? && Truthy(f.value)
  }
}
