/**
 * The JSON values a message body can decode to, and Python's truthiness of them.
 * `json.dumps` and `json.loads` are not modelled as text codecs: a body is handed
 * to the consumer as the decoded value, or as a parse failure.
 */
module JsonModel {
  datatype Json =
    | JNull
    | JBool(b: bool)
    | JNum(n: int)
    | JStr(s: string)
    | JArr(items: seq<Json>)
    | JObj(fields: map<string, Json>)

  /** Python's `bool(value)` for the decoded value: empty and zero values are false. */
  predicate Truthy(j: Json) {
    match j
    case JNull => false
    case JBool(b) => b
    case JNum(n) => n != 0
    case JStr(s) => s != ""
    case JArr(items) => items != []
    case JObj(fields) => fields != map[]
  }

  /** What `json.loads(body)` gives the consumer: a decoded value or a raised error. */
  datatype Parse = Unparseable | Parsed(value: Json)
}
