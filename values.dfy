/**
 * The dynamic values the bot keeps in Python dicts: JSON user records, analytics
 * payloads. A timestamp written with `datetime.isoformat()` is a string that
 * `datetime.fromisoformat` reads back; it is kept apart from every other string
 * so that "does this string parse as a date" is a question about the constructor.
 */
module Values {

  datatype Json =
    | JNull                 // None / null
    | JBool(b: bool)
    | JInt(i: int)
    | JStr(s: string)       // a string that is not an ISO-8601 timestamp
    | JStamp(t: int)        // the ISO-8601 text of instant t (seconds)

  /** Python's `bool(v)`: None, False, 0 and "" are false. An ISO timestamp is never empty. */
  predicate Truthy(v: Json) {
    match v
    case JNull => false
    case JBool(b) => b
    case JInt(i) => i != 0
    case JStr(s) => s != ""
    case JStamp(_) => true
  }
}
