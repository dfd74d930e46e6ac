/**
 * The Python values that `json.loads` produces, plus the `bytes` objects
 * that `base64.b64decode` puts into a decoded document. JSON numbers are
 * modelled as integers only.
 */
module JsonValue {

  datatype Json =
    | JNull
    | JBool(b: bool)
    | JNumber(n: int)
    | JString(s: string)
    | JBytes(bytes: seq<bv8>)
    | JList(items: seq<Json>)
    | JDict(fields: map<string, Json>)
}
