/**
 * JSON-shaped values: the parsed forecast and the documents the bridge publishes.
 * Weather readings are only ever copied, so a number is held as a `real` and never computed with.
 */
module Json {

  datatype Value =
    | JNull
    | JBool(b: bool)
    | JNum(n: real)
    | JStr(s: string)
    | JArr(items: seq<Value>)
    | JObj(fields: map<string, Value>)
}
