/**
 * A JSON document after parsing, the form the client hands to its decoders.
 * Objects are dictionaries keyed by member name, as the platform's JSON
 * parser produces them.
 */
module Json {

  datatype Value =
    | JNull
    | JBool(b: bool)
    | JInt(i: int)                    // a number whose value is a whole number
    | JOtherNumber(literal: string)   // any other number, as written
    | JStr(s: string)
    | JArr(items: seq<Value>)
    | JObj(fields: map<string, Value>)

  type Object = map<string, Value>
}
