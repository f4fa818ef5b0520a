/** Decoded JSON values, as the validator receives them from the JSON decoder.
    Numbers keep the decoder's distinction between integers and floats; floats
    carry their value but no arithmetic is ever done on them. */
module JsonValue {

  datatype Json =
    | JNull
    | JBool(b: bool)
    | JInt(i: int)
    | JFloat(f: real)
    | JStr(s: string)
    | JArr(items: seq<Json>)
    | JObj(fields: map<string, Json>)
}
