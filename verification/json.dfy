/** Decoded JSON values, as Python's `json` module hands them to the caller:
    None, bool, int/float, str, list and dict. */
module Json {

  datatype Json =
    | JNull
    | JBool(b: bool)
    | JNumber(n: real)       // element values are never inspected, only carried
    | JString(s: string)
    | JArray(items: seq<Json>)
    | JObject(members: map<string, Json>)
}
