/**
 * The JSON values that the HTTP client hands to the decoding layer, as
 * Python's `json` module produces them: None, bool, int, float, str, list
 * and dict (whose keys keep their order of arrival).
 */
module JsonData {

  datatype Json =
    | JNull
    | JBool(b: bool)
    | JInt(i: int)
      /** A float, kept opaque: its value is mantissa * 10^exponent. */
    | JFloat(mantissa: int, exponent: int)
    | JStr(s: string)
    | JArr(elems: seq<Json>)
    | JObj(members: seq<(string, Json)>)

  /**
   * Python truthiness of a JSON value: None, False, 0, 0.0, the empty
   * string, the empty list and the empty dict are false, all else true.
   */
  predicate Truthy(j: Json) {
    match j
    case JNull => false
    case JBool(b) => b
    case JInt(i) => i != 0
    case JFloat(m, _) => m != 0
    case JStr(s) => s != ""
    case JArr(xs) => xs != []
    case JObj(m) => m != []
  }
}
