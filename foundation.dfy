/** Stand-ins for the Swift and Foundation vocabulary that the Daily extensions use. */
module Foundation {

  /** Swift's Optional. */
  datatype Option<+T> = None | Some(value: T)

  /** A floating-point statistic (a bit rate, a packet loss, a timestamp, a quality score).
      The extensions only pass such values along, so the model never computes with them. */
  type Metric

  /** A JSON number as JSONSerialization hands it back (an NSNumber); the mapper never reads one. */
  type JsonNumber

  /** The value JSONSerialization.jsonObject produces: the Any it returns, restricted to what JSON holds. */
  datatype Json =
    | JNull
    | JBool(b: bool)
    | JNumber(n: JsonNumber)
    | JString(str: string)
    | JArray(elems: seq<Json>)
    | JObject(fields: map<string, Json>)

  /** `(decoded as? [String: Any])?[key] as? String`: the string stored under `key` when the
      decoded value is an object holding a string there, and None in every other case
      (decoding failed, the value is not an object, the key is missing, the value is not a string). */
  function StringField(decoded: Option<Json>, key: string): (r: Option<string>)
    ensures r.Some? <==> decoded.Some? && decoded.value.JObject? && key in decoded.value.fields
                         && decoded.value.fields[key].JString?
    ensures r.Some? ==> r.value == decoded.value.fields[key].str
  {
    match decoded
    case Some(JObject(fields)) =>
      if key in fields then
        match fields[key]
        case JString(s) => Some(s)
        case _ => None
      else None
    case _ => None
  }
}
