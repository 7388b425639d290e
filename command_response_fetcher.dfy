/** Normalisation of the classifier's reply into a list of commands. */
module CommandResponseFetcher {
  import opened JsonValue

  /** What `json.loads` made of the reply text: a value, or a decode error
      (`json.JSONDecodeError` / `AttributeError`, both caught). */
  datatype Decoded = Value(v: Json) | DecodeError

  /** `parse_commands`: always a list. An object is wrapped as a one-element
      list, an array is returned as it is (whatever its elements), and any
      other value or a decode failure gives the empty list. */
  function ParseCommands(d: Decoded): (tasks: seq<Json>)
    ensures d.Value? && d.v.JObject? ==> tasks == [d.v]
    ensures d.Value? && d.v.JArray? ==> tasks == d.v.items
    ensures tasks == [] <==> (d.DecodeError? || !(d.v.JObject? || d.v.JArray?) || d.v == JArray([]))
  {
    match d
    case DecodeError => []
    case Value(v) =>
      match v
      case JObject(_) => [v]
      case JArray(items) => items
      case _ => []
  }
}
