/** Values the classifier exchanges with its collaborators: JSON values as
    Python's json module produces them, and the value-or-error outcome of a
    call that may raise. */
module JsonValue {

  /** The outcome of a call that may raise: its value, or the text `str(e)`
      of the exception it raised. */
  datatype Outcome<+T> = Ok(value: T) | Err(msg: string)

  datatype Option<+T> = None | Some(value: T)

  /** A decoded JSON value. An object decodes to a Python dict, whose keys are
      strings. */
  datatype Json =
    | JNull
    | JBool(b: bool)
    | JNumber(n: int)
    | JString(s: string)
    | JArray(items: seq<Json>)
    | JObject(fields: map<string, Json>)

  const CategoryKey: string := "category"
  const MetadataKey: string := "metadata"

  /** The shape test of the classifier: `isinstance(v, dict) and "category" in v
      and "metadata" in v`. Extra keys are tolerated, and the value under
      "metadata" is not inspected. */
  predicate IsRecord(v: Json)
    ensures IsRecord(v) <==> v.JObject? && {CategoryKey, MetadataKey} <= v.fields.Keys
  {
    v.JObject? && CategoryKey in v.fields && MetadataKey in v.fields
  }

  /** A dict of string values, the form of every diagnostic mapping the
      classifier builds. */
  function StringObject(entries: map<string, string>): (r: Json)
    ensures r.JObject? && r.fields.Keys == entries.Keys
    ensures forall k :: k in entries ==> r.fields[k] == JString(entries[k])
  {
    JObject(map k | k in entries :: JString(entries[k]))
  }
}
