/**
  A decoded JSON document, as `json.load` hands it to the tools and as tool
  arguments and results travel between the agent and the model. Numbers are
  integers only; JSON objects are maps from key to value.
*/
module Json {

  datatype Json =
    | JNull
    | JBool(b: bool)
    | JNumber(n: int)
    | JString(s: string)
    | JArray(items: seq<Json>)
    | JObject(fields: map<string, Json>)
  {
    /** Neither an array nor an object: there is nothing to descend into. */
    predicate IsScalar() {
      !JArray? && !JObject?
    }
  }
}
