/**
 * A decoded JSON document, as far as the synthesized `Decodable` conformances
 * of the event and order records need it.
 */
module Json {
  import opened Wrappers

  /** An instant; how a JSON value becomes one is the decoder's date strategy. */
  type Date = int

  datatype JsonValue =
    | JString(text: string)
    | JNumber(number: int)
    | JBool(flag: bool)
    | JNull
    | JArray(items: seq<JsonValue>)
    | JObject(members: map<string, JsonValue>)

  /** A required `String` property: present and a JSON string. */
  function StringProperty(members: map<string, JsonValue>, key: string): (r: Option<string>)
    ensures r.Some? <==> key in members && members[key].JString?
    ensures r.Some? ==> members[key] == JString(r.value)
  {
    if key in members && members[key].JString? then Some(members[key].text) else None
  }

  /** A required `Date` property: present and accepted by the date strategy. */
  function DateProperty(members: map<string, JsonValue>, key: string,
                        date: JsonValue -> Option<Date>): (r: Option<Date>)
    ensures r.Some? <==> key in members && date(members[key]).Some?
    ensures r.Some? ==> date(members[key]) == r
  {
    if key in members then date(members[key]) else None
  }
}
