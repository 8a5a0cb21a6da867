/** Decoded JSON values, and locating the JSON object inside a language-model reply. */
module Json {
  import opened Wrappers
  import opened Text

  /** A value produced by `json.loads`; numbers are modelled as integers. */
  datatype Json =
    | JNull
    | JBool(b: bool)
    | JNum(n: int)
    | JStr(s: string)
    | JList(items: seq<Json>)
    | JObject(fields: map<string, Json>)

  /** Python truthiness of a decoded value. */
  predicate Truthy(j: Json)
  {
    match j
    case JNull => false
    case JBool(b) => b
    case JNum(n) => n != 0
    case JStr(s) => s != ""
    case JList(items) => items != []
    case JObject(fields) => fields != map[]
  }

  /** A string value read from a decoded object: `null` and non-strings read as absent. */
  function AsOptionalString(j: Json): (r: Option<string>)
    ensures r.Some? <==> j.JStr?
  {
    if j.JStr? then Some(j.s) else None
  }

  /**
   * `json.loads` applied to the text of one object. The JSON grammar itself is not part
   * of this model, so every operation that decodes takes the decoder as a parameter;
   * `None` stands for `JSONDecodeError`.
   */
  type Decoder = string -> Option<map<string, Json>>

  /**
   * `response[response.find("{"):response.rfind("}") + 1]`, or `None` when the reply has
   * no `{` or no `}` (`start == -1 or end == 0`). When the last `}` comes before the first
   * `{`, Python's slice is empty.
   */
  function ObjectText(response: string): (r: Option<string>)
    ensures r.None? <==> '{' !in response || '}' !in response
    ensures r.Some? && r.value != [] ==>
      r.value[0] == '{' && r.value[|r.value| - 1] == '}' &&
      exists i :: OccursAt(response, r.value, i) && '{' !in response[..i] && '}' !in response[i + |r.value|..]
    ensures r.Some? ==> (r.value == [] <==> RFind(response, '}') < Find(response, '{'))
  {
    var start := Find(response, '{');
    var end := RFind(response, '}') + 1;
    if start == -1 || end == 0 then None
    else if start < end then
      assert OccursAt(response, response[start..end], start);
      Some(response[start..end])
    else Some("")
  }

  /** The value an object holds under `key`, if any. */
  function Lookup(fields: map<string, Json>, key: string): Option<Json>
  {
    if key in fields then Some(fields[key]) else None
  }

  /** Why a reply could not be read as a JSON object. */
  datatype DecodeError = NoJsonFound | InvalidJson

  /** Locate and decode the object in a reply; an empty slice never decodes. */
  function DecodeObject(response: string, decode: Decoder): (r: Result<map<string, Json>, DecodeError>)
    ensures r == Err(NoJsonFound) <==> ObjectText(response).None?
    ensures r.Ok? ==> ObjectText(response).Some? && ObjectText(response).value != [] &&
                      decode(ObjectText(response).value) == Some(r.value)
  {
    match ObjectText(response)
    case None => Err(NoJsonFound)
    case Some(text) =>
      if text == [] then Err(InvalidJson)
      else match decode(text)
        case None => Err(InvalidJson)
        case Some(fields) => Ok(fields)
  }

  /**
   * Why a reply could not be read as a record: no object could be decoded from it, or a
   * required field is missing (both raise `ValueError` in the agents).
   */
  datatype ParseError = Undecodable(reason: DecodeError) | MissingField(name: string)
}
