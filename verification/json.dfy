/**
 * The part of Gson's JsonElement tree the playable-object dispatcher touches:
 * the element kinds, JsonObject.get, getAsJsonObject and getAsString.
 */
module Json {
  import opened Wrappers
  import opened Exceptions

  datatype Json =
    | JNull
    | JBool(b: bool)
    /** a number primitive, kept as the literal text Gson read */
    | JNumber(literal: string)
    | JString(str: string)
    | JArray(elements: seq<Json>)
    | JObject(members: map<string, Json>)

  /** getAsJsonObject: the element itself when it is an object, IllegalStateException otherwise. */
  function GetAsJsonObject(json: Json): (r: Result<map<string, Json>, Exception>)
    ensures r.Success? <==> json.JObject?
    ensures r.Success? ==> r.value == json.members
    ensures r.Failure? ==> r.error == IllegalState
  {
    if json.JObject? then Success(json.members) else Failure(IllegalState)
  }

  /** JsonObject.get: the member's element, or Java null (None) when the member is absent. */
  function Get(members: map<string, Json>, name: string): (r: Option<Json>)
    ensures r.Some? <==> name in members
    ensures r.Some? ==> r.value == members[name]
  {
    if name in members then Some(members[name]) else None
  }

  /**
   * getAsString: the text of a string, number or boolean primitive; an array
   * answers for its single element and throws IllegalStateException for any
   * other size; JsonNull and JsonObject throw UnsupportedOperationException.
   */
  function GetAsString(json: Json): (r: Result<string, Exception>)
    ensures json.JString? ==> r == Success(json.str)
    ensures json.JNumber? ==> r == Success(json.literal)
    ensures json.JBool? ==> r == Success(if json.b then "true" else "false")
    ensures json.JNull? || json.JObject? ==> r == Failure(UnsupportedOperation)
    ensures r.Failure? ==> r.error == IllegalState || r.error == UnsupportedOperation
    decreases json
  {
    match json
    case JNull => Failure(UnsupportedOperation)
    case JBool(b) => Success(if b then "true" else "false")
    case JNumber(literal) => Success(literal)
    case JString(s) => Success(s)
    case JArray(elements) =>
      if |elements| == 1 then GetAsString(elements[0]) else Failure(IllegalState)
    case JObject(_) => Failure(UnsupportedOperation)
  }

  /** Wrapping an element in any number of one-element arrays does not change its string reading. */
  lemma {:induction false} SingletonArraysReadAsTheirElement(json: Json, depth: nat)
    ensures GetAsString(Nest(json, depth)) == GetAsString(json)
    decreases depth
  {
    if depth > 0 {
      SingletonArraysReadAsTheirElement(json, depth - 1);
      assert Nest(json, depth) == JArray([Nest(json, depth - 1)]);
    }
  }

  /** json wrapped in `depth` one-element arrays. */
  function Nest(json: Json, depth: nat): Json
    decreases depth
  {
    if depth == 0 then json else JArray([Nest(json, depth - 1)])
  }
}
