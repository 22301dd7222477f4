/**
 * JSON values as the Python side builds them (dicts, lists, strings, ...),
 * and the codec that turns them into text and back.
 *
 * `json.dumps` and `json.loads` are not modelled character by character:
 * a `Codec` carries them as an encoder and a partial decoder, and every
 * operation that needs them takes the codec as a parameter.
 */
module Json {
  import opened Wrappers

  /** A JSON value. Object members keep their insertion order, as a Python dict does. */
  datatype Json =
    | JNull
    | JBool(b: bool)
    | JNumber(n: int)
    | JString(s: string)
    | JArray(items: seq<Json>)
    | JObject(members: seq<(string, Json)>)

  /** `dumps` stands for json.dumps, `loads` for json.loads (None: it raised JSONDecodeError). */
  datatype Codec = Codec(dumps: Json -> string, loads: string -> Option<Json>)

  /** json.dumps with its default separators never writes a raw line break. */
  ghost predicate SingleLine(dumps: Json -> string) {
    forall j :: '\n' !in dumps(j)
  }

  /**
   * No object repeats a key, at any depth. A Python dict holds each key once,
   * so every value json.loads returns, and every dict handed to json.dumps,
   * has this shape.
   */
  ghost predicate DistinctKeys(j: Json) {
    match j
    case JArray(items) => forall i :: 0 <= i < |items| ==> DistinctKeys(items[i])
    case JObject(members) =>
      && (forall a, b :: 0 <= a < b < |members| ==> members[a].0 != members[b].0)
      && (forall i :: 0 <= i < |members| ==> DistinctKeys(members[i].1))
    case _ => true
  }

  /** json.loads reads back what json.dumps wrote, for every value a dict-based program can build. */
  ghost predicate RoundTrips(codec: Codec) {
    forall j :: DistinctKeys(j) ==> codec.loads(codec.dumps(j)) == Some(j)
  }
}
