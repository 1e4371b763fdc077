/**
 * The values that travel through the library: header values, JSON documents
 * (record bodies) and the text of a STOMP frame body.
 */
module Values {
  import opened Wrappers

  /** A header value: STOMP headers arrive as text; the library adds numbers and timestamps. */
  datatype HVal = HStr(s: string) | HInt(i: int) | HTime(t: int)

  datatype Json =
    | JNull
    | JBool(b: bool)
    | JInt(i: int)
    | JStr(s: string)
    | JList(items: seq<Json>)
    | JObject(fields: seq<(string, Json)>)

  /**
   * The text of a frame body, abstractly: either the encoding of a JSON
   * document, or text that is not valid JSON.
   */
  datatype Wire = Encoded(value: Json) | Garbled(text: string)

  /** `json.dumps(v, cls=DjangoJSONEncoder)`. */
  function Dumps(v: Json): Wire {
    Encoded(v)
  }

  /** `json.loads(w)`; a decoding error carries the offending text. */
  function Loads(w: Wire): (r: Result<Json, string>)
    ensures r.Ok? <==> w.Encoded?
  {
    match w
    case Encoded(v) => Ok(v)
    case Garbled(t) => Err(t)
  }

  /** A body the producer encodes decodes back to the same document. */
  lemma DumpsLoads(v: Json)
    ensures Loads(Dumps(v)) == Ok(v)
  {
  }
}
