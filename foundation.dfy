/**
 * Stand-ins for the Foundation types the feed core consumes: Swift's
 * optional, `UUID`, `URL`, and the JSON value that `JSONDecoder` reads from
 * a response body. Lexing bytes into JSON and the grammars of UUID and URL
 * strings belong to Foundation; they are kept uninterpreted here.
 */
module Foundation {

  /** Swift's `Optional`: `nil` or a wrapped value. */
  datatype Option<+T> = None | Some(value: T)

  /** A Foundation `UUID`; compared by value. */
  type Uuid(==, !new)

  /** A Foundation `URL`; compared by value. */
  type Url(==, !new)

  /**
   * `UUID(uuidString:)`, which `JSONDecoder` uses to decode a `UUID` from a
   * JSON string: `None` when the text is not a well-formed UUID. Its grammar
   * is not part of this model, so this constant is left uninterpreted.
   */
  const ParseUuid: string -> Option<Uuid>

  /**
   * `URL(string:)`, which `JSONDecoder` uses to decode a `URL` from a JSON
   * string: `None` when the text is not a valid URL. Left uninterpreted.
   */
  const ParseUrl: string -> Option<Url>

  /** A JSON value as the decoder sees it after lexing. */
  datatype Json =
    | JNull
    | JBool(b: bool)
    | JNumber(literal: string)
    | JString(text: string)
    | JArray(elems: seq<Json>)
    | JObject(fields: map<string, Json>)

  /**
   * A response body (`Data`) as the JSON reader sees it: `None` when the
   * bytes are not JSON at all (the UTF-8 of "invalid json", say), otherwise
   * the JSON value they spell.
   */
  type Data = Option<Json>
}
