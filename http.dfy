/** The response objects the handlers return. */
module Http {
  import opened Storage

  /** A response body: plain text, a JSON object of strings, the base64 text
      of a stored payload, or the JSON object carrying a generated album. */
  datatype Body =
    | Text(text: string)
    | Object(fields: map<string, string>)
    | Base64(payload: Value)
    | AlbumJson(zip: seq<Entry>, filename: string, albumTitle: string)

  datatype Response = Response(statusCode: int, headers: map<string, string>, body: Body, isBase64Encoded: bool)

  /** `{ statusCode, body: JSON.stringify({ error: message }) }`. */
  function ErrorJson(statusCode: int, message: string): Response
  {
    Response(statusCode, map[], Object(map["error" := message]), false)
  }
}
