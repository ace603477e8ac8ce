/** The responses the server writes. */
module Http {
  import opened Common

  datatype Body = Text(text: string) | Raw(bytes: Bytes)

  /**
   * A written response: the status code, the optional second argument of
   * `writeHead` (a status message, not a header) and the body given to `end`.
   */
  datatype Response = Response(status: nat, message: Option<string>, body: Body)

  /** `res404` */
  const NotFound := Response(404, None, Text("404 - not found"))

  const PayloadTooLarge := Response(413, None, Text("413 - payload too large"))

  const RequestTimeout := Response(408, None, Text("408 - timeout"))

  /** The answer to a finished upload: the bare key. */
  function Uploaded(key: string): Response
  {
    Response(200, Some("text/text"), Text(key))
  }

  /** The answer to a successful lookup: the stored bytes. */
  function Found(bytes: Bytes): Response
  {
    Response(200, Some("text/html"), Raw(bytes))
  }
}
